/**
 Merging bios into queued requests: the merge hash, which indexes requests by the sector after their
 last, and the merge arms of __make_request. Requests are named by numbers that stand for their
 addresses; the scheduler's own choices and the segment limits are parameters.
 */
module MergeHash {
  import opened Options

  /** What must agree between a bio and a request: data direction, disk and integrity protection. */
  datatype Attr = Attr(write: bool, disk: nat, integrity: bool)

  datatype Bio = Bio(id: nat, sector: nat, sectors: nat, discard: bool, attr: Attr)

  /** noMerge stands for any of RQ_NOMERGE_FLAGS, mergeKind for a file system or discard request. */
  datatype Rq = Rq(
    bios: seq<Bio>, sector: nat, nrSectors: nat, noMerge: bool, mergeKind: bool, special: bool, attr: Attr)

  datatype Decision = NoMerge | Back(rq: nat) | Front(rq: nat)

  // ----- Requests

  /** rq_hash_key. */
  function Key(rq: Rq): nat {
    rq.sector + rq.nrSectors
  }

  predicate Mergeable(rq: Rq) {
    !rq.noMerge && rq.mergeKind
  }

  /** elv_rq_merge_ok; allowed is the scheduler's answer. */
  predicate MergeOk(rq: Rq, bio: Bio, allowed: bool)
    requires rq.bios != []
  {
    && Mergeable(rq) && bio.discard == rq.bios[0].discard && bio.attr == rq.attr && !rq.special && allowed
  }

  function Last(bios: seq<Bio>): Bio
    requires bios != []
  {
    bios[|bios| - 1]
  }

  /** The bios follow each other without a gap. */
  ghost predicate Gapless(bios: seq<Bio>) {
    forall i :: 0 <= i < |bios| - 1 ==> bios[i].sector + bios[i].sectors == bios[i + 1].sector
  }

  /** No bio appears twice. */
  ghost predicate NoDup(bios: seq<Bio>) {
    forall i, j :: 0 <= i < j < |bios| ==> bios[i].id != bios[j].id
  }

  /** The request is a gapless run of its bios, with matching position, length and attributes. */
  ghost predicate RqOk(rq: Rq) {
    match rq case Rq(bios, sector, _, _, _, _, attr) =>
      && bios != [] && Gapless(bios) && NoDup(bios)
      && sector == bios[0].sector && Key(rq) == Last(bios).sector + Last(bios).sectors
      && forall i :: 0 <= i < |bios| ==> bios[i].attr == attr
  }

  ghost function BioIds(bios: seq<Bio>): set<nat> {
    set i | 0 <= i < |bios| :: bios[i].id
  }

  lemma BioIdsConcat(a: seq<Bio>, b: seq<Bio>)
    ensures BioIds(a + b) == BioIds(a) + BioIds(b)
  {
    forall i | 0 <= i < |a| ensures a[i].id in BioIds(a + b) {
      assert (a + b)[i] == a[i];
    }
    forall i | 0 <= i < |b| ensures b[i].id in BioIds(a + b) {
      assert (a + b)[|a| + i] == b[i];
    }
  }

  lemma NoDupConcat(a: seq<Bio>, b: seq<Bio>)
    requires NoDup(a) && NoDup(b) && BioIds(a) !! BioIds(b)
    ensures NoDup(a + b)
  {
    forall i, j | 0 <= i < j < |a + b| ensures (a + b)[i].id != (a + b)[j].id {
      if i < |a| <= j {
        assert a[i].id in BioIds(a) && b[j - |a|].id in BioIds(b);
      }
    }
  }

  function BackMerged(rq: Rq, bio: Bio): Rq {
    rq.(bios := rq.bios + [bio], nrSectors := rq.nrSectors + bio.sectors)
  }

  function FrontMerged(rq: Rq, bio: Bio): Rq {
    rq.(bios := [bio] + rq.bios, sector := bio.sector, nrSectors := rq.nrSectors + bio.sectors)
  }

  function Joined(rq: Rq, next: Rq): Rq {
    rq.(bios := rq.bios + next.bios, nrSectors := rq.nrSectors + next.nrSectors)
  }

  lemma JoinedOk(rq: Rq, next: Rq)
    requires RqOk(rq) && RqOk(next) && Key(rq) == next.sector && rq.attr == next.attr
    requires BioIds(rq.bios) !! BioIds(next.bios)
    ensures RqOk(Joined(rq, next)) && Key(Joined(rq, next)) == Key(next)
    ensures BioIds(Joined(rq, next).bios) == BioIds(rq.bios) + BioIds(next.bios)
  {
    BioIdsConcat(rq.bios, next.bios);
    NoDupConcat(rq.bios, next.bios);
  }

  /** A bio as a request of its own. */
  ghost function Alone(bio: Bio, like: Rq): Rq {
    like.(bios := [bio], sector := bio.sector, nrSectors := bio.sectors)
  }

  lemma BackMergedOk(rq: Rq, bio: Bio)
    requires RqOk(rq) && Key(rq) == bio.sector && bio.attr == rq.attr && bio.id !in BioIds(rq.bios)
    ensures RqOk(BackMerged(rq, bio)) && BioIds(BackMerged(rq, bio).bios) == BioIds(rq.bios) + {bio.id}
  {
    SingleBio(bio);
    JoinedOk(rq, Alone(bio, rq));
  }

  /** A front merge does not change the key: this is why it need not rehash. */
  lemma FrontMergedOk(rq: Rq, bio: Bio)
    requires RqOk(rq) && bio.sector + bio.sectors == rq.sector && bio.attr == rq.attr && bio.id !in BioIds(rq.bios)
    ensures RqOk(FrontMerged(rq, bio)) && Key(FrontMerged(rq, bio)) == Key(rq)
    ensures BioIds(FrontMerged(rq, bio).bios) == BioIds(rq.bios) + {bio.id}
  {
    SingleBio(bio);
    JoinedOk(Alone(bio, rq), rq);
  }

  // ----- All queued requests

  /** The bios held by the queued requests. */
  ghost function Pending(rqs: map<nat, Rq>): set<nat> {
    set r, b | r in rqs && b in BioIds(rqs[r].bios) :: b
  }

  /** Every request is a proper run, and no bio is held by two requests. */
  ghost predicate RqsOk(rqs: map<nat, Rq>) {
    && (forall r :: r in rqs ==> RqOk(rqs[r]))
    && (forall r, s :: r in rqs && s in rqs && r != s ==> BioIds(rqs[r].bios) !! BioIds(rqs[s].bios))
  }

  lemma PendingChanged(rqs: map<nat, Rq>, r: nat, rq: Rq, added: set<nat>)
    requires RqsOk(rqs) && r in rqs && RqOk(rq) && added !! Pending(rqs)
    requires BioIds(rq.bios) == BioIds(rqs[r].bios) + added
    ensures RqsOk(rqs[r := rq]) && Pending(rqs[r := rq]) == Pending(rqs) + added
  {
    var now := rqs[r := rq];
    forall s | s in rqs && s != r ensures BioIds(rqs[s].bios) !! BioIds(rq.bios) {
      assert forall b :: b in BioIds(rqs[s].bios) ==> b in Pending(rqs);
    }
    forall b | b in Pending(rqs) ensures b in Pending(now) {
      var s :| s in rqs && b in BioIds(rqs[s].bios);
      assert s in now && b in BioIds(now[s].bios);
    }
    forall b | b in added ensures b in Pending(now) {
      assert r in now && b in BioIds(now[r].bios);
    }
  }

  lemma RqsJoined(rqs: map<nat, Rq>, r: nat, s: nat, rq: Rq)
    requires RqsOk(rqs) && r in rqs && s in rqs && r != s && RqOk(rq)
    requires BioIds(rq.bios) == BioIds(rqs[r].bios) + BioIds(rqs[s].bios)
    ensures RqsOk(rqs[r := rq] - {s})
  {
    var now := rqs[r := rq] - {s};
    forall t | t in now && t != r ensures BioIds(now[t].bios) !! BioIds(rq.bios) {
      assert t in rqs && t != s;
    }
  }

  lemma PendingJoined(rqs: map<nat, Rq>, r: nat, s: nat, rq: Rq)
    requires r in rqs && s in rqs && r != s
    requires BioIds(rq.bios) == BioIds(rqs[r].bios) + BioIds(rqs[s].bios)
    ensures Pending(rqs[r := rq] - {s}) == Pending(rqs)
  {
    var now := rqs[r := rq] - {s};
    forall b | b in Pending(rqs) ensures b in Pending(now) {
      var t :| t in rqs && b in BioIds(rqs[t].bios);
      var u := if t == s then r else t;
      assert u in now && b in BioIds(now[u].bios);
    }
    forall b | b in Pending(now) ensures b in Pending(rqs) {
      var t :| t in now && b in BioIds(now[t].bios);
      var u := if t == r && b in BioIds(rqs[s].bios) then s else t;
      assert u in rqs && b in BioIds(rqs[u].bios);
    }
  }

  lemma PendingGone(rqs: map<nat, Rq>, r: nat)
    requires RqsOk(rqs) && r in rqs
    ensures RqsOk(rqs - {r}) && Pending(rqs - {r}) == Pending(rqs) - BioIds(rqs[r].bios)
  {
    var now := rqs - {r};
    forall b | b in Pending(rqs) && b !in BioIds(rqs[r].bios) ensures b in Pending(now) {
      var t :| t in rqs && b in BioIds(rqs[t].bios);
      assert t in now && b in BioIds(now[t].bios);
    }
  }

  lemma PendingNew(rqs: map<nat, Rq>, r: nat, rq: Rq)
    requires RqsOk(rqs) && r !in rqs && RqOk(rq) && BioIds(rq.bios) !! Pending(rqs)
    ensures RqsOk(rqs[r := rq]) && Pending(rqs[r := rq]) == Pending(rqs) + BioIds(rq.bios)
  {
    var now := rqs[r := rq];
    forall s | s in rqs ensures BioIds(rqs[s].bios) !! BioIds(rq.bios) {
      assert forall b :: b in BioIds(rqs[s].bios) ==> b in Pending(rqs);
    }
    forall b | b in Pending(rqs) ensures b in Pending(now) {
      var s :| s in rqs && b in BioIds(rqs[s].bios);
      assert s in now && b in BioIds(now[s].bios);
    }
    forall b | b in BioIds(rq.bios) ensures b in Pending(now) {
      assert r in now && b in BioIds(now[r].bios);
    }
  }


  // ----- The hash

  function Without(s: seq<nat>, r: nat): (t: seq<nat>)
    ensures forall x :: x in t <==> x in s && x != r
  {
    if s == [] then [] else if s[0] == r then Without(s[1..], r) else [s[0]] + Without(s[1..], r)
  }

  ghost predicate OnHash(hash: seq<seq<nat>>, r: nat) {
    exists b :: 0 <= b < |hash| && r in hash[b]
  }

  /** __elv_rqhash_del: the entry leaves whichever bucket it is in. */
  function Deleted(hash: seq<seq<nat>>, r: nat): (h: seq<seq<nat>>)
    ensures |h| == |hash| && !OnHash(h, r)
    ensures forall b, x :: 0 <= b < |h| ==> (x in h[b] <==> x in hash[b] && x != r)
  {
    seq(|hash|, b requires 0 <= b < |hash| => Without(hash[b], r))
  }

  /**
   Every entry is a queued request in the bucket of its key, and every mergeable queued request has an
   entry. The request stale, whose key may just have changed, is exempt.
   */
  ghost predicate HashOk(bucketOf: nat -> nat, rqs: map<nat, Rq>, hash: seq<seq<nat>>, stale: set<nat>) {
    && (forall k :: bucketOf(k) < |hash|)
    && (forall b, r :: 0 <= b < |hash| && r in hash[b] && r !in stale ==> r in rqs && bucketOf(Key(rqs[r])) == b)
    && (forall r :: r in rqs && r !in stale && Mergeable(rqs[r]) ==> r in hash[bucketOf(Key(rqs[r]))])
  }

  lemma DeletedOk(bucketOf: nat -> nat, rqs: map<nat, Rq>, hash: seq<seq<nat>>, r: nat, stale: set<nat>)
    requires HashOk(bucketOf, rqs, hash, stale)
    ensures HashOk(bucketOf, rqs, Deleted(hash, r), stale + {r})
  {
  }

  lemma DroppedOk(bucketOf: nat -> nat, rqs: map<nat, Rq>, hash: seq<seq<nat>>, r: nat)
    requires HashOk(bucketOf, rqs, hash, {}) && (r in rqs ==> !Mergeable(rqs[r]))
    ensures HashOk(bucketOf, rqs, Deleted(hash, r), {})
  {
  }

  lemma AddedOk(bucketOf: nat -> nat, rqs: map<nat, Rq>, hash: seq<seq<nat>>, r: nat)
    requires HashOk(bucketOf, rqs, hash, {r}) && r in rqs && !OnHash(hash, r)
    ensures var b := bucketOf(Key(rqs[r])); HashOk(bucketOf, rqs, hash[b := [r] + hash[b]], {})
  {
  }

  /** Replacing a request by one with the same key and mergeability leaves the hash right. */
  lemma SameKeyOk(bucketOf: nat -> nat, rqs: map<nat, Rq>, hash: seq<seq<nat>>, r: nat, rq: Rq)
    requires HashOk(bucketOf, rqs, hash, {}) && r in rqs && Key(rq) == Key(rqs[r])
    requires (Mergeable(rq) ==> Mergeable(rqs[r]))
    ensures HashOk(bucketOf, rqs[r := rq], hash, {})
  {
  }

  lemma NewKeyOk(bucketOf: nat -> nat, rqs: map<nat, Rq>, hash: seq<seq<nat>>, r: nat, rq: Rq)
    requires HashOk(bucketOf, rqs, hash, {})
    ensures HashOk(bucketOf, rqs[r := rq], hash, {r})
  {
  }

  /** A request off the hash may leave the queue. */
  lemma LeftOk(bucketOf: nat -> nat, rqs: map<nat, Rq>, hash: seq<seq<nat>>, r: nat)
    requires HashOk(bucketOf, rqs, hash, {r}) && !OnHash(hash, r)
    ensures HashOk(bucketOf, rqs - {r}, hash, {})
  {
  }

  /** attempt_merge's conditions on the two requests. */
  predicate CanJoin(rq: Rq, next: Rq) {
    && Mergeable(rq) && Mergeable(next) && Key(rq) == next.sector && rq.attr == next.attr && !next.special
  }

  lemma StaleGrows(bucketOf: nat -> nat, rqs: map<nat, Rq>, hash: seq<seq<nat>>, stale: set<nat>, r: nat, rq: Rq)
    requires HashOk(bucketOf, rqs, hash, stale) && stale <= {r}
    ensures HashOk(bucketOf, rqs[r := rq], hash, {r})
  {
  }

  lemma InsertedOk(bucketOf: nat -> nat, rqs: map<nat, Rq>, hash: seq<seq<nat>>, r: nat, rq: Rq)
    requires HashOk(bucketOf, rqs, hash, {}) && r !in rqs
    ensures !OnHash(hash, r) && HashOk(bucketOf, rqs[r := rq], hash, if Mergeable(rq) then {r} else {})
  {
  }

  lemma SingleBio(bio: Bio)
    ensures BioIds([bio]) == {bio.id}
  {
    assert [bio][0].id in BioIds([bio]);
  }

  lemma InPending(rqs: map<nat, Rq>, r: nat)
    requires r in rqs
    ensures BioIds(rqs[r].bios) <= Pending(rqs)
  {
  }
}
