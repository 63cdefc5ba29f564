/**
 The merge code as it runs: fields changed in place, with the lookup loop and the early returns of
 elevator.c, blk-core.c and blk-merge.c. Each method is tied to the corresponding function on the
 merge state.
 */
module MergeQueue {
  import opened Options
  import opened MergeHash
  import opened MergeIndex

  /** elv_try_merge's answer. */
  function TriedMerge(r: nat, rq: Rq, bio: Bio, allowed: bool): Decision
    requires rq.bios != []
  {
    if !MergeOk(rq, bio, allowed) then NoMerge
    else if Key(rq) == bio.sector then Back(r)
    else if bio.sector + bio.sectors == rq.sector then Front(r)
    else NoMerge
  }

  /** A bio is merged exactly if the request may take it and they meet: at its end for Back, at its start for Front. */
  lemma TriedMergeExactly(r: nat, rq: Rq, bio: Bio, allowed: bool)
    requires rq.bios != []
    ensures TriedMerge(r, rq, bio, allowed) == Back(r) <==>
      MergeOk(rq, bio, allowed) && rq.sector + rq.nrSectors == bio.sector
    ensures TriedMerge(r, rq, bio, allowed) == Front(r) <==>
      MergeOk(rq, bio, allowed) && rq.sector + rq.nrSectors != bio.sector && bio.sector + bio.sectors == rq.sector
    ensures TriedMerge(r, rq, bio, allowed) in {NoMerge, Back(r), Front(r)}
  {
  }

  /** A decision to merge names a queued request that takes the bio and touches it on that side. */
  ghost predicate Fits(rqs: map<nat, Rq>, d: Decision, bio: Bio, allows: nat -> bool) {
    d != NoMerge ==>
      && d.rq in rqs && rqs[d.rq].bios != [] && MergeOk(rqs[d.rq], bio, allows(d.rq))
      && (if d.Back? then Key(rqs[d.rq]) == bio.sector else bio.sector + bio.sectors == rqs[d.rq].sector)
  }

  /** A mergeable queued request ends where the bio begins. */
  ghost predicate Waits(rqs: map<nat, Rq>, bio: Bio) {
    exists r :: r in rqs && Mergeable(rqs[r]) && Key(rqs[r]) == bio.sector
  }

  /** Some such request must not take the bio. */
  ghost predicate Objects(rqs: map<nat, Rq>, bio: Bio, allows: nat -> bool) {
    exists r ::
      && r in rqs && rqs[r].bios != [] && Mergeable(rqs[r]) && Key(rqs[r]) == bio.sector
      && !MergeOk(rqs[r], bio, allows(r))
  }

  class Queue {
    /** ELV_HASH_FN. */
    const bucketOf: nat -> nat
    var rqs: map<nat, Rq>
    var hash: seq<seq<nat>>
    var lastMerge: Option<nat>
    var nrSorted: int

    ghost function Abs(): Index
      reads this
    {
      Index(rqs, hash, lastMerge, nrSorted)
    }

    ghost predicate Valid()
      reads this
    {
      Ok(bucketOf, Abs())
    }

    constructor (bucketOf: nat -> nat, entries: nat)
      requires forall k :: bucketOf(k) < entries
      ensures Valid() && rqs == map[] && this.bucketOf == bucketOf
    {
      this.bucketOf := bucketOf;
      rqs, hash, lastMerge, nrSorted := map[], seq(entries, _ => []), None, 0;
    }

    /** elv_rqhash_del. */
    method HashDel(r: nat)
      modifies this`hash
      ensures hash == Deleted(old(hash), r)
    {
      hash := Deleted(hash, r);
    }

    /** elv_rqhash_add; a request already on the hash is a BUG. */
    method HashAdd(r: nat)
      requires r in rqs && bucketOf(Key(rqs[r])) < |hash| && !OnHash(hash, r)
      modifies this`hash
      ensures hash == Added(bucketOf, rqs, old(hash), r)
    {
      var b := bucketOf(Key(rqs[r]));
      hash := hash[b := [r] + hash[b]];
    }

    /** elv_rqhash_reposition. */
    method HashReposition(r: nat)
      requires r in rqs && bucketOf(Key(rqs[r])) < |hash|
      modifies this`hash
      ensures hash == Repositioned(bucketOf, rqs, old(hash), r)
    {
      HashDel(r);
      HashAdd(r);
    }

    /** The loop of elv_rqhash_find over the bucket of offset. */
    method ScanBucket(entries: seq<nat>, offset: nat) returns (found: Option<nat>)
      requires forall r :: r in entries ==> r in rqs
      modifies this`hash
      ensures (found, hash) == Find(rqs, old(hash), entries, offset)
    {
      var i := 0;
      assert entries[0..] == entries;
      while i < |entries|
        invariant i <= |entries|
        invariant Find(rqs, old(hash), entries, offset) == Find(rqs, hash, entries[i..], offset)
      {
        var r := entries[i];
        assert entries[i..][1..] == entries[i + 1..];
        if !Mergeable(rqs[r]) {
          HashDel(r);
        } else if Key(rqs[r]) == offset {
          return Some(r);
        }
        i := i + 1;
      }
      found := None;
    }

    /** elv_rqhash_find: a request is found exactly when a mergeable queued one ends at offset. */
    method HashFind(offset: nat) returns (found: Option<nat>)
      requires Valid()
      modifies this`hash
      ensures Valid()
      ensures found.Some? <==> exists r :: r in rqs && Mergeable(rqs[r]) && Key(rqs[r]) == offset
      ensures found.Some? ==> found.value in rqs && Mergeable(rqs[found.value]) && Key(rqs[found.value]) == offset
    {
      ghost var x := Abs();
      BucketIsQueued(bucketOf, x, offset);
      found := ScanBucket(hash[bucketOf(offset)], offset);
      LookupIsExact(bucketOf, x, offset);
      LookupKeeps(bucketOf, x, offset);
      assert Abs() == x.(hash := Find(x.rqs, x.hash, x.hash[bucketOf(offset)], offset).1);
    }

    /** elv_try_merge. */
    method TryMerge(r: nat, bio: Bio, allowed: bool) returns (d: Decision)
      requires r in rqs && rqs[r].bios != []
      ensures d == TriedMerge(r, rqs[r], bio, allowed)
    {
      if MergeOk(rqs[r], bio, allowed) {
        if rqs[r].sector + rqs[r].nrSectors == bio.sector {
          return Back(r);
        } else if rqs[r].sector - bio.sectors == bio.sector {
          return Front(r);
        }
      }
      d := NoMerge;
    }

    /** elv_merge; the scheduler answers allows and proposes front, whose sector follows the bio. */
    method Merge(bio: Bio, noMerges: bool, allows: nat -> bool, front: Option<nat>) returns (d: Decision)
      requires Valid() && (front.Some? ==> Fits(rqs, Front(front.value), bio, allows))
      modifies this`hash
      ensures Valid() && Fits(rqs, d, bio, allows)
      ensures d.NoMerge? && !noMerges ==> !Waits(rqs, bio) || Objects(rqs, bio, allows)
    {
      if lastMerge.Some? {
        d := TryMerge(lastMerge.value, bio, allows(lastMerge.value));
        if d != NoMerge {
          return;
        }
      }
      if noMerges {
        return NoMerge;
      }
      var found := HashFind(bio.sector);
      if found.Some? && MergeOk(rqs[found.value], bio, allows(found.value)) {
        return Back(found.value);
      }
      d := if front.Some? then Front(front.value) else NoMerge;
    }

    /** elv_merged_request, without the scheduler's part. */
    method MergedRequest(r: nat, back: bool)
      requires r in rqs && bucketOf(Key(rqs[r])) < |hash|
      modifies this`hash, this`lastMerge
      ensures hash == (if back then Repositioned(bucketOf, rqs, old(hash), r) else old(hash)) && lastMerge == Some(r)
    {
      if back {
        HashReposition(r);
      }
      lastMerge := Some(r);
    }

    /** elv_merge_requests, without the scheduler's part. */
    method MergeRequests(r: nat, next: nat)
      requires r in rqs && bucketOf(Key(rqs[r])) < |hash|
      modifies this`hash, this`lastMerge, this`nrSorted
      ensures hash == Deleted(Repositioned(bucketOf, rqs, old(hash), r), next)
      ensures nrSorted == old(nrSorted) - 1 && lastMerge == Some(r)
    {
      HashReposition(r);
      HashDel(next);
      nrSorted, lastMerge := nrSorted - 1, Some(r);
    }

    /** attempt_merge; fits is ll_merge_requests_fn's answer. */
    method AttemptMerge(r: nat, next: nat, fits: bool) returns (ok: bool)
      requires r in rqs && next in rqs && r != next && forall k :: bucketOf(k) < |hash|
      modifies this`rqs, this`hash, this`lastMerge, this`nrSorted
      ensures ok == (CanJoin(old(rqs)[r], old(rqs)[next]) && fits)
      ensures Abs() == if ok then JoinedIndex(bucketOf, old(Abs()), r, next) else old(Abs())
    {
      if !Mergeable(rqs[r]) || !Mergeable(rqs[next]) {
        return false;
      }
      if rqs[r].sector + rqs[r].nrSectors != rqs[next].sector {
        return false;
      }
      if rqs[r].attr != rqs[next].attr || rqs[next].special {
        return false;
      }
      if !fits {
        return false;
      }
      rqs := rqs[r := Joined(rqs[r], rqs[next])];
      MergeRequests(r, next);
      rqs := rqs - {next};
      ok := true;
    }

    /** The refusal of ll_back_merge_fn and ll_front_merge_fn. */
    method Refuse(r: nat)
      requires r in rqs
      modifies this`rqs, this`lastMerge
      ensures Abs() == Refused(old(Abs()), r)
    {
      rqs := rqs[r := rqs[r].(noMerge := true)];
      if lastMerge == Some(r) {
        lastMerge := None;
      }
    }

    /** The back-merge arm; fits and fitsNext are the answers of the segment checks, next is elv_latter_request. */
    method BackMergeArm(r: nat, bio: Bio, fits: bool, next: Option<nat>, fitsNext: bool)
      requires r in rqs && (next.Some? ==> next.value in rqs && next.value != r) && forall k :: bucketOf(k) < |hash|
      modifies this
      ensures Abs() == if fits then BackArm(bucketOf, old(Abs()), r, bio, next, fitsNext) else Refused(old(Abs()), r)
    {
      if !fits {
        Refuse(r);
        return;
      }
      rqs := rqs[r := rqs[r].(bios := rqs[r].bios + [bio], nrSectors := rqs[r].nrSectors + bio.sectors)];
      var joined := false;
      if next.Some? {
        joined := AttemptMerge(r, next.value, fitsNext);
      }
      if !joined {
        MergedRequest(r, true);
      }
    }

    /** The front-merge arm; prev is elv_former_request. */
    method FrontMergeArm(r: nat, bio: Bio, fits: bool, prev: Option<nat>, fitsPrev: bool)
      requires r in rqs && (prev.Some? ==> prev.value in rqs && prev.value != r) && forall k :: bucketOf(k) < |hash|
      modifies this
      ensures Abs() == if fits then FrontArm(bucketOf, old(Abs()), r, bio, prev, fitsPrev) else Refused(old(Abs()), r)
    {
      if !fits {
        Refuse(r);
        return;
      }
      rqs := rqs[r := rqs[r].(bios := [bio] + rqs[r].bios, sector := bio.sector,
        nrSectors := rqs[r].nrSectors + bio.sectors)];
      var joined := false;
      if prev.Some? {
        joined := AttemptMerge(prev.value, r, fitsPrev);
      }
      if !joined {
        MergedRequest(r, false);
      }
    }

    /** __make_request up to get_rq: a merged bio joins the pending ones, any other leaves them alone. */
    method TryToMerge(bio: Bio, skip: bool, noMerges: bool, allows: nat -> bool, front: Option<nat>, fits: bool,
                      other: Option<nat>, fitsOther: bool) returns (merged: bool)
      requires Valid() && bio.id !in Pending(rqs)
      requires (front.Some? ==> Fits(rqs, Front(front.value), bio, allows)) && (other.Some? ==> other.value in rqs)
      modifies this
      ensures Valid() && Pending(rqs) == if merged then Pending(old(rqs)) + {bio.id} else Pending(old(rqs))
      ensures (merged ==> fits && !skip)
      ensures (!merged && fits && !skip && !noMerges ==> !Waits(old(rqs), bio) || Objects(old(rqs), bio, allows))
    {
      if skip {
        return false;
      }
      var d := Merge(bio, noMerges, allows, front);
      if d == NoMerge {
        return false;
      }
      var neighbour := if other == Some(d.rq) then None else other;
      if d.Back? {
        TakeBack(d.rq, bio, fits, neighbour, fitsOther);
      } else {
        TakeFront(d.rq, bio, fits, neighbour, fitsOther);
      }
      merged := fits;
    }

    /** The back-merge arm in a right state. */
    method TakeBack(r: nat, bio: Bio, fits: bool, next: Option<nat>, fitsNext: bool)
      requires Valid() && bio.id !in Pending(rqs) && r in rqs && (next.Some? ==> next.value in rqs && next.value != r)
      requires Mergeable(rqs[r]) && Key(rqs[r]) == bio.sector && bio.attr == rqs[r].attr
      modifies this
      ensures Valid() && Pending(rqs) == if fits then Pending(old(rqs)) + {bio.id} else Pending(old(rqs))
    {
      BackArmKeeps(bucketOf, Abs(), r, bio, next, fitsNext);
      RefusedKeeps(bucketOf, Abs(), r);
      BackMergeArm(r, bio, fits, next, fitsNext);
    }

    /** The front-merge arm in a right state. */
    method TakeFront(r: nat, bio: Bio, fits: bool, prev: Option<nat>, fitsPrev: bool)
      requires Valid() && bio.id !in Pending(rqs) && r in rqs && (prev.Some? ==> prev.value in rqs && prev.value != r)
      requires Mergeable(rqs[r]) && bio.sector + bio.sectors == rqs[r].sector && bio.attr == rqs[r].attr
      modifies this
      ensures Valid() && Pending(rqs) == if fits then Pending(old(rqs)) + {bio.id} else Pending(old(rqs))
    {
      FrontArmKeeps(bucketOf, Abs(), r, bio, prev, fitsPrev);
      RefusedKeeps(bucketOf, Abs(), r);
      FrontMergeArm(r, bio, fits, prev, fitsPrev);
    }

    /** elv_insert at ELEVATOR_INSERT_SORT, up to the scheduler's part. */
    method InsertSort(r: nat, rq: Rq)
      requires bucketOf(Key(rq)) < |hash| && !OnHash(hash, r)
      modifies this
      ensures Abs() == Inserted(bucketOf, old(Abs()), r, rq)
    {
      rqs, nrSorted := rqs[r := rq], nrSorted + 1;
      if Mergeable(rq) {
        HashAdd(r);
        if lastMerge.None? {
          lastMerge := Some(r);
        }
      }
    }

    /** elv_dispatch_sort and elv_dispatch_add_tail, up to the dispatch list. */
    method Dispatch(r: nat)
      requires r in rqs
      modifies this
      ensures Abs() == Dispatched(old(Abs()), r)
    {
      if lastMerge == Some(r) {
        lastMerge := None;
      }
      HashDel(r);
      rqs, nrSorted := rqs - {r}, nrSorted - 1;
    }
  }
}
