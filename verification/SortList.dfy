/**
 The sector-sorted lists that schedulers keep: a red-black tree of requests is modelled as the
 sequence of its requests in sector order, in which no two requests start at the same sector.
 */
module SortList {
  import opened Options

  /**
   A request as the schedulers see it: stamp orders arrivals (expiry or start time), queue is the cfq queue it
   belongs to.
   */
  datatype Rq = Rq(sector: nat, sectors: nat, write: bool, stamp: nat, queue: nat, sync: bool, meta: bool)

  function IndexOf(s: seq<nat>, r: nat): (i: nat)
    requires r in s
    ensures i < |s| && s[i] == r && r !in s[..i]
  {
    if s[0] == r then 0 else 1 + IndexOf(s[1..], r)
  }

  function Remove(s: seq<nat>, r: nat): seq<nat>
    requires r in s
  {
    var i := IndexOf(s, r);
    s[..i] + s[i + 1..]
  }

  ghost predicate NoDup(s: seq<nat>) {
    forall i, j :: 0 <= i < j < |s| ==> s[i] != s[j]
  }

  lemma RemoveKeeps(s: seq<nat>, r: nat)
    requires r in s && NoDup(s)
    ensures NoDup(Remove(s, r)) && forall x :: x in Remove(s, r) <==> x in s && x != r
  {
  }

  /** The requests are in the order of their sectors, without a repetition. */
  ghost predicate Sorted(rqs: map<nat, Rq>, s: seq<nat>) {
    && (forall i :: 0 <= i < |s| ==> s[i] in rqs)
    && (forall i, j :: 0 <= i < j < |s| ==> rqs[s[i]].sector < rqs[s[j]].sector)
  }

  function SectorOf(rqs: map<nat, Rq>, r: nat): nat {
    if r in rqs then rqs[r].sector else 0
  }

  /** The number of requests before sector: the place elv_rb_add finds. */
  function Place(rqs: map<nat, Rq>, s: seq<nat>, sector: nat): (i: nat)
    ensures i <= |s| && (forall k :: 0 <= k < i ==> SectorOf(rqs, s[k]) < sector)
    ensures (i < |s| ==> SectorOf(rqs, s[i]) >= sector)
  {
    if s == [] || SectorOf(rqs, s[0]) >= sector then 0 else 1 + Place(rqs, s[1..], sector)
  }

  /** The request at this sector, if there is one. */
  function Alias(rqs: map<nat, Rq>, s: seq<nat>, sector: nat): (a: Option<nat>)
    ensures a.Some? ==> a.value in s
  {
    var i := Place(rqs, s, sector);
    if i < |s| && SectorOf(rqs, s[i]) == sector then Some(s[i]) else None
  }

  function Insert(s: seq<nat>, i: nat, r: nat): seq<nat>
    requires i <= |s|
  {
    s[..i] + [r] + s[i..]
  }

  /** The alias is the only request at its sector. */
  lemma AliasExact(rqs: map<nat, Rq>, s: seq<nat>, sector: nat)
    requires Sorted(rqs, s)
    ensures Alias(rqs, s, sector).None? <==> forall r :: r in s ==> rqs[r].sector != sector
    ensures Alias(rqs, s, sector).Some? ==> rqs[Alias(rqs, s, sector).value].sector == sector
  {
  }

  lemma SortedRemoves(rqs: map<nat, Rq>, s: seq<nat>, r: nat)
    requires Sorted(rqs, s) && r in s
    ensures Sorted(rqs - {r}, Remove(s, r)) && NoDup(s) && forall x :: x in Remove(s, r) <==> x in s && x != r
    ensures r !in Remove(s, r)
  {
  }

  /** Requests outside the list do not matter. */
  lemma SortedElsewhere(rqs: map<nat, Rq>, s: seq<nat>, r: nat, rq: Rq)
    requires Sorted(rqs - {r}, s)
    ensures Sorted(rqs[r := rq], s)
  {
  }

  lemma InsertHas(s: seq<nat>, i: nat, r: nat)
    requires i <= |s|
    ensures forall x :: x in Insert(s, i, r) <==> x in s || x == r
  {
  }

  lemma {:induction false} LaterIsAfter(rqs: map<nat, Rq>, s: seq<nat>, sector: nat, k: nat)
    requires Sorted(rqs, s) && Alias(rqs, s, sector).None? && Place(rqs, s, sector) <= k < |s|
    ensures sector < rqs[s[k]].sector
  {
  }

  lemma InsertAt(s: seq<nat>, i: nat, r: nat, k: nat)
    requires i <= |s| && k <= |s|
    ensures Insert(s, i, r)[k] == if k < i then s[k] else if k == i then r else s[k - 1]
  {
  }

  lemma {:induction false} InsertedInOrder(rqs: map<nat, Rq>, s: seq<nat>, r: nat, j: nat, k: nat)
    requires Sorted(rqs, s) && r in rqs && Alias(rqs, s, rqs[r].sector).None? && j < k <= |s|
    ensures var t := Insert(s, Place(rqs, s, rqs[r].sector), r);
      t[j] in rqs && t[k] in rqs && rqs[t[j]].sector < rqs[t[k]].sector
  {
    var i := Place(rqs, s, rqs[r].sector);
    InsertAt(s, i, r, j);
    InsertAt(s, i, r, k);
    if j == i {
      LaterIsAfter(rqs, s, rqs[r].sector, k - 1);
    }
  }

  lemma {:induction false} SortedInserts(rqs: map<nat, Rq>, s: seq<nat>, r: nat)
    requires Sorted(rqs, s) && r in rqs && Alias(rqs, s, rqs[r].sector).None?
    ensures Sorted(rqs, Insert(s, Place(rqs, s, rqs[r].sector), r))
  {
    var t := Insert(s, Place(rqs, s, rqs[r].sector), r);
    forall k | 0 <= k < |t| ensures t[k] in rqs {
      InsertAt(s, Place(rqs, s, rqs[r].sector), r, k);
    }
    forall j, k | 0 <= j < k < |t| ensures rqs[t[j]].sector < rqs[t[k]].sector {
      InsertedInOrder(rqs, s, r, j, k);
    }
  }

  /** The request after r: rb_next. */
  function Latter(s: seq<nat>, r: nat): Option<nat>
    requires r in s
  {
    var i := IndexOf(s, r);
    if i + 1 < |s| then Some(s[i + 1]) else None
  }

  lemma LatterIsOther(rqs: map<nat, Rq>, s: seq<nat>, r: nat)
    requires Sorted(rqs, s) && r in s
    ensures Latter(s, r).Some? ==> Latter(s, r).value in s && Latter(s, r).value != r
  {
  }

  lemma InsertNoDup(s: seq<nat>, i: nat, r: nat)
    requires i <= |s| && NoDup(s) && r !in s
    ensures NoDup(Insert(s, i, r))
  {
  }

  lemma EvictedOnce(rqs: map<nat, Rq>, s: seq<nat>, a: nat, sector: nat)
    requires Sorted(rqs, s) && a in s && rqs[a].sector == sector
    ensures Alias(rqs - {a}, Remove(s, a), sector).None?
  {
  }

  /** The request after r is the nearest one above it: nothing lies between, and none is missing. */
  lemma LatterIsNearest(rqs: map<nat, Rq>, s: seq<nat>, r: nat, x: nat)
    requires Sorted(rqs, s) && r in s && x in s && rqs[r].sector < rqs[x].sector
    ensures Latter(s, r).Some? && rqs[r].sector < rqs[Latter(s, r).value].sector <= rqs[x].sector
  {
  }

  /** The arrival list when next's bios join r: r takes next's place if that is more urgent. */
  function MergedFifo(fifo: seq<nat>, r: nat, next: nat, urgent: bool): seq<nat>
    requires r in fifo && next in fifo && r != next
  {
    var f := Remove(fifo, r);
    if urgent && next in f then var i := IndexOf(f, next); f[..i + 1] + [r] + f[i + 1..] else fifo
  }

  lemma MergedFifoKeeps(fifo: seq<nat>, r: nat, next: nat, urgent: bool)
    requires NoDup(fifo) && r in fifo && next in fifo && r != next
    ensures NoDup(MergedFifo(fifo, r, next, urgent)) && forall x :: x in MergedFifo(fifo, r, next, urgent) <==>
      x in fifo
  {
    RemoveKeeps(fifo, r);
    var f := Remove(fifo, r);
    if urgent {
      var i := IndexOf(f, next);
      InsertNoDup(f, i + 1, r);
      InsertHas(f, i + 1, r);
      assert MergedFifo(fifo, r, next, urgent) == Insert(f, i + 1, r);
    }
  }

  // ----- Arrival lists in the order of their stamps

  function StampOf(rqs: map<nat, Rq>, r: nat): nat {
    if r in rqs then rqs[r].stamp else 0
  }

  /** The requests of an arrival list are in the order of their stamps. */
  ghost predicate InTime(rqs: map<nat, Rq>, s: seq<nat>) {
    forall i, j :: 0 <= i < j < |s| ==> StampOf(rqs, s[i]) <= StampOf(rqs, s[j])
  }

  lemma InTimeElsewhere(rqs: map<nat, Rq>, rqs': map<nat, Rq>, s: seq<nat>)
    requires InTime(rqs, s) && forall x :: x in s ==> StampOf(rqs', x) == StampOf(rqs, x)
    ensures InTime(rqs', s)
  {
  }

  lemma InTimeRemoves(rqs: map<nat, Rq>, s: seq<nat>, r: nat)
    requires InTime(rqs, s) && r in s
    ensures InTime(rqs, Remove(s, r))
  {
  }

  lemma InTimeAppends(rqs: map<nat, Rq>, s: seq<nat>, r: nat)
    requires InTime(rqs, s) && forall x :: x in s ==> StampOf(rqs, x) <= StampOf(rqs, r)
    ensures InTime(rqs, s + [r])
  {
  }

  lemma RemovedAt(s: seq<nat>, r: nat, k: nat)
    requires r in s && k < |s| - 1
    ensures |Remove(s, r)| == |s| - 1 && Remove(s, r)[k] == s[if k < IndexOf(s, r) then k else k + 1]
  {
  }

  /** Nothing that stands between next and r is later than next. */
  ghost predicate NoneLater(rqs: map<nat, Rq>, s: seq<nat>, r: nat, next: nat)
    requires r in s && next in s
  {
    forall k :: IndexOf(s, next) < k < IndexOf(s, r) ==> StampOf(rqs, s[k]) <= StampOf(rqs, next)
  }

  /** The stamps after r has taken over the earlier one of r's and next's. */
  ghost predicate EarlierTaken(rqs: map<nat, Rq>, rqs': map<nat, Rq>, s: seq<nat>, r: nat, next: nat) {
    && (forall x :: x in s && x != r && x != next ==> StampOf(rqs', x) == StampOf(rqs, x))
    && StampOf(rqs', r) == Earlier(StampOf(rqs, r), StampOf(rqs, next))
  }

  function Earlier(a: nat, b: nat): nat {
    if b < a then b else a
  }

  /**
   When r takes over next's stamp but not its place, the list stays in order exactly if nothing between them is
   later.
   */
  lemma JoinedInTime(rqs: map<nat, Rq>, rqs': map<nat, Rq>, s: seq<nat>, r: nat, next: nat)
    requires InTime(rqs, s) && NoDup(s) && r in s && next in s && r != next && EarlierTaken(rqs, rqs', s, r, next)
    ensures InTime(rqs', Remove(s, next)) <==> NoneLater(rqs, s, r, next)
  {
    var t, i, j := Remove(s, next), IndexOf(s, r), IndexOf(s, next);
    if NoneLater(rqs, s, r, next) {
      forall a, b | 0 <= a < b < |t| ensures StampOf(rqs', t[a]) <= StampOf(rqs', t[b]) {
        JoinedPair(rqs, rqs', s, r, next, a, b);
      }
    }
    if InTime(rqs', t) {
      forall k | j < k < i ensures StampOf(rqs, s[k]) <= StampOf(rqs, next) {
        BetweenIsEarlier(rqs, rqs', s, r, next, k);
      }
    }
  }

  lemma BetweenIsEarlier(rqs: map<nat, Rq>, rqs': map<nat, Rq>, s: seq<nat>, r: nat, next: nat, k: nat)
    requires NoDup(s) && r in s && next in s && r != next && EarlierTaken(rqs, rqs', s, r, next)
    requires InTime(rqs', Remove(s, next)) && IndexOf(s, next) < k < IndexOf(s, r)
    ensures StampOf(rqs, s[k]) <= StampOf(rqs, next)
  {
    var t, i := Remove(s, next), IndexOf(s, r);
    RemovedAt(s, next, k - 1);
    RemovedAt(s, next, i - 1);
    assert s[k] != r && s[k] != next;
    assert StampOf(rqs', t[k - 1]) <= StampOf(rqs', t[i - 1]);
  }

  lemma JoinedPair(rqs: map<nat, Rq>, rqs': map<nat, Rq>, s: seq<nat>, r: nat, next: nat, a: nat, b: nat)
    requires InTime(rqs, s) && NoDup(s) && r in s && next in s && r != next && EarlierTaken(rqs, rqs', s, r, next)
    requires NoneLater(rqs, s, r, next) && a < b < |s| - 1
    ensures |Remove(s, next)| == |s| - 1 && StampOf(rqs', Remove(s, next)[a]) <= StampOf(rqs', Remove(s, next)[b])
  {
    RemovedAt(s, next, a);
    RemovedAt(s, next, b);
    var j := IndexOf(s, next);
    var a', b' := if a < j then a else a + 1, if b < j then b else b + 1;
    assert s[a'] != next && s[b'] != next && s[a'] != s[b'];
    assert StampOf(rqs, s[a']) <= StampOf(rqs, s[b']);
    if s[b'] == r {
      assert b' == IndexOf(s, r);
      assert StampOf(rqs, s[a']) <= StampOf(rqs, next);
    }
  }

  /** When r takes over next's place as well as its stamp, the list always stays in order. */
  lemma MovedInTime(rqs: map<nat, Rq>, rqs': map<nat, Rq>, s: seq<nat>, r: nat, next: nat)
    requires InTime(rqs, s) && NoDup(s) && r in s && next in s && r != next && EarlierTaken(rqs, rqs', s, r, next)
    ensures next in MergedFifo(s, r, next, StampOf(rqs, next) < StampOf(rqs, r))
    ensures InTime(rqs', Remove(MergedFifo(s, r, next, StampOf(rqs, next) < StampOf(rqs, r)), next))
  {
    var urgent := StampOf(rqs, next) < StampOf(rqs, r);
    MergedFifoKeeps(s, r, next, urgent);
    if urgent {
      RemoveKeeps(s, r);
      InTimeRemoves(rqs, s, r);
      InTakenPlace(rqs, rqs', Remove(s, r), r, next);
    } else {
      assert IndexOf(s, r) < IndexOf(s, next) || StampOf(rqs, next) == StampOf(rqs, r);
      JoinedInTime(rqs, rqs', s, r, next);
    }
  }

  lemma InTakenPlace(rqs: map<nat, Rq>, rqs': map<nat, Rq>, f: seq<nat>, r: nat, next: nat)
    requires InTime(rqs, f) && NoDup(f) && next in f && r !in f && StampOf(rqs', r) == StampOf(rqs, next)
    requires forall x :: x in f && x != next ==> StampOf(rqs', x) == StampOf(rqs, x)
    ensures var i := IndexOf(f, next); var t := Insert(f, i + 1, r); next in t && InTime(rqs', Remove(t, next))
  {
    PlaceTaken(f, r, next);
    InTimeReplaced(rqs, rqs', f, IndexOf(f, next), r);
  }

  /** Behind next, and next taken out: in next's place. */
  lemma PlaceTaken(f: seq<nat>, r: nat, next: nat)
    requires NoDup(f) && next in f && r != next
    ensures var t := Insert(f, IndexOf(f, next) + 1, r); next in t && Remove(t, next) == f[IndexOf(f, next) := r]
  {
    var i := IndexOf(f, next);
    var t := Insert(f, i + 1, r);
    InsertAt(f, i + 1, r, i);
    forall k | 0 <= k < i ensures t[k] != next {
      InsertAt(f, i + 1, r, k);
    }
    FirstIs(t, next, i);
    assert t[..i] == f[..i] && t[i + 1..] == [r] + f[i + 1..];
    assert f[i := r] == f[..i] + ([r] + f[i + 1..]);
  }

  lemma FirstIs(t: seq<nat>, x: nat, i: nat)
    requires i < |t| && t[i] == x && forall k :: 0 <= k < i ==> t[k] != x
    ensures IndexOf(t, x) == i
  {
  }

  lemma InTimeReplaced(rqs: map<nat, Rq>, rqs': map<nat, Rq>, f: seq<nat>, i: nat, r: nat)
    requires InTime(rqs, f) && NoDup(f) && i < |f| && r !in f && StampOf(rqs', r) == StampOf(rqs, f[i])
    requires forall x :: x in f && x != f[i] ==> StampOf(rqs', x) == StampOf(rqs, x)
    ensures InTime(rqs', f[i := r])
  {
  }

  // ----- Counting queued requests

  lemma CountAdded(rqs: map<nat, Rq>, r: nat, rq: Rq)
    ensures |rqs[r := rq]| == |rqs| + if r in rqs then 0 else 1
  {
  }

  lemma CountRemoved(rqs: map<nat, Rq>, r: nat)
    requires r in rqs
    ensures |rqs - {r}| == |rqs| - 1
  {
  }
}
