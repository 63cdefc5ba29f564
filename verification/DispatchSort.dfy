/** elv_dispatch_sort: a request is sorted into the dispatch list by a scan from its tail. */
module DispatchSort {

  /** barrier stands for REQ_SOFTBARRIER or REQ_HARDBARRIER, started for REQ_STARTED. */
  datatype Rq = Rq(id: nat, sector: nat, sectors: nat, write: bool, discard: bool, barrier: bool, started: bool) {
    /** No request is sorted in front of it. */
    predicate Held() {
      barrier || started
    }

    /** rq_end_sector. */
    function End(): nat {
      sector + sectors
    }
  }

  /** The two requests may be sorted among each other: same kind and direction, and pos not held in place. */
  predicate Free(rq: Rq, pos: Rq) {
    rq.discard == pos.discard && rq.write == pos.write && !pos.Held()
  }

  /** The tail of the list that rq may be sorted into: the place behind the last request it may not pass. */
  function Barrier(queue: seq<Rq>, rq: Rq): (k: nat)
    ensures k <= |queue| && (forall i :: k <= i < |queue| ==> Free(rq, queue[i])) && (k > 0 ==> !Free(rq, queue[k - 1]))
  {
    if queue == [] || !Free(rq, queue[|queue| - 1]) then |queue| else Barrier(queue[..|queue| - 1], rq)
  }

  /** One-way elevator order from boundary: upward from it, then upward from the lowest sector. */
  predicate Before(boundary: nat, a: Rq, b: Rq) {
    if a.sector >= boundary then b.sector < boundary || a.sector <= b.sector
    else b.sector < boundary && a.sector <= b.sector
  }

  /** The part of the list from k on is in that order. */
  ghost predicate Elevated(boundary: nat, s: seq<Rq>, k: nat) {
    forall i, j :: k <= i < j < |s| ==> Before(boundary, s[i], s[j])
  }

  /** The scan goes past pos. */
  predicate Passes(boundary: nat, rq: Rq, pos: Rq) {
    Free(rq, pos) && !Before(boundary, pos, rq)
  }

  /** Where the scan stops. */
  function Place(boundary: nat, queue: seq<Rq>, rq: Rq): (i: nat)
    ensures Barrier(queue, rq) <= i <= |queue|
    ensures (forall j :: i <= j < |queue| ==> Passes(boundary, rq, queue[j]))
    ensures (i > 0 ==> !Passes(boundary, rq, queue[i - 1]))
  {
    if queue == [] || !Passes(boundary, rq, queue[|queue| - 1]) then |queue|
    else Place(boundary, queue[..|queue| - 1], rq)
  }

  function Sorted(boundary: nat, queue: seq<Rq>, rq: Rq): seq<Rq> {
    Insert(queue, Place(boundary, queue, rq), rq)
  }

  function Insert(s: seq<Rq>, i: nat, rq: Rq): seq<Rq>
    requires i <= |s|
  {
    s[..i] + [rq] + s[i..]
  }

  lemma InsertAt(s: seq<Rq>, i: nat, rq: Rq, j: nat)
    requires i <= |s| && j <= |s|
    ensures Insert(s, i, rq)[j] == if j < i then s[j] else if j == i then rq else s[j - 1]
  {
  }

  /** Everything in the tail before the place comes before rq in elevator order, everything behind it after. */
  lemma {:induction false} PlaceSplits(boundary: nat, queue: seq<Rq>, rq: Rq, j: nat)
    requires Elevated(boundary, queue, Barrier(queue, rq)) && Barrier(queue, rq) <= j < |queue|
    ensures if j < Place(boundary, queue, rq) then Before(boundary, queue[j], rq) else Before(boundary, rq, queue[j])
  {
  }

  lemma {:induction false} SortedBefore(boundary: nat, queue: seq<Rq>, rq: Rq, a: nat, b: nat)
    requires Elevated(boundary, queue, Barrier(queue, rq)) && Barrier(queue, rq) <= a < b <= |queue|
    ensures Before(boundary, Sorted(boundary, queue, rq)[a], Sorted(boundary, queue, rq)[b])
  {
    var i := Place(boundary, queue, rq);
    InsertAt(queue, i, rq, a);
    InsertAt(queue, i, rq, b);
    if a == i {
      PlaceSplits(boundary, queue, rq, b - 1);
    } else if b == i {
      PlaceSplits(boundary, queue, rq, a);
    }
  }

  lemma {:induction false} QueueBefore(boundary: nat, queue: seq<Rq>, rq: Rq, a: nat, b: nat)
    requires Elevated(boundary, Sorted(boundary, queue, rq), Barrier(queue, rq))
    requires Barrier(queue, rq) <= a < b < |queue|
    ensures Before(boundary, queue[a], queue[b])
  {
    var i := Place(boundary, queue, rq);
    InsertAt(queue, i, rq, if a < i then a else a + 1);
    InsertAt(queue, i, rq, if b < i then b else b + 1);
  }

  /** The tail is in elevator order after the insertion exactly if it was before; the requests in front of it stay. */
  lemma {:induction false} TailStaysElevated(boundary: nat, queue: seq<Rq>, rq: Rq)
    ensures var k := Barrier(queue, rq);
      var after := Sorted(boundary, queue, rq);
      after[..k] == queue[..k] && (Elevated(boundary, after, k) <==> Elevated(boundary, queue, k))
  {
    var k, after := Barrier(queue, rq), Sorted(boundary, queue, rq);
    if Elevated(boundary, queue, k) {
      forall a, b | k <= a < b < |after| ensures Before(boundary, after[a], after[b]) {
        SortedBefore(boundary, queue, rq, a, b);
      }
    }
    if Elevated(boundary, after, k) {
      forall a, b | k <= a < b < |queue| ensures Before(boundary, queue[a], queue[b]) {
        QueueBefore(boundary, queue, rq, a, b);
      }
    }
  }

  /** No request held in place, or of another kind or direction, gets behind rq; nothing else moves. */
  lemma {:induction false} NeverPassesBarrier(boundary: nat, queue: seq<Rq>, rq: Rq, j: nat)
    requires j < |queue| && !Free(rq, queue[j])
    ensures j < Place(boundary, queue, rq) && Sorted(boundary, queue, rq)[j] == queue[j]
    ensures var i := Place(boundary, queue, rq);
      Sorted(boundary, queue, rq)[..i] + Sorted(boundary, queue, rq)[i + 1..] == queue
  {
  }

  // ----- Another boundary

  /** The sector lies in the half-open range between the two boundaries. */
  predicate Between(b: nat, c: nat, sector: nat) {
    if b <= c then b <= sector < c else c <= sector < b
  }

  /** Of the requests from k on, either none or all lie between the boundaries. */
  ghost predicate SameSide(b: nat, c: nat, s: seq<Rq>, k: nat) {
    || (forall i :: k <= i < |s| ==> !Between(b, c, s[i].sector))
    || (forall i :: k <= i < |s| ==> Between(b, c, s[i].sector))
  }

  lemma BeforeFromOther(b: nat, c: nat, x: Rq, y: Rq)
    requires Before(b, x, y)
    ensures Before(c, x, y) <==> (Between(b, c, x.sector) <==> Between(b, c, y.sector))
  {
  }

  /** A tail in elevator order from b is so from c exactly if none or all of its requests lie between b and c. */
  lemma ElevatedFromOther(b: nat, c: nat, s: seq<Rq>, k: nat)
    requires Elevated(b, s, k)
    ensures Elevated(c, s, k) <==> SameSide(b, c, s, k)
  {
    forall i, j | k <= i < j < |s|
      ensures Before(c, s[i], s[j]) <==> (Between(b, c, s[i].sector) <==> Between(b, c, s[j].sector))
    {
      BeforeFromOther(b, c, s[i], s[j]);
    }
    if Elevated(c, s, k) && k < |s| {
      forall i | k < i < |s| ensures Between(b, c, s[k].sector) <==> Between(b, c, s[i].sector) {
        assert Before(c, s[k], s[i]);
      }
    }
  }

  // ----- The whole list

  /** What a request of any kind may be sorted into is in elevator order. */
  ghost predicate AllElevated(boundary: nat, queue: seq<Rq>) {
    forall x :: Elevated(boundary, queue, Barrier(queue, x))
  }

  lemma BarrierIs(queue: seq<Rq>, x: Rq, k: nat)
    requires k <= |queue| && (forall i :: k <= i < |queue| ==> Free(x, queue[i])) && (k > 0 ==> !Free(x, queue[k - 1]))
    ensures Barrier(queue, x) == k
  {
  }

  lemma SortInKeeps(boundary: nat, queue: seq<Rq>, rq: Rq, x: Rq)
    requires AllElevated(boundary, queue)
    ensures Elevated(boundary, Sorted(boundary, queue, rq), Barrier(Sorted(boundary, queue, rq), x))
  {
    var i, after := Place(boundary, queue, rq), Sorted(boundary, queue, rq);
    var k := Barrier(after, x);
    TailStaysElevated(boundary, queue, rq);
    assert after[i] == rq && forall j :: i < j < |after| ==> after[j] == queue[j - 1];
    if Free(x, rq) {
      SameKindBarrier(boundary, queue, rq, x);
    } else {
      assert k > i;
      assert Elevated(boundary, after, Barrier(queue, rq));
    }
  }

  lemma SameKindBarrier(boundary: nat, queue: seq<Rq>, rq: Rq, x: Rq)
    requires Free(x, rq)
    ensures Barrier(Sorted(boundary, queue, rq), x) == Barrier(queue, rq)
  {
    var i, k, after := Place(boundary, queue, rq), Barrier(queue, rq), Sorted(boundary, queue, rq);
    forall j | k <= j < |after| ensures Free(x, after[j]) {
      InsertAt(queue, i, rq, j);
    }
    if k > 0 {
      InsertAt(queue, i, rq, k - 1);
    }
    BarrierIs(after, x, k);
  }

  lemma BarrierAtMost(queue: seq<Rq>, x: Rq, k: nat)
    requires forall i :: k <= i < |queue| ==> Free(x, queue[i])
    ensures Barrier(queue, x) <= k
  {
  }
}
