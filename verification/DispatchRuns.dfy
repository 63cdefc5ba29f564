/**
 The dispatch list over runs, with end_sector and boundary_rq as they move: fetching a request, adding one at the
 tail and submitting a barrier each may set end_sector, and the list is in elevator order exactly while they keep to
 one side.
 */
module DispatchRuns {
  import opened Options
  import opened DispatchSort
  import opened Runs

  /** queue_head, end_sector and boundary_rq. */
  datatype List = List(queue: seq<Rq>, endSector: nat, boundaryRq: Option<nat>)

  /**
   SortIn: elv_dispatch_sort. AddTail: elv_dispatch_add_tail. Bound: a barrier enters __elv_add_request. PutHeld:
   elv_insert at the front, at the back or for a requeue, which sets REQ_SOFTBARRIER. Fetch: elv_next_request. Take:
   elv_dequeue_request.
   */
  datatype Step =
    | SortIn(rq: Rq)
    | AddTail(rq: Rq)
    | Bound(rq: Rq)
    | PutHeld(p: nat, rq: Rq)
    | Fetch
    | Take(k: nat)

  ghost predicate Enabled(s: List, step: Step) {
    match step
    case SortIn(rq) => !rq.started
    case AddTail(rq) => !rq.started
    case Bound(_) => true
    case PutHeld(p, rq) => p <= |s.queue| && rq.barrier && !rq.started
    case Fetch => s.queue != []
    case Take(k) => k < |s.queue| && s.queue[k].started
  }

  /** The list with its head started. */
  function HeadStarted(queue: seq<Rq>): seq<Rq>
    requires queue != []
  {
    queue[0 := queue[0].(started := true)]
  }

  /** A fetch of the head sets end_sector. */
  predicate FetchBounds(s: List)
    requires s.queue != []
  {
    s.boundaryRq == None || s.boundaryRq == Some(s.queue[0].id)
  }

  function Fetched(s: List): List
    requires s.queue != []
  {
    var queue := HeadStarted(s.queue);
    if FetchBounds(s) then List(queue, s.queue[0].End(), None) else s.(queue := queue)
  }

  function Next(s: List, step: Step): List {
    match step
    case SortIn(rq) => s.(queue := Sorted(s.endSector, s.queue, rq))
    case AddTail(rq) => List(s.queue + [rq], rq.End(), Some(rq.id))
    case Bound(rq) => s.(endSector := rq.End(), boundaryRq := Some(rq.id))
    case PutHeld(p, rq) => if p <= |s.queue| then s.(queue := Insert(s.queue, p, rq)) else s
    case Fetch => if s.queue != [] then Fetched(s) else s
    case Take(k) => if k < |s.queue| then s.(queue := s.queue[..k] + s.queue[k + 1..]) else s
  }

  // ----- What stands ahead of a started request is held in place

  ghost predicate HeldAhead(queue: seq<Rq>) {
    forall i, j :: 0 <= i < j < |queue| && queue[j].started ==> queue[i].Held()
  }

  lemma InsertHeldAhead(queue: seq<Rq>, p: nat, rq: Rq)
    requires HeldAhead(queue) && p <= |queue| && !rq.started
    requires rq.Held() || forall j :: p <= j < |queue| ==> !queue[j].started
    ensures HeldAhead(Insert(queue, p, rq))
  {
    var after := Insert(queue, p, rq);
    forall i, j | 0 <= i < j < |after| && after[j].started ensures after[i].Held() {
      InsertAt(queue, p, rq, i);
      InsertAt(queue, p, rq, j);
    }
  }

  lemma StepHeldAhead(s: List, step: Step)
    requires HeldAhead(s.queue) && Enabled(s, step)
    ensures HeldAhead(Next(s, step).queue)
  {
    match step
    case SortIn(rq) => InsertHeldAhead(s.queue, Place(s.endSector, s.queue, rq), rq);
    case AddTail(_) =>
    case Bound(_) =>
    case PutHeld(p, rq) => InsertHeldAhead(s.queue, p, rq);
    case Fetch =>
    case Take(_) =>
  }

  // ----- Changing the boundary

  /** No tail of the list has requests on both sides of the change from b to c. */
  ghost predicate AllSameSide(b: nat, c: nat, queue: seq<Rq>) {
    forall x :: SameSide(b, c, queue, Barrier(queue, x))
  }

  /** A list in elevator order from b is so from c exactly if every tail lies on one side of the change. */
  lemma AllElevatedFromOther(b: nat, c: nat, queue: seq<Rq>)
    requires AllElevated(b, queue)
    ensures AllElevated(c, queue) <==> AllSameSide(b, c, queue)
  {
    forall x ensures Elevated(c, queue, Barrier(queue, x)) <==> SameSide(b, c, queue, Barrier(queue, x)) {
      ElevatedFromOther(b, c, queue, Barrier(queue, x));
    }
  }

  // ----- Each step

  lemma SortInKeepsAll(b: nat, queue: seq<Rq>, rq: Rq)
    requires AllElevated(b, queue)
    ensures AllElevated(b, Sorted(b, queue, rq))
  {
    forall x ensures Elevated(b, Sorted(b, queue, rq), Barrier(Sorted(b, queue, rq), x)) {
      SortInKeeps(b, queue, rq, x);
    }
  }

  /** Nothing in the tail that rq joins starts inside it; a request without sectors joins only those at its sector. */
  ghost predicate FollowsAll(rq: Rq, queue: seq<Rq>) {
    forall i :: Barrier(queue, rq) <= i < |queue| ==> Follows(rq, queue[i])
  }

  predicate Follows(rq: Rq, pos: Rq) {
    if rq.sectors > 0 then !(rq.sector < pos.sector < rq.End()) else pos.sector == rq.sector
  }

  /** A request at the tail is held, or its tail lies on one side of the change to its end and has nothing inside it. */
  ghost predicate TailFits(b: nat, queue: seq<Rq>, rq: Rq) {
    rq.Held() || (SameSide(b, rq.End(), queue, Barrier(queue, rq)) && FollowsAll(rq, queue))
  }

  lemma AppendedBarrier(queue: seq<Rq>, rq: Rq, x: Rq)
    ensures Barrier(queue + [rq], x) == if Free(x, rq) then Barrier(queue, rq) else |queue| + 1
  {
    var after := queue + [rq];
    if Free(x, rq) {
      BarrierIs(after, x, Barrier(queue, rq));
    }
  }

  lemma AppendedElevated(c: nat, queue: seq<Rq>, k: nat, rq: Rq)
    requires c == rq.End() && k <= |queue|
    ensures Elevated(c, queue + [rq], k) <==>
      Elevated(c, queue, k) && forall i :: k <= i < |queue| ==> Follows(rq, queue[i])
  {
    var after := queue + [rq];
    if Elevated(c, after, k) {
      forall i, j | k <= i < j < |queue| ensures Before(c, queue[i], queue[j]) {
        assert Before(c, after[i], after[j]);
      }
      forall i | k <= i < |queue| ensures Follows(rq, queue[i]) {
        assert Before(c, after[i], after[|queue|]);
      }
    }
  }

  lemma AddTailExactly(b: nat, queue: seq<Rq>, rq: Rq)
    requires AllElevated(b, queue)
    ensures AllElevated(rq.End(), queue + [rq]) <==> TailFits(b, queue, rq)
  {
    var after, c, k := queue + [rq], rq.End(), Barrier(queue, rq);
    forall x ensures Elevated(c, after, Barrier(after, x)) <==> (Free(x, rq) ==> Elevated(c, after, k)) {
      AppendedBarrier(queue, rq, x);
    }
    AppendedElevated(c, queue, k, rq);
    ElevatedFromOther(b, c, queue, k);
    assert !rq.Held() ==> Free(rq, rq);
    if AllElevated(c, after) && !rq.Held() {
      assert Elevated(c, after, Barrier(after, rq));
    }
  }

  lemma PutHeldKeeps(b: nat, queue: seq<Rq>, p: nat, rq: Rq)
    requires AllElevated(b, queue) && p <= |queue| && rq.Held()
    ensures AllElevated(b, Insert(queue, p, rq))
  {
    var after := Insert(queue, p, rq);
    forall x ensures Elevated(b, after, Barrier(after, x)) {
      var k := Barrier(after, x);
      InsertAt(queue, p, rq, p);
      assert k > p;
      forall i | k - 1 <= i < |queue| ensures Free(x, queue[i]) {
        InsertAt(queue, p, rq, i + 1);
      }
      BarrierAtMost(queue, x, k - 1);
      assert Elevated(b, queue, Barrier(queue, x));
    }
  }

  lemma TakeKeeps(b: nat, queue: seq<Rq>, k: nat)
    requires AllElevated(b, queue) && k < |queue| && (k > 0 ==> queue[k - 1].Held())
    ensures AllElevated(b, queue[..k] + queue[k + 1..])
  {
    var after := queue[..k] + queue[k + 1..];
    forall x ensures Elevated(b, after, Barrier(after, x)) {
      var m := Barrier(after, x);
      assert k > 0 ==> after[k - 1] == queue[k - 1];
      assert m >= k;
      forall i | m + 1 <= i < |queue| ensures Free(x, queue[i]) {
        assert queue[i] == after[i - 1];
      }
      BarrierAtMost(queue, x, m + 1);
      assert Elevated(b, queue, Barrier(queue, x));
    }
  }

  lemma HeadStartedKeeps(b: nat, queue: seq<Rq>)
    requires AllElevated(b, queue) && queue != []
    ensures AllElevated(b, HeadStarted(queue))
  {
    var after := HeadStarted(queue);
    forall x ensures Elevated(b, after, Barrier(after, x)) {
      var k := Barrier(after, x);
      assert !Free(x, after[0]);
      assert k > 0;
      forall i | k <= i < |queue| ensures Free(x, queue[i]) {
        assert queue[i] == after[i];
      }
      BarrierAtMost(queue, x, k);
      assert Elevated(b, queue, Barrier(queue, x));
    }
  }

  // ----- Exactly when the order stays

  ghost predicate InOrder(s: List) {
    AllElevated(s.endSector, s.queue)
  }

  /** A change of end_sector, if the step makes one, has no tail on both sides, and a request added at the tail fits. */
  ghost predicate Fine(s: List, step: Step) {
    match step
    case SortIn(_) => true
    case AddTail(rq) => TailFits(s.endSector, s.queue, rq)
    case Bound(rq) => AllSameSide(s.endSector, rq.End(), s.queue)
    case PutHeld(_, _) => true
    case Fetch =>
      s.queue != [] && FetchBounds(s) ==> AllSameSide(s.endSector, s.queue[0].End(), HeadStarted(s.queue))
    case Take(_) => true
  }

  lemma FetchExactly(s: List)
    requires InOrder(s) && s.queue != []
    ensures InOrder(Fetched(s)) <==> Fine(s, Fetch)
  {
    HeadStartedKeeps(s.endSector, s.queue);
    if FetchBounds(s) {
      AllElevatedFromOther(s.endSector, s.queue[0].End(), HeadStarted(s.queue));
    }
  }

  /** A step keeps the list in elevator order exactly if it is fine. */
  lemma StepExactly(s: List, step: Step)
    requires InOrder(s) && HeldAhead(s.queue) && Enabled(s, step)
    ensures InOrder(Next(s, step)) <==> Fine(s, step)
  {
    match step
    case SortIn(rq) => SortInKeepsAll(s.endSector, s.queue, rq);
    case AddTail(rq) => AddTailExactly(s.endSector, s.queue, rq);
    case Bound(rq) => AllElevatedFromOther(s.endSector, rq.End(), s.queue);
    case PutHeld(p, rq) => PutHeldKeeps(s.endSector, s.queue, p, rq);
    case Fetch => FetchExactly(s);
    case Take(k) => TakeKeeps(s.endSector, s.queue, k);
  }

  /** Fetching the head of a tail in order keeps the rest in order from the head's end if nothing starts inside it. */
  lemma FetchFollows(b: nat, queue: seq<Rq>)
    requires queue != [] && Elevated(b, queue, 0)
    requires forall i :: 0 < i < |queue| ==> !(queue[0].sector <= queue[i].sector < queue[0].End())
    ensures Elevated(queue[0].End(), queue, 1)
  {
    var c := queue[0].End();
    forall i, j | 1 <= i < j < |queue| ensures Before(c, queue[i], queue[j]) {
      assert Before(b, queue[0], queue[i]) && Before(b, queue[0], queue[j]) && Before(b, queue[i], queue[j]);
    }
  }

  // ----- Runs

  /** A run from an empty list. */
  ghost predicate IsRun(states: seq<List>, steps: seq<Step>) {
    && |states| == |steps| + 1 && states[0].queue == [] && states[0].boundaryRq == None
    && forall i {:trigger steps[i]} :: 0 <= i < |steps| ==>
      Enabled(states[i], steps[i]) && states[i + 1] == Next(states[i], steps[i])
  }

  lemma {:induction false} RunHeldAhead(states: seq<List>, steps: seq<Step>, n: nat)
    requires IsRun(states, steps) && n < |states|
    ensures HeldAhead(states[n].queue)
  {
    if n > 0 {
      RunHeldAhead(states, steps, n - 1);
      StepHeldAhead(states[n - 1], steps[n - 1]);
    }
  }

  /**
   Over every run, whatever moves end_sector, the list stays in elevator order behind what may not be passed exactly
   while every step is fine.
   */
  lemma InOrderExactly(states: seq<List>, steps: seq<Step>, n: nat)
    requires IsRun(states, steps) && n < |states|
    ensures (forall i :: 0 <= i <= n ==> InOrder(states[i])) <==>
      (forall i {:trigger steps[i]} :: 0 <= i < n ==> Fine(states[i], steps[i]))
  {
    var good, fine := (s: List) => InOrder(s), (s: List, step: Step) => Fine(s, step);
    forall i {:trigger steps[i]} | 0 <= i < |steps| && good(states[i])
      ensures good(states[i + 1]) <==> fine(states[i], steps[i])
    {
      RunHeldAhead(states, steps, i);
      StepExactly(states[i], steps[i]);
    }
    GoodWhileFine(states, steps, good, fine, n);
    assert GoodUpTo(states, good, n) <==> forall i :: 0 <= i <= n ==> InOrder(states[i]);
  }

  /** A request that the last one in the list does not let pass goes last. */
  lemma GoesLast(b: nat, queue: seq<Rq>, rq: Rq)
    requires queue == [] || !Passes(b, rq, queue[|queue| - 1])
    ensures Sorted(b, queue, rq) == queue + [rq]
  {
  }

  const WRITE := Rq(0, 10, 4, true, false, false, false)
  const LOW_READ := Rq(1, 5, 1, false, false, false, false)
  const HIGH_READ := Rq(2, 20, 1, false, false, false, false)

  /** The write at 10 to 14 is sorted in, then the reads at 5 and 20; then the write is fetched. */
  function LosingSteps(): seq<Step> {
    [SortIn(WRITE), SortIn(LOW_READ), SortIn(HIGH_READ), Fetch]
  }

  function LosingLists(): seq<List> {
    [List([], 0, None), List([WRITE], 0, None), List([WRITE, LOW_READ], 0, None),
     List([WRITE, LOW_READ, HIGH_READ], 0, None), List([WRITE.(started := true), LOW_READ, HIGH_READ], 14, None)]
  }

  lemma SortedLast(queue: seq<Rq>, rq: Rq, after: seq<Rq>)
    requires (queue == [] || !Passes(0, rq, queue[|queue| - 1])) && after == queue + [rq]
    ensures Next(List(queue, 0, None), SortIn(rq)) == List(after, 0, None)
  {
    GoesLast(0, queue, rq);
  }

  lemma WriteFetched()
    ensures Next(List([WRITE, LOW_READ, HIGH_READ], 0, None), Fetch) ==
      List([WRITE.(started := true), LOW_READ, HIGH_READ], 14, None)
  {
    assert HeadStarted([WRITE, LOW_READ, HIGH_READ]) == [WRITE.(started := true), LOW_READ, HIGH_READ];
  }

  lemma LosingIsRun()
    ensures IsRun(LosingLists(), LosingSteps())
  {
    SortedLast([], WRITE, [WRITE]);
    SortedLast([WRITE], LOW_READ, [WRITE, LOW_READ]);
    SortedLast([WRITE, LOW_READ], HIGH_READ, [WRITE, LOW_READ, HIGH_READ]);
    WriteFetched();
    forall i {:trigger LosingSteps()[i]} | 0 <= i < 4
      ensures Enabled(LosingLists()[i], LosingSteps()[i])
      ensures LosingLists()[i + 1] == Next(LosingLists()[i], LosingSteps()[i])
    {
      if i == 0 {} else if i == 1 {} else if i == 2 {} else {}
    }
  }

  lemma LastIsLost()
    ensures !AllElevated(14, [WRITE.(started := true), LOW_READ, HIGH_READ])
  {
    var q := [WRITE.(started := true), LOW_READ, HIGH_READ];
    BarrierIs(q, LOW_READ, 1);
    assert !Before(14, q[1], q[2]);
  }

  /** The order can be lost by an ordinary fetch: it moves end_sector from 0 to 14, between the reads. */
  lemma OrderCanBeLost()
    ensures IsRun(LosingLists(), LosingSteps()) && LosingSteps()[3] == Fetch
    ensures InOrder(LosingLists()[3]) && !InOrder(LosingLists()[4])
  {
    LosingIsRun();
    InOrderExactly(LosingLists(), LosingSteps(), 3);
    LastIsLost();
  }

  // ----- Where end_sector is

  /** Adding at the tail and submitting a barrier set end_sector to the end of the request, until it is fetched. */
  lemma BoundIsSet(s: List, rq: Rq)
    ensures var t := Next(s, AddTail(rq)); t.endSector == rq.sector + rq.sectors && t.boundaryRq == Some(rq.id)
    ensures var t := Next(s, Bound(rq)); t.endSector == rq.sector + rq.sectors && t.boundaryRq == Some(rq.id)
  {
  }

  /** A fetch moves end_sector to the end of the head exactly if no request holds it, or the head does. */
  lemma FetchMovesExactly(s: List)
    requires s.queue != []
    ensures var t, head := Fetched(s), s.queue[0];
      && t.queue == s.queue[0 := head.(started := true)]
      && (if s.boundaryRq == None || s.boundaryRq == Some(head.id)
          then t.endSector == head.sector + head.sectors && t.boundaryRq == None
          else t.endSector == s.endSector && t.boundaryRq == s.boundaryRq)
  {
  }

  /** Inserting and taking leave end_sector alone. */
  lemma OthersLeaveBound(s: List, step: Step)
    requires step.SortIn? || step.PutHeld? || step.Take?
    ensures Next(s, step).endSector == s.endSector && Next(s, step).boundaryRq == s.boundaryRq
    ensures step.Take? && step.k < |s.queue| ==> Next(s, step).queue == s.queue[..step.k] + s.queue[step.k + 1..]
    ensures step.PutHeld? && step.p <= |s.queue| ==>
      Next(s, step).queue == s.queue[..step.p] + [step.rq] + s.queue[step.p..]
  {
  }

  // ----- The list as it runs

  class DispatchList {
    var queueHead: seq<Rq>
    var endSector: nat
    var boundaryRq: Option<nat>

    ghost function State(): List
      reads this
    {
      List(queueHead, endSector, boundaryRq)
    }

    ghost predicate Valid()
      reads this
    {
      HeldAhead(queueHead)
    }

    /** The scan of elv_dispatch_sort from the tail. */
    method Scan(rq: Rq) returns (i: nat)
      ensures i == Place(endSector, queueHead, rq)
    {
      i := |queueHead|;
      assert queueHead[..i] == queueHead;
      while i > 0
        invariant i <= |queueHead| && Place(endSector, queueHead, rq) == Place(endSector, queueHead[..i], rq)
      {
        var pos := queueHead[i - 1];
        assert queueHead[..i][..i - 1] == queueHead[..i - 1];
        assert Place(endSector, queueHead[..i], rq) ==
          if Passes(endSector, rq, pos) then Place(endSector, queueHead[..i - 1], rq) else i;
        if rq.discard != pos.discard {
          break;
        }
        if rq.write != pos.write {
          break;
        }
        if pos.barrier || pos.started {
          break;
        }
        if rq.sector >= endSector {
          if pos.sector >= endSector && rq.sector >= pos.sector {
            break;
          }
        } else {
          if pos.sector >= endSector {
            break;
          }
          if rq.sector >= pos.sector {
            break;
          }
        }
        i := i - 1;
      }
    }

    /** elv_dispatch_sort: a list in elevator order stays so. */
    method DispatchSort(rq: Rq)
      requires Valid() && !rq.started
      modifies this`queueHead
      ensures Valid() && State() == Next(old(State()), SortIn(rq)) && (old(InOrder(State())) ==> InOrder(State()))
    {
      ghost var was := State();
      StepHeldAhead(was, SortIn(rq));
      var i := Scan(rq);
      queueHead := queueHead[..i] + [rq] + queueHead[i..];
      if InOrder(was) {
        StepExactly(was, SortIn(rq));
      }
    }

    /** elv_dispatch_add_tail: a list in elevator order stays so exactly if the request fits behind its tail. */
    method DispatchAddTail(rq: Rq)
      requires Valid() && !rq.started
      modifies this
      ensures Valid() && State() == Next(old(State()), AddTail(rq))
      ensures old(InOrder(State())) ==> (InOrder(State()) <==> old(TailFits(endSector, queueHead, rq)))
    {
      ghost var was := State();
      StepHeldAhead(was, AddTail(rq));
      endSector, boundaryRq := rq.sector + rq.sectors, Some(rq.id);
      queueHead := queueHead + [rq];
      if InOrder(was) {
        StepExactly(was, AddTail(rq));
      }
    }

    /**
     elv_next_request on the head: without a boundary_rq, or for it, the end of the head becomes end_sector, and a list
     in elevator order stays so exactly if no tail behind the head has requests on both sides of the change.
     */
    method FetchHead()
      requires Valid() && queueHead != []
      modifies this
      ensures Valid() && State() == Fetched(old(State()))
      ensures old(InOrder(State())) ==> (InOrder(State()) <==> old(Fine(State(), Fetch)))
    {
      ghost var was := State();
      StepHeldAhead(was, Fetch);
      var rq := queueHead[0];
      if !rq.started {
        queueHead := queueHead[0 := rq.(started := true)];
      }
      if boundaryRq.None? || boundaryRq.value == rq.id {
        endSector, boundaryRq := rq.sector + rq.sectors, None;
      }
      if InOrder(was) {
        FetchExactly(was);
      }
    }
  }
}
