/** Runs of the CFQ scheduler: its caches and counts stay right, and every request is dispatched once. */
module CfqRuns {
  import opened Options
  import opened SortList
  import opened Ledger
  import opened ServiceTree
  import opened Cfq
  import opened Runs

  /** A queue appears, a request arrives, grows, takes over another or is dispatched, or a busy queue gets a new key. */
  datatype Step =
    | NewQueue(q: nat)
    | Arrive(r: nat, rq: Rq, rank: Rank)
    | Grow(r: nat, sectors: nat)
    | FrontMerge(r: nat, sector: nat, sectors: nat, rank: Rank)
    | Join(r: nat, next: nat, sectors: nat)
    | Dispatch(r: nat)
    | Rekey(q: nat, rank: Rank)

  /** The scheduler, the requests that have arrived and those merged into others. */
  datatype State = State(d: Data, seen: set<nat>, joined: set<nat>)

  ghost predicate Enabled(s: State, step: Step) {
    match step
    case NewQueue(q) => q !in s.d.qs
    case Arrive(r, rq, _) => r !in s.seen && rq.queue in s.d.qs
    case Grow(r, _) => r in s.d.rqs
    case FrontMerge(r, _, _, _) => r in s.d.rqs
    case Join(r, next, _) => r in s.d.rqs && next in s.d.rqs && r != next && s.d.rqs[r].queue == s.d.rqs[next].queue
    case Dispatch(r) => r in s.d.rqs
    case Rekey(q, _) => q in s.d.qs && s.d.qs[q].onRr
  }

  ghost predicate StateOk(s: State) {
    match s case State(d, seen, joined) => Ok(d, {}, {}) && Accounted(d.rqs, d.out, seen, joined)
  }

  // ----- The steps

  /** cfq_insert_request. */
  ghost function Inserted(d: Data, h: Head, r: nat, rq: Rq, rank: Rank, shape: seq<nat> -> Tree): Data
    requires Ok(d, {}, {}) && r !in d.rqs && rq.queue in d.qs && Shapes(shape)
  {
    ArrivedKeeps(d, r, rq);
    AddedRbKeeps(Arrived(d, r, rq), h, r, rank, shape, {r});
    var e := AddedRb(Arrived(d, r, rq), h, r, rank, shape);
    FiledLastKeeps(e, r);
    FiledLast(e, r)
  }

  /** cfq_merged_request after a front merge. */
  ghost function Repositioned(d: Data, h: Head, r: nat, rq: Rq, rank: Rank, shape: seq<nat> -> Tree): Data
    requires Ok(d, {}, {}) && r in d.rqs && rq.queue == d.rqs[r].queue && Shapes(shape)
  {
    UnsortedKeeps(d, r, rq);
    AddedRbKeeps(Unsorted(d, r, rq), h, r, rank, shape, {});
    AddedRb(Unsorted(d, r, rq), h, r, rank, shape)
  }

  /** r as attempt_merge enlarges it: it takes over the earlier start time. */
  function JoinedRq(d: Data, r: nat, next: nat, sectors: nat): (rq: Rq)
    requires r in d.rqs && next in d.rqs
    ensures rq.sectors == sectors && rq.stamp <= d.rqs[r].stamp && rq.stamp <= d.rqs[next].stamp
    ensures rq.stamp in {d.rqs[r].stamp, d.rqs[next].stamp} && rq == d.rqs[r].(sectors := sectors, stamp := rq.stamp)
  {
    d.rqs[r].(sectors := sectors, stamp := Earlier(d.rqs[r].stamp, d.rqs[next].stamp))
  }

  /** cfq_merged_requests. */
  ghost function MergedInto(d: Data, h: Head, r: nat, next: nat, rq: Rq): Data
    requires Ok(d, {}, {}) && r in d.rqs && next in d.rqs && r != next
    requires d.rqs[r].queue == d.rqs[next].queue == rq.queue && rq.sector == d.rqs[r].sector
  {
    EnlargedKeeps(d, r, next, rq);
    OkIsFiled(Enlarged(d, r, next, rq), next, {}, {});
    RemovedKeeps(Enlarged(d, r, next, rq), h, next, {}, {});
    Removed(Enlarged(d, r, next, rq), h, next)
  }

  ghost function Apply(s: State, h: Head, step: Step, shape: seq<nat> -> Tree): State
    requires StateOk(s) && Enabled(s, step) && Shapes(shape)
  {
    var d := s.d;
    match step
    case NewQueue(q) => s.(d := d.(qs := d.qs[q := Queue([], [], None, false)]))
    case Arrive(r, rq, rank) => State(Inserted(d, h, r, rq, rank, shape), s.seen + {r}, s.joined)
    case Grow(r, n) => s.(d := d.(rqs := d.rqs[r := d.rqs[r].(sectors := n)]))
    case FrontMerge(r, sector, n, rank) =>
      s.(d := Repositioned(d, h, r, d.rqs[r].(sector := sector, sectors := n), rank, shape))
    case Join(r, next, n) => s.(d := MergedInto(d, h, r, next, JoinedRq(d, r, next, n)), joined := s.joined + {next})
    case Dispatch(r) => OkIsFiled(d, r, {}, {}); s.(d := Dispatched(d, h, r))
    case Rekey(q, rank) => s.(d := ServiceAdded(d, q, rank, shape))
  }

  // ----- Every request is dispatched once

  /** An insertion dispatches at most the request in its way. */
  lemma AddedRbAccounted(d: Data, h: Head, r: nat, rank: Rank, shape: seq<nat> -> Tree, noFifo: set<nat>,
                         seen: set<nat>, joined: set<nat>)
    requires Ok(d, {r}, noFifo) && noFifo <= {r} && r in d.rqs && Shapes(shape) && Accounted(d.rqs, d.out, seen, joined)
    requires Listed(d) && r in Evicted(d, h, d.rqs[r].queue, d.rqs[r].sector).rqs
    requires Evicted(d, h, d.rqs[r].queue, d.rqs[r].sector).rqs[r].queue in
      Evicted(d, h, d.rqs[r].queue, d.rqs[r].sector).qs
    ensures var e := AddedRb(d, h, r, rank, shape); Accounted(e.rqs, e.out, seen, joined)
  {
    var q := d.rqs[r].queue;
    EvictedKeeps(d, h, q, d.rqs[r].sector, {r}, noFifo);
    ResortedParts(Evicted(d, h, q, d.rqs[r].sector), h, r, rank, shape);
    var a := Alias(d.rqs, d.qs[q].sort, d.rqs[r].sector);
    if a.Some? {
      NotMissing(d, q, a.value, r, noFifo);
      DispatchedKeeps(d, h, a.value, {r}, noFifo);
      MovedAccounted(d.rqs, d.out, seen, joined, a.value);
    }
  }

  lemma NotMissing(d: Data, q: nat, a: nat, r: nat, noFifo: set<nat>)
    requires Ok(d, {r}, noFifo) && noFifo <= {r} && q in d.qs && a in d.qs[q].sort
    ensures a in d.rqs && a != r
  {
  }

  lemma ArriveKeeps(s: State, h: Head, step: Step, shape: seq<nat> -> Tree)
    requires StateOk(s) && Enabled(s, step) && Shapes(shape) && step.Arrive?
    ensures StateOk(Apply(s, h, step, shape))
  {
    var e := Arrived(s.d, step.r, step.rq);
    ArrivedKeeps(s.d, step.r, step.rq);
    NewAccounted(s.d.rqs, s.d.out, s.seen, s.joined, step.r, step.rq);
    AddedRbKeeps(e, h, step.r, step.rank, shape, {step.r});
    AddedRbAccounted(e, h, step.r, step.rank, shape, {step.r}, s.seen + {step.r}, s.joined);
    FiledLastKeeps(AddedRb(e, h, step.r, step.rank, shape), step.r);
  }

  lemma RepositionedAccounted(d: Data, h: Head, r: nat, rq: Rq, rank: Rank, shape: seq<nat> -> Tree, seen: set<nat>,
                              joined: set<nat>)
    requires Ok(d, {}, {}) && r in d.rqs && rq.queue == d.rqs[r].queue && Shapes(shape)
    requires Accounted(d.rqs, d.out, seen, joined)
    ensures var e := Repositioned(d, h, r, rq, rank, shape); Ok(e, {}, {}) && Accounted(e.rqs, e.out, seen, joined)
  {
    UnsortedKeeps(d, r, rq);
    ChangedAccounted(d.rqs, d.out, seen, joined, r, rq);
    AddedRbKeeps(Unsorted(d, r, rq), h, r, rank, shape, {});
    AddedRbAccounted(Unsorted(d, r, rq), h, r, rank, shape, {}, seen, joined);
  }

  lemma FrontMergeKeeps(s: State, h: Head, step: Step, shape: seq<nat> -> Tree)
    requires StateOk(s) && Enabled(s, step) && Shapes(shape) && step.FrontMerge?
    ensures StateOk(Apply(s, h, step, shape))
  {
    var rq := s.d.rqs[step.r].(sector := step.sector, sectors := step.sectors);
    RepositionedAccounted(s.d, h, step.r, rq, step.rank, shape, s.seen, s.joined);
  }

  lemma JoinKeeps(s: State, h: Head, step: Step, shape: seq<nat> -> Tree)
    requires StateOk(s) && Enabled(s, step) && Shapes(shape) && step.Join?
    ensures StateOk(Apply(s, h, step, shape))
  {
    var rq := JoinedRq(s.d, step.r, step.next, step.sectors);
    EnlargedKeeps(s.d, step.r, step.next, rq);
    var e := Enlarged(s.d, step.r, step.next, rq);
    OkIsFiled(e, step.next, {}, {});
    FiledIsBusy(e, step.next, {}, {});
    RemovedKeeps(e, h, step.next, {}, {});
    RemovedParts(e, h, step.next);
    JoinedAccounted(s.d.rqs, s.d.out, s.seen, s.joined, step.r, rq, step.next);
  }

  lemma DispatchKeeps(s: State, h: Head, step: Step, shape: seq<nat> -> Tree)
    requires StateOk(s) && Enabled(s, step) && Shapes(shape) && step.Dispatch?
    ensures StateOk(Apply(s, h, step, shape))
  {
    DispatchedKeeps(s.d, h, step.r, {}, {});
    MovedAccounted(s.d.rqs, s.d.out, s.seen, s.joined, step.r);
  }

  lemma GrowKeeps(s: State, h: Head, step: Step, shape: seq<nat> -> Tree)
    requires StateOk(s) && Enabled(s, step) && Shapes(shape) && step.Grow?
    ensures StateOk(Apply(s, h, step, shape))
  {
    var d, rq := s.d, s.d.rqs[step.r].(sectors := step.sectors);
    GrownQueuesOk(d.rqs, d.qs, step.r, rq);
    CountAdded(d.rqs, step.r, rq);
    ChangedAccounted(d.rqs, d.out, s.seen, s.joined, step.r, rq);
  }

  lemma GrownQueuesOk(rqs: map<nat, Rq>, qs: map<nat, Queue>, r: nat, rq: Rq)
    requires QueuesOk(rqs, qs, {}, {}) && Homes(rqs, qs) && r in rqs && rq.queue == rqs[r].queue
    requires rq.sector == rqs[r].sector
    ensures QueuesOk(rqs[r := rq], qs, {}, {}) && Homes(rqs[r := rq], qs)
  {
    forall p | p in qs ensures QueueOk(rqs[r := rq], p, qs[p], {}, {}) {
      ChangedQueueOk(rqs, p, qs[p], r, rq);
    }
  }

  lemma NewQueueKeeps(s: State, h: Head, step: Step, shape: seq<nat> -> Tree)
    requires StateOk(s) && Enabled(s, step) && Shapes(shape) && step.NewQueue?
    ensures StateOk(Apply(s, h, step, shape))
  {
    EmptyQueueOk(s.d.rqs, s.d.qs, step.q);
  }

  lemma EmptyQueueOk(rqs: map<nat, Rq>, qs: map<nat, Queue>, q: nat)
    requires QueuesOk(rqs, qs, {}, {}) && Homes(rqs, qs) && q !in qs
    ensures QueuesOk(rqs, qs[q := Queue([], [], None, false)], {}, {})
  {
  }

  lemma StepKeeps(s: State, h: Head, step: Step, shape: seq<nat> -> Tree)
    requires StateOk(s) && Enabled(s, step) && Shapes(shape)
    ensures StateOk(Apply(s, h, step, shape))
  {
    match step
    case NewQueue(_) => NewQueueKeeps(s, h, step, shape);
    case Arrive(_, _, _) => ArriveKeeps(s, h, step, shape);
    case Grow(_, _) => GrowKeeps(s, h, step, shape);
    case FrontMerge(_, _, _, _) => FrontMergeKeeps(s, h, step, shape);
    case Join(_, _, _) => JoinKeeps(s, h, step, shape);
    case Dispatch(_) => DispatchKeeps(s, h, step, shape);
    case Rekey(q, rank) => ServiceAddedKeeps(s.d, q, rank, shape);
  }

  function EmptyState(): State {
    State(Data(map[], map[], map[], [], None, 0, 0, []), {}, {})
  }

  lemma EmptyOk()
    ensures StateOk(EmptyState())
  {
  }

  /** A step with what it does not decide: the head position, and the shape the service tree has for its order. */
  datatype Move = Move(step: Step, head: Head, shape: seq<nat> -> Tree)

  /** The state after the move; one that may not be made changes nothing. */
  ghost function Next(s: State, m: Move): State {
    if StateOk(s) && Enabled(s, m.step) && Shapes(m.shape) then Apply(s, m.head, m.step, m.shape) else s
  }

  /** A run from the empty scheduler; head position and tree shape may be any at each step. */
  ghost predicate IsRun(states: seq<State>, moves: seq<Move>) {
    && |states| == |moves| + 1 && states[0] == EmptyState()
    && forall i {:trigger moves[i]} :: 0 <= i < |moves| ==>
      Enabled(states[i], moves[i].step) && Shapes(moves[i].shape) && states[i + 1] == Next(states[i], moves[i])
  }

  lemma NextOk(s: State, m: Move)
    ensures StateOk(s) ==> StateOk(Next(s, m))
  {
    if StateOk(s) && Enabled(s, m.step) && Shapes(m.shape) {
      StepKeeps(s, m.head, m.step, m.shape);
    }
  }

  /**
   Over every run: the cached leftmost queue is unset or first in service order, the service tree and the
   count of busy queues cover exactly the queues with requests, each of those has a pending next request,
   and each request leaves once.
   */
  lemma RunKeeps(states: seq<State>, moves: seq<Move>, n: nat)
    requires IsRun(states, moves) && n < |states|
    ensures StateOk(states[n])
  {
    var next, ok := (s: State, m: Move) => Next(s, m), (s: State) => StateOk(s);
    EmptyOk();
    forall s, m ensures ok(s) ==> ok(next(s, m)) {
      NextOk(s, m);
    }
    HoldsThroughout(states, moves, next, ok, n);
  }

  /**
   In a right state a queue with requests is on the service list with a pending next request, and no other queue is.
   */
  lemma BusyExactly(s: State, q: nat)
    requires StateOk(s) && q in s.d.qs
    ensures s.d.qs[q].onRr <==> exists r :: r in s.d.rqs && s.d.rqs[r].queue == q
    ensures s.d.qs[q].onRr <==> q in s.d.order
    ensures s.d.qs[q].next.Some? <==> s.d.qs[q].onRr
    ensures s.d.qs[q].next.Some? ==> s.d.qs[q].next.value in s.d.rqs && s.d.rqs[s.d.qs[q].next.value].queue == q
    ensures s.d.busy == |s.d.order| && (s.d.left.Some? ==> s.d.order != [] && s.d.left.value == s.d.order[0])
  {
  }

  /**
   The first queue in service order is real-time if any busy queue is, idle-class only if all are, and has the least key
   of its class.
   */
  lemma FirstIsMostUrgent(s: State, q: nat)
    requires StateOk(s) && q in s.d.order
    ensures RankAt(s.d.ranks, q).rt ==> RankAt(s.d.ranks, s.d.order[0]).rt
    ensures RankAt(s.d.ranks, s.d.order[0]).idle && !RankAt(s.d.ranks, s.d.order[0]).rt ==> RankAt(s.d.ranks, q).idle
    ensures var a, b := RankAt(s.d.ranks, s.d.order[0]), RankAt(s.d.ranks, q);
      a.rt == b.rt && a.idle == b.idle ==> a.key <= b.key
  {
    var i :| 0 <= i < |s.d.order| && s.d.order[i] == q;
    if i > 0 {
      OrderedByKey(s.d.order, s.d.ranks, 0, i);
    }
  }
}
