/**
 The arrival lists of CFQ over runs. attempt_merge hands the earlier start time to the request that stays,
 before cfq_merged_requests compares start times: the request never takes over the earlier place.
 */
module CfqArrivals {
  import opened Options
  import opened SortList
  import opened ServiceTree
  import opened Cfq
  import opened CfqRuns
  import opened Runs

  // ----- Arrival lists

  /** The arrival list of each queue. */
  function Fifos(qs: map<nat, Queue>): map<nat, seq<nat>> {
    map q | q in qs :: qs[q].fifo
  }

  /** The lists hold queued requests of their queue, each once. */
  ghost predicate ListsOk(rqs: map<nat, Rq>, lists: map<nat, seq<nat>>) {
    forall q :: q in lists ==> NoDup(lists[q]) && forall x :: x in lists[q] ==> x in rqs && rqs[x].queue == q
  }

  /** Every arrival list is in the order of start times. */
  ghost predicate AllInTime(rqs: map<nat, Rq>, lists: map<nat, seq<nat>>) {
    forall q :: q in lists ==> InTime(rqs, lists[q])
  }

  lemma OkLists(d: Data, noSort: set<nat>, noFifo: set<nat>)
    requires QueuesOk(d.rqs, d.qs, noSort, noFifo)
    ensures ListsOk(d.rqs, Fifos(d.qs))
  {
    forall q | q in d.qs
      ensures NoDup(d.qs[q].fifo) && forall x :: x in d.qs[q].fifo ==> x in d.rqs && d.rqs[x].queue == q
    {
      assert QueueOk(d.rqs, q, d.qs[q], noSort, noFifo);
    }
  }

  /** The lists after r has left the one of queue q. */
  function Dropped(lists: map<nat, seq<nat>>, q: nat, r: nat): map<nat, seq<nat>>
    requires q in lists && r in lists[q]
  {
    lists[q := Remove(lists[q], r)]
  }

  /** The lists of the second are those of the first with some requests gone; start times are the same. */
  ghost predicate Thinned(rqs: map<nat, Rq>, lists: map<nat, seq<nat>>, rqs': map<nat, Rq>, lists': map<nat,
                          seq<nat>>) {
    && lists'.Keys == lists.Keys
    && (forall q, x :: q in lists && x in lists'[q] ==> x in lists[q] && StampOf(rqs', x) == StampOf(rqs, x))
    && (AllInTime(rqs, lists) ==> AllInTime(rqs', lists'))
  }

  lemma DroppedThins(rqs: map<nat, Rq>, lists: map<nat, seq<nat>>, q: nat, r: nat)
    requires ListsOk(rqs, lists) && q in lists && r in lists[q]
    ensures Thinned(rqs, lists, rqs - {r}, Dropped(lists, q, r))
  {
    var lists' := Dropped(lists, q, r);
    RemoveKeeps(lists[q], r);
    forall p, x | p in lists && x in lists'[p] ensures x in lists[p] && StampOf(rqs - {r}, x) == StampOf(rqs, x) {
      assert x != r;
    }
    if AllInTime(rqs, lists) {
      InTimeRemoves(rqs, lists[q], r);
      forall p | p in lists' ensures InTime(rqs - {r}, lists'[p]) {
        InTimeElsewhere(rqs, rqs - {r}, lists'[p]);
      }
    }
  }

  lemma SameStampsThin(rqs: map<nat, Rq>, rqs': map<nat, Rq>, lists: map<nat, seq<nat>>)
    requires forall q, x :: q in lists && x in lists[q] ==> StampOf(rqs', x) == StampOf(rqs, x)
    ensures Thinned(rqs, lists, rqs', lists)
  {
    if AllInTime(rqs, lists) {
      forall q | q in lists ensures InTime(rqs', lists[q]) {
        InTimeElsewhere(rqs, rqs', lists[q]);
      }
    }
  }

  // ----- What the operations do to them

  lemma RemovedLists(d: Data, h: Head, r: nat)
    requires Filed(d, r)
    ensures Removed(d, h, r).rqs == d.rqs - {r}
    ensures Fifos(Removed(d, h, r).qs) == Dropped(Fifos(d.qs), d.rqs[r].queue, r)
  {
    var q := d.rqs[r].queue;
    var c := Unfiled(h, d.rqs, d.qs[q], r);
    var e := d.(rqs := d.rqs - {r}, qs := d.qs[q := c], nrSorted := d.nrSorted - 1);
    DroppedLists(d.qs, q, c, r);
    RrDeletedLists(e, q);
  }

  lemma DroppedLists(qs: map<nat, Queue>, q: nat, c: Queue, r: nat)
    requires q in qs && r in qs[q].fifo && c.fifo == Remove(qs[q].fifo, r)
    ensures Fifos(qs[q := c]) == Dropped(Fifos(qs), q, r)
  {
  }

  lemma RrDeletedLists(d: Data, q: nat)
    requires q in d.qs
    ensures RrDeleted(d, q).rqs == d.rqs && Fifos(RrDeleted(d, q).qs) == Fifos(d.qs)
  {
    SameLists(d.qs, q, d.qs[q].(onRr := false));
  }

  lemma ResortedLists(d: Data, h: Head, r: nat, rank: Rank, shape: seq<nat> -> Tree)
    requires r in d.rqs && d.rqs[r].queue in d.qs
    ensures Resorted(d, h, r, rank, shape).rqs == d.rqs && Fifos(Resorted(d, h, r, rank, shape).qs) == Fifos(d.qs)
  {
  }

  lemma EvictedThins(d: Data, h: Head, q: nat, sector: nat)
    requires ListsOk(d.rqs, Fifos(d.qs)) && Listed(d) && q in d.qs
    ensures var e := Evicted(d, h, q, sector); Thinned(d.rqs, Fifos(d.qs), e.rqs, Fifos(e.qs))
  {
    var a := Alias(d.rqs, d.qs[q].sort, sector);
    if a.Some? {
      RemovedLists(d, h, a.value);
      DroppedThins(d.rqs, Fifos(d.qs), q, a.value);
    } else {
      SameStampsThin(d.rqs, d.rqs, Fifos(d.qs));
    }
  }

  lemma AddedRbThins(d: Data, h: Head, r: nat, rank: Rank, shape: seq<nat> -> Tree)
    requires ListsOk(d.rqs, Fifos(d.qs)) && Listed(d) && r in d.rqs && d.rqs[r].queue in d.qs
    requires var e := Evicted(d, h, d.rqs[r].queue, d.rqs[r].sector); r in e.rqs && e.rqs[r].queue in e.qs
    ensures var e := AddedRb(d, h, r, rank, shape); Thinned(d.rqs, Fifos(d.qs), e.rqs, Fifos(e.qs))
  {
    EvictedThins(d, h, d.rqs[r].queue, d.rqs[r].sector);
    ResortedLists(Evicted(d, h, d.rqs[r].queue, d.rqs[r].sector), h, r, rank, shape);
  }

  // ----- Steps

  ghost predicate InTimeNow(d: Data) {
    AllInTime(d.rqs, Fifos(d.qs))
  }

  /** The arriving request has the latest start time of its queue. */
  ghost predicate ArrivesLast(d: Data, rq: Rq) {
    rq.queue in d.qs && forall x :: x in d.qs[rq.queue].fifo ==> StampOf(d.rqs, x) <= rq.stamp
  }

  /** Nothing that arrived between next and r started later than next. */
  ghost predicate JoinsInTime(d: Data, r: nat, next: nat) {
    && r in d.rqs && d.rqs[r].queue in d.qs
    && var fifo := d.qs[d.rqs[r].queue].fifo; r in fifo && next in fifo && NoneLater(d.rqs, fifo, r, next)
  }

  lemma AppendedInTime(rqs: map<nat, Rq>, lists: map<nat, seq<nat>>, q: nat, r: nat)
    requires AllInTime(rqs, lists) && q in lists && forall x :: x in lists[q] ==> StampOf(rqs, x) <= StampOf(rqs, r)
    ensures AllInTime(rqs, lists[q := lists[q] + [r]])
  {
    InTimeAppends(rqs, lists[q], r);
  }

  lemma FiledLastLists(d: Data, r: nat)
    requires r in d.rqs && d.rqs[r].queue in d.qs
    ensures var q := d.rqs[r].queue;
      FiledLast(d, r).rqs == d.rqs && Fifos(FiledLast(d, r).qs) == Fifos(d.qs)[q := Fifos(d.qs)[q] + [r]]
  {
  }

  lemma InsertedInTime(d: Data, h: Head, r: nat, rq: Rq, rank: Rank, shape: seq<nat> -> Tree)
    requires Ok(d, {}, {}) && r !in d.rqs && Shapes(shape) && InTimeNow(d) && ArrivesLast(d, rq)
    ensures InTimeNow(Inserted(d, h, r, rq, rank, shape))
  {
    var a, lists := Arrived(d, r, rq), Fifos(d.qs);
    ArrivedKeeps(d, r, rq);
    AddedRbKeeps(a, h, r, rank, shape, {r});
    var e := AddedRb(a, h, r, rank, shape);
    OkLists(d, {}, {});
    OkLists(a, {r}, {r});
    SameStampsThin(d.rqs, a.rqs, lists);
    AddedRbThins(a, h, r, rank, shape);
    FiledLastLists(e, r);
    StillLast(a.rqs, lists, e.rqs, Fifos(e.qs), rq.queue, rq.stamp);
    AppendedInTime(e.rqs, Fifos(e.qs), rq.queue, r);
  }

  lemma StillLast(rqs: map<nat, Rq>, lists: map<nat, seq<nat>>, rqs': map<nat, Rq>, lists': map<nat, seq<nat>>,
                  q: nat, stamp: nat)
    requires Thinned(rqs, lists, rqs', lists') && q in lists && forall x :: x in lists[q] ==> StampOf(rqs, x) <= stamp
    ensures forall x :: x in lists'[q] ==> StampOf(rqs', x) <= stamp
  {
  }

  lemma SameLists(qs: map<nat, Queue>, q: nat, c: Queue)
    requires q in qs && c.fifo == qs[q].fifo
    ensures Fifos(qs[q := c]) == Fifos(qs)
  {
  }

  lemma RepositionedInTime(d: Data, h: Head, r: nat, rq: Rq, rank: Rank, shape: seq<nat> -> Tree)
    requires Ok(d, {}, {}) && r in d.rqs && rq.queue == d.rqs[r].queue && rq.stamp == d.rqs[r].stamp
    requires Shapes(shape) && InTimeNow(d)
    ensures InTimeNow(Repositioned(d, h, r, rq, rank, shape))
  {
    UnsortedKeeps(d, r, rq);
    var u := Unsorted(d, r, rq);
    AddedRbKeeps(u, h, r, rank, shape, {});
    OkLists(u, {r}, {});
    SameLists(d.qs, rq.queue, u.qs[rq.queue]);
    ChangedThins(d.rqs, r, rq, Fifos(d.qs));
    AddedRbThins(u, h, r, rank, shape);
  }

  lemma ChangedThins(rqs: map<nat, Rq>, r: nat, rq: Rq, lists: map<nat, seq<nat>>)
    requires r in rqs && rq.stamp == rqs[r].stamp
    ensures Thinned(rqs, lists, rqs[r := rq], lists)
  {
    SameStampsThin(rqs, rqs[r := rq], lists);
  }

  lemma DispatchedInTime(d: Data, h: Head, r: nat)
    requires Ok(d, {}, {}) && Filed(d, r) && InTimeNow(d)
    ensures InTimeNow(Dispatched(d, h, r))
  {
    OkLists(d, {}, {});
    RemovedLists(d, h, r);
    DroppedThins(d.rqs, Fifos(d.qs), d.rqs[r].queue, r);
  }

  /** A join takes next out of its arrival list and moves nothing, in every state of every run. */
  lemma JoinedLists(d: Data, h: Head, r: nat, next: nat, n: nat)
    requires Ok(d, {}, {}) && r in d.rqs && next in d.rqs && r != next && d.rqs[r].queue == d.rqs[next].queue
    ensures var q, e := d.rqs[r].queue, MergedInto(d, h, r, next, JoinedRq(d, r, next, n));
      && q in d.qs && r in d.qs[q].fifo && next in d.qs[q].fifo && e.rqs == d.rqs[r := JoinedRq(d, r, next, n)] - {next}
      && Fifos(e.qs) == Dropped(Fifos(d.qs), q, next)
  {
    var rq := JoinedRq(d, r, next, n);
    EnlargedKeeps(d, r, next, rq);
    var e := Enlarged(d, r, next, rq);
    SameLists(d.qs, rq.queue, e.qs[rq.queue]);
    OkIsFiled(e, next, {}, {});
    RemovedLists(e, h, next);
  }

  lemma DroppedInTimeExactly(rqs: map<nat, Rq>, rqs': map<nat, Rq>, lists: map<nat, seq<nat>>, q: nat, r: nat,
                             next: nat)
    requires ListsOk(rqs, lists) && AllInTime(rqs, lists) && q in lists && r in lists[q] && next in lists[q]
    requires r != next
    requires forall x :: x != r && x != next ==> StampOf(rqs', x) == StampOf(rqs, x)
    requires StampOf(rqs', r) == Earlier(StampOf(rqs, r), StampOf(rqs, next))
    ensures AllInTime(rqs', Dropped(lists, q, next)) <==> NoneLater(rqs, lists[q], r, next)
  {
    var lists' := Dropped(lists, q, next);
    JoinedInTime(rqs, rqs', lists[q], r, next);
    if NoneLater(rqs, lists[q], r, next) {
      forall p | p in lists' ensures InTime(rqs', lists'[p]) {
        if p != q {
          InTimeElsewhere(rqs, rqs', lists[p]);
        }
      }
    }
    if AllInTime(rqs', lists') {
      assert InTime(rqs', lists'[q]);
    }
  }

  /**
   A join keeps the arrival lists in the order of start times exactly if nothing between the two started later than
   next.
   */
  lemma JoinInTimeExactly(d: Data, h: Head, r: nat, next: nat, n: nat)
    requires Ok(d, {}, {}) && r in d.rqs && next in d.rqs && r != next && d.rqs[r].queue == d.rqs[next].queue
    requires InTimeNow(d)
    ensures InTimeNow(MergedInto(d, h, r, next, JoinedRq(d, r, next, n))) <==> JoinsInTime(d, r, next)
  {
    JoinedLists(d, h, r, next, n);
    OkLists(d, {}, {});
    TakenOutInTimeExactly(d, MergedInto(d, h, r, next, JoinedRq(d, r, next, n)), r, next, n);
  }

  lemma TakenOutInTimeExactly(d: Data, e: Data, r: nat, next: nat, n: nat)
    requires ListsOk(d.rqs, Fifos(d.qs)) && InTimeNow(d) && r in d.rqs && next in d.rqs && r != next
    requires var q := d.rqs[r].queue;
      && q in d.qs && r in d.qs[q].fifo && next in d.qs[q].fifo && e.rqs == d.rqs[r := JoinedRq(d, r, next, n)] - {next}
      && Fifos(e.qs) == Dropped(Fifos(d.qs), q, next)
    ensures InTimeNow(e) <==> JoinsInTime(d, r, next)
  {
    DroppedInTimeExactly(d.rqs, e.rqs, Fifos(d.qs), d.rqs[r].queue, r, next);
  }

  // ----- Runs

  /** A step other than a join, or a join of requests nothing later stands between. */
  ghost predicate NoLaterBetween(s: State, step: Step) {
    step.Join? ==> JoinsInTime(s.d, step.r, step.next)
  }

  /** An arrival, if it is one, has the latest start time of its queue. */
  ghost predicate ArrivalLast(s: State, step: Step) {
    step.Arrive? ==> ArrivesLast(s.d, step.rq)
  }

  lemma NewListInTime(rqs: map<nat, Rq>, qs: map<nat, Queue>, q: nat)
    requires AllInTime(rqs, Fifos(qs)) && q !in qs
    ensures AllInTime(rqs, Fifos(qs[q := Queue([], [], None, false)]))
  {
    var lists := Fifos(qs[q := Queue([], [], None, false)]);
    forall p | p in lists ensures InTime(rqs, lists[p]) {
      assert p != q ==> lists[p] == Fifos(qs)[p];
    }
  }

  lemma RekeyedLists(d: Data, q: nat, rank: Rank, shape: seq<nat> -> Tree)
    ensures ServiceAdded(d, q, rank, shape).rqs == d.rqs && ServiceAdded(d, q, rank, shape).qs == d.qs
  {
  }

  /** A step keeps the arrival lists in the order of start times unless it is a join with something later between. */
  lemma StepInTimeExactly(s: State, h: Head, step: Step, shape: seq<nat> -> Tree)
    requires StateOk(s) && Enabled(s, step) && Shapes(shape) && InTimeNow(s.d) && ArrivalLast(s, step)
    ensures InTimeNow(Apply(s, h, step, shape).d) <==> NoLaterBetween(s, step)
  {
    var d := s.d;
    match step
    case NewQueue(q) => NewListInTime(d.rqs, d.qs, q);
    case Arrive(r, rq, rank) => InsertedInTime(d, h, r, rq, rank, shape);
    case Grow(r, n) => ChangedThins(d.rqs, r, d.rqs[r].(sectors := n), Fifos(d.qs));
    case FrontMerge(r, sector, n, rank) =>
      RepositionedInTime(d, h, r, d.rqs[r].(sector := sector, sectors := n), rank, shape);
    case Join(r, next, n) => JoinInTimeExactly(d, h, r, next, n);
    case Dispatch(r) =>
      OkIsFiled(d, r, {}, {});
      DispatchedInTime(d, h, r);
    case Rekey(q, rank) => RekeyedLists(d, q, rank, shape);
  }

  /**
   When requests arrive in the order of their start times, the arrival lists stay in that order throughout a
   run exactly if no join passes over a request that started later than the one taken over.
   */
  lemma InTimeExactly(states: seq<State>, moves: seq<Move>, n: nat)
    requires IsRun(states, moves) && n < |states|
    requires forall i {:trigger moves[i]} :: 0 <= i < |moves| ==> ArrivalLast(states[i], moves[i].step)
    ensures (forall i :: 0 <= i <= n ==> InTimeNow(states[i].d)) <==>
      (forall i {:trigger moves[i]} :: 0 <= i < n ==> NoLaterBetween(states[i], moves[i].step))
  {
    var good, fine := (s: State) => InTimeNow(s.d), (s: State, m: Move) => NoLaterBetween(s, m.step);
    forall i {:trigger moves[i]} | 0 <= i < |moves| && good(states[i])
      ensures good(states[i + 1]) <==> fine(states[i], moves[i])
    {
      MoveInTimeExactly(states, moves, i);
    }
    GoodWhileFine(states, moves, good, fine, n);
    assert GoodUpTo(states, good, n) <==> forall i :: 0 <= i <= n ==> InTimeNow(states[i].d);
  }

  lemma MoveInTimeExactly(states: seq<State>, moves: seq<Move>, i: nat)
    requires IsRun(states, moves) && i < |moves| && InTimeNow(states[i].d) && ArrivalLast(states[i], moves[i].step)
    ensures InTimeNow(states[i + 1].d) <==> NoLaterBetween(states[i], moves[i].step)
  {
    RunKeeps(states, moves, i);
    StepInTimeExactly(states[i], moves[i].head, moves[i].step, moves[i].shape);
  }

  /** In every run a join takes one request out of its arrival list and leaves the order of the others. */
  lemma JoinsMoveNothing(states: seq<State>, moves: seq<Move>, i: nat)
    requires IsRun(states, moves) && i < |moves| && moves[i].step.Join?
    ensures var d, r, next := states[i].d, moves[i].step.r, moves[i].step.next;
      && r in d.rqs && d.rqs[r].queue in d.qs && next in d.qs[d.rqs[r].queue].fifo
      && Fifos(states[i + 1].d.qs) == Dropped(Fifos(d.qs), d.rqs[r].queue, next)
  {
    RunKeeps(states, moves, i);
    JoinedLists(states[i].d, moves[i].head, moves[i].step.r, moves[i].step.next, moves[i].step.sectors);
  }
}
