/** A run of CFQ in which an arrival list loses the order of start times: three arrivals and a join. */
module CfqLostOrder {
  import opened Options
  import opened SortList
  import opened ServiceTree
  import opened Cfq
  import opened CfqRuns
  import opened CfqArrivals

  /** A request with no other at its sector is filed last in its arrival list, and nothing moves. */
  lemma InsertedAlone(a: Data, h: Head, r: nat, rank: Rank, shape: seq<nat> -> Tree)
    requires Ok(a, {r}, {r}) && r in a.rqs && Shapes(shape)
    requires forall x :: x in a.rqs && x != r ==> a.rqs[x].sector != a.rqs[r].sector
    ensures Listed(a) && a.rqs[r].queue in a.qs
    ensures Alias(a.rqs, a.qs[a.rqs[r].queue].sort, a.rqs[r].sector).None?
  {
    AddedRbKeeps(a, h, r, rank, shape, {r});
    NoneInTheWay(a, r);
  }

  lemma FiledAlone(a: Data, h: Head, r: nat, rank: Rank, shape: seq<nat> -> Tree)
    requires Listed(a) && r in a.rqs && a.rqs[r].queue in a.qs
    requires Alias(a.rqs, a.qs[a.rqs[r].queue].sort, a.rqs[r].sector).None?
    ensures var q, e := a.rqs[r].queue, AddedRb(a, h, r, rank, shape);
      && r in e.rqs && e.rqs[r].queue in e.qs && FiledLast(e, r).rqs == a.rqs
      && Fifos(FiledLast(e, r).qs) == Fifos(a.qs)[q := Fifos(a.qs)[q] + [r]]
  {
    ResortedLists(a, h, r, rank, shape);
    SameQueues(Fifos(Resorted(a, h, r, rank, shape).qs), Fifos(a.qs), a.rqs[r].queue);
    FiledLastLists(Resorted(a, h, r, rank, shape), r);
  }

  lemma SameQueues(lists: map<nat, seq<nat>>, lists': map<nat, seq<nat>>, q: nat)
    requires lists == lists' && q in lists'
    ensures q in lists
  {
  }

  lemma NoneInTheWay(a: Data, r: nat)
    requires Ok(a, {r}, {r}) && r in a.rqs && forall x :: x in a.rqs && x != r ==> a.rqs[x].sector != a.rqs[r].sector
    ensures a.rqs[r].queue in a.qs && Alias(a.rqs, a.qs[a.rqs[r].queue].sort, a.rqs[r].sector).None?
  {
    var q := a.rqs[r].queue;
    assert QueueOk(a.rqs, q, a.qs[q], {r}, {r});
    AliasExact(a.rqs, a.qs[q].sort, a.rqs[r].sector);
  }

  /** The state is right, and has these requests and, in its only queue, this arrival list. */
  ghost predicate Shows(s: State, rqs: map<nat, Rq>, fifo: seq<nat>) {
    match s case State(d, seen, _) =>
      StateOk(s) && d.rqs == rqs && seen == rqs.Keys && Fifos(d.qs) == map[7 := fifo]
  }

  lemma QueueShows(h: Head, shape: seq<nat> -> Tree)
    requires Shapes(shape)
    ensures Enabled(EmptyState(), NewQueue(7)) && Shows(Next(EmptyState(), Move(NewQueue(7), h, shape)), map[], [])
  {
    EmptyOk();
    NextOk(EmptyState(), Move(NewQueue(7), h, shape));
  }

  lemma ArrivalEnabled(s: State, rqs: map<nat, Rq>, fifo: seq<nat>, r: nat, rq: Rq, rank: Rank)
    requires Shows(s, rqs, fifo) && r !in rqs && rq.queue == 7
    ensures 7 in s.d.qs && Ok(s.d, {}, {}) && Enabled(s, Arrive(r, rq, rank))
  {
    assert 7 in Fifos(s.d.qs);
  }

  lemma OneList(fifo: seq<nat>, r: nat)
    ensures map[7 := fifo][7 := fifo + [r]] == map[7 := fifo + [r]]
  {
  }

  /** The state after an arrival, from the parts cfq_insert_request has changed. */
  lemma FiledShows(a: Data, fifo: seq<nat>, h: Head, r: nat, rank: Rank, shape: seq<nat> -> Tree)
    requires Listed(a) && r in a.rqs && a.rqs[r].queue == 7 && 7 in a.qs && Fifos(a.qs) == map[7 := fifo]
    requires Alias(a.rqs, a.qs[7].sort, a.rqs[r].sector).None?
    ensures var e := AddedRb(a, h, r, rank, shape);
      && r in e.rqs && e.rqs[r].queue in e.qs && FiledLast(e, r).rqs == a.rqs
      && Fifos(FiledLast(e, r).qs) == map[7 := fifo + [r]]
  {
    FiledAlone(a, h, r, rank, shape);
    OneList(fifo, r);
  }

  lemma ArrivalLists(d: Data, fifo: seq<nat>, r: nat, rq: Rq, rank: Rank, h: Head, shape: seq<nat> -> Tree)
    requires Ok(d, {}, {}) && Fifos(d.qs) == map[7 := fifo] && 7 in d.qs
    requires r !in d.rqs && rq.queue == 7 && Shapes(shape) && forall x :: x in d.rqs ==> d.rqs[x].sector != rq.sector
    ensures var e := Inserted(d, h, r, rq, rank, shape); e.rqs == d.rqs[r := rq] && Fifos(e.qs) == map[7 := fifo + [r]]
  {
    var a := Arrived(d, r, rq);
    ArrivedKeeps(d, r, rq);
    InsertedAlone(a, h, r, rank, shape);
    FiledShows(a, fifo, h, r, rank, shape);
  }

  lemma ArrivalNext(s: State, r: nat, rq: Rq, rank: Rank, h: Head, shape: seq<nat> -> Tree)
    requires StateOk(s) && Enabled(s, Arrive(r, rq, rank)) && Shapes(shape)
    ensures Ok(s.d, {}, {}) && r !in s.d.rqs && rq.queue in s.d.qs
    ensures Next(s, Move(Arrive(r, rq, rank), h, shape)) ==
      State(Inserted(s.d, h, r, rq, rank, shape), s.seen + {r}, s.joined)
  {
  }

  lemma NewShows(s: State, rqs: map<nat, Rq>, fifo: seq<nat>, r: nat, rq: Rq)
    requires StateOk(s) && s.d.rqs == rqs[r := rq] && s.seen == rqs.Keys + {r} && Fifos(s.d.qs) == map[7 := fifo + [r]]
    ensures Shows(s, rqs[r := rq], fifo + [r])
  {
  }

  lemma ArrivalShows(s: State, rqs: map<nat, Rq>, fifo: seq<nat>, r: nat, rq: Rq, rank: Rank, h: Head,
                     shape: seq<nat> -> Tree)
    requires Shows(s, rqs, fifo) && r !in rqs && rq.queue == 7 && Shapes(shape)
    requires forall x :: x in rqs ==> rqs[x].sector != rq.sector
    ensures Enabled(s, Arrive(r, rq, rank))
    ensures Shows(Next(s, Move(Arrive(r, rq, rank), h, shape)), rqs[r := rq], fifo + [r])
  {
    ArrivalEnabled(s, rqs, fifo, r, rq, rank);
    NextOk(s, Move(Arrive(r, rq, rank), h, shape));
    ArrivalNext(s, r, rq, rank, h, shape);
    ArrivalLists(s.d, fifo, r, rq, rank, h, shape);
    NewShows(Next(s, Move(Arrive(r, rq, rank), h, shape)), rqs, fifo, r, rq);
  }

  // ----- The run

  /** A tree of this order that leans to one side. */
  function Spine(order: seq<nat>): Tree {
    if order == [] then Leaf else Node(Leaf, order[0], Spine(order[1..]))
  }

  lemma {:induction false} SpineOrder(order: seq<nat>)
    ensures InOrder(Spine(order)) == order
  {
    if order != [] {
      SpineOrder(order[1..]);
      assert [] + [order[0]] + order[1..] == order;
    }
  }

  lemma SpineShapes()
    ensures Shapes(Spine)
  {
    forall order ensures InOrder(Spine(order)) == order {
      SpineOrder(order);
    }
  }

  const FIRST := Rq(8, 8, false, 1, 7, true, false)
  const SECOND := Rq(24, 8, false, 2, 7, true, false)
  const THIRD := Rq(0, 8, false, 3, 7, true, false)

  /** A step of a run. */
  ghost predicate Leads(s: State, m: Move, s': State) {
    match m case Move(step, _, shape) => Enabled(s, step) && Shapes(shape) && s' == Next(s, m)
  }

  datatype Trace = Trace(states: seq<State>, moves: seq<Move>)

  /** IsRun, in terms of Leads. */
  ghost predicate Follows(t: Trace) {
    match t case Trace(states, moves) =>
      && |states| == |moves| + 1 && states[0] == EmptyState()
      && forall i {:trigger moves[i]} :: 0 <= i < |moves| ==> Leads(states[i], moves[i], states[i + 1])
  }

  lemma FollowsIsRun(t: Trace)
    requires Follows(t)
    ensures IsRun(t.states, t.moves)
  {
    forall i {:trigger t.moves[i]} | 0 <= i < |t.moves|
      ensures Enabled(t.states[i], t.moves[i].step) && Shapes(t.moves[i].shape)
      ensures t.states[i + 1] == Next(t.states[i], t.moves[i])
    {
      assert Leads(t.states[i], t.moves[i], t.states[i + 1]);
    }
  }

  lemma Extended(t: Trace, m: Move, s: State) returns (t': Trace)
    requires Follows(t) && Leads(t.states[|t.moves|], m, s)
    ensures Follows(t') && t' == Trace(t.states + [s], t.moves + [m])
  {
    t' := Trace(t.states + [s], t.moves + [m]);
  }

  /** A run to a state that has these requests, in this order of arrival. */
  ghost predicate Reaches(t: Trace, rqs: map<nat, Rq>, fifo: seq<nat>) {
    match t case Trace(states, moves) => Follows(t) && Shows(states[|moves|], rqs, fifo)
  }

  lemma QueueReaches(h: Head) returns (t: Trace)
    ensures Reaches(t, map[], []) && |t.moves| == 1
  {
    SpineShapes();
    var m := Move(NewQueue(7), h, Spine);
    QueueShows(h, Spine);
    t := Trace([EmptyState(), Next(EmptyState(), m)], [m]);
    assert Leads(t.states[0], t.moves[0], t.states[1]);
  }

  lemma ArrivalReaches(t: Trace, rqs: map<nat, Rq>, fifo: seq<nat>, r: nat, rq: Rq, h: Head) returns (t': Trace)
    requires Reaches(t, rqs, fifo) && r !in rqs && rq.queue == 7
    requires forall x :: x in rqs ==> rqs[x].sector != rq.sector
    ensures Reaches(t', rqs[r := rq], fifo + [r]) && |t'.moves| == |t.moves| + 1
  {
    SpineShapes();
    var rank, last := Rank(false, false, 0), t.states[|t.moves|];
    var m := Move(Arrive(r, rq, rank), h, Spine);
    ArrivalShows(last, rqs, fifo, r, rq, rank, h, Spine);
    t' := Extended(t, m, Next(last, m));
  }

  const ONE: map<nat, Rq> := map[0 := FIRST]
  const TWO: map<nat, Rq> := map[0 := FIRST, 1 := SECOND]
  const THREE: map<nat, Rq> := map[0 := FIRST, 1 := SECOND, 2 := THIRD]

  lemma Arrivals()
    ensures map[][0 := FIRST] == ONE && ONE[1 := SECOND] == TWO && TWO[2 := THIRD] == THREE
    ensures [] + [0] == [0] && [0] + [1] == [0, 1] && [0, 1] + [2] == [0, 1, 2]
    ensures forall x :: x in ONE ==> ONE[x].sector != SECOND.sector
    ensures forall x :: x in TWO ==> TWO[x].sector != THIRD.sector
  {
  }

  lemma OneReached(h: Head) returns (t: Trace)
    ensures Reaches(t, ONE, [0]) && |t.moves| == 2
  {
    Arrivals();
    t := QueueReaches(h);
    t := ArrivalReaches(t, map[], [], 0, FIRST, h);
  }

  lemma TwoReached(h: Head) returns (t: Trace)
    ensures Reaches(t, TWO, [0, 1]) && |t.moves| == 3
  {
    Arrivals();
    t := OneReached(h);
    t := ArrivalReaches(t, ONE, [0], 1, SECOND, h);
  }

  lemma ThreeReached(h: Head) returns (t: Trace)
    ensures Reaches(t, THREE, [0, 1, 2]) && |t.moves| == 4
  {
    Arrivals();
    t := TwoReached(h);
    t := ArrivalReaches(t, TWO, [0, 1], 2, THIRD, h);
  }

  lemma ThreeInTime(d: Data)
    requires d.rqs == THREE && Fifos(d.qs) == map[7 := [0, 1, 2]]
    ensures InTimeNow(d) && !JoinsInTime(d, 2, 0)
  {
    var fifo: seq<nat> := [0, 1, 2];
    FirstIs(fifo, 0, 0);
    FirstIs(fifo, 2, 2);
    assert fifo[1] == 1;
    assert 7 in Fifos(d.qs) && d.qs[7].fifo == Fifos(d.qs)[7] == fifo;
    assert !NoneLater(d.rqs, fifo, 2, 0);
  }

  lemma JoinNext(s: State, m: Move)
    requires StateOk(s) && m.step == Join(2, 0, 16) && Enabled(s, m.step) && Shapes(m.shape)
    ensures Next(s, m).d == MergedInto(s.d, m.head, 2, 0, JoinedRq(s.d, 2, 0, 16))
  {
  }

  lemma JoinLoses(s: State, h: Head) returns (m: Move, s': State)
    requires Shows(s, THREE, [0, 1, 2])
    ensures Leads(s, m, s') && m.step == Join(2, 0, 16) && InTimeNow(s.d) && !InTimeNow(s'.d)
  {
    SpineShapes();
    m := Move(Join(2, 0, 16), h, Spine);
    s' := Next(s, m);
    JoinNext(s, m);
    ThreeInTime(s.d);
    JoinInTimeExactly(s.d, h, 2, 0, 16);
  }

  /**
   The order can be lost: in this run requests at sectors 8, 24 and 0 arrive in the order of their start times, and
   then the third takes over the first and its start time, and stays behind the second.
   */
  lemma OrderCanBeLost(h: Head) returns (states: seq<State>, moves: seq<Move>)
    ensures IsRun(states, moves) && |moves| == 5 && moves[4].step == Join(2, 0, 16)
    ensures InTimeNow(states[4].d) && !InTimeNow(states[5].d)
  {
    var t := ThreeReached(h);
    var m, s := JoinLoses(t.states[4], h);
    t := Extended(t, m, s);
    FollowsIsRun(t);
    states, moves := t.states, t.moves;
  }
}
