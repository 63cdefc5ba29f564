/**
 How long a read can wait in the deadline scheduler: the bound on the writes dispatched before it is reached if
 writes_starved is above 0, and there is none otherwise.
 */
module DeadlineReads {
  import opened Options
  import opened Runs
  import opened SortList
  import opened Ledger
  import opened Deadline
  import opened DeadlineRuns
  import opened DeadlineBound

  function WriteAt(sector: nat): Rq {
    Rq(sector, 1, true, 0, 0, false, false)
  }

  /** Writes 0 up to n, each at its own sector, and a read. */
  function Mixed(n: nat): map<nat, Rq> {
    map r: nat | r <= n :: if r < n then WriteAt(r) else ReadAt(0)
  }

  /** They are queued, the writes are in a batch with nothing counted yet, and reads have been chosen often enough. */
  function WritesFirst(t: Tunables, n: nat): State {
    var writes := Side(Ids(0, n), Ids(0, n), if 0 < n then Some(0) else None);
    State(Data(Mixed(n), Side([n], [n], None), writes, 0, t.writesStarved, 0, []), Mixed(n).Keys, {})
  }

  lemma IdsHave(n: nat)
    ensures NoDup(Ids(0, n)) && forall r :: r in Ids(0, n) <==> 0 <= r < n
  {
    IdsAre(0, n);
    forall r | 0 <= r < n ensures r in Ids(0, n) {
      assert Ids(0, n)[r] == r;
    }
  }

  lemma MixedIs(n: nat, r: nat)
    ensures r in Mixed(n) <==> r <= n
    ensures r in Mixed(n) ==> (Mixed(n)[r].write <==> r < n)
  {
    assert WriteAt(r).write && !ReadAt(0).write;
  }

  lemma WritesSideOk(n: nat)
    ensures SideOk(Mixed(n), Side(Ids(0, n), Ids(0, n), if 0 < n then Some(0) else None), true, {}, {})
  {
    var rqs, noneMissing: set<nat> := Mixed(n), {};
    IdsAre(0, n);
    IdsHave(n);
    assert Sorted(rqs, Ids(0, n));
    forall r: nat ensures r in Ids(0, n) <==> r in rqs && rqs[r].write == true && r !in noneMissing {
      MixedIs(n, r);
    }
  }

  lemma ReadSideOk(n: nat)
    ensures SideOk(Mixed(n), Side([n], [n], None), false, {}, {})
  {
    var rqs, noneMissing: set<nat> := Mixed(n), {};
    assert Sorted(rqs, [n]) && NoDup([n]);
    forall r: nat ensures r in [n] <==> r in rqs && rqs[r].write == false && r !in noneMissing {
      MixedIs(n, r);
    }
  }

  lemma WritesFirstOk(t: Tunables, n: nat)
    ensures StateOk(WritesFirst(t, n))
  {
    WritesSideOk(n);
    ReadSideOk(n);
  }

  // ----- Writes go

  /** The writes from k up to n are to be dispatched next, and a read waits. */
  predicate WriteStreak(d: Data, k: nat, n: nat) {
    match d case Data(_, readSide, writeSide, _, _, _, _) =>
      && readSide.fifo != [] && k <= n && writeSide.sort == Ids(k, n)
      && writeSide.next == if k < n then Some(k) else None
  }

  /** The slack that is left lasts for the rest, or there is no limit. */
  predicate Lasts(d: Data, t: Tunables, k: nat, n: nat) {
    t.writesStarved > 0 ==> WriteSlack(d, t) + k == n
  }

  lemma WriteChoice(d: Data, t: Tunables, k: nat, n: nat)
    requires Ok(d, {}, {}) && d.readSide.fifo != [] && d.writeSide.next == Some(k) && k < n && Lasts(d, t, k, n)
    ensures Choice(d, t, 0) == Some(k) && Lasts(Counted(d, t), t, k + 1, n)
  {
  }

  lemma FirstRemoved(k: nat, n: nat)
    requires k < n
    ensures var sort := Ids(k, n);
      k in sort && Remove(sort, k) == Ids(k + 1, n) && Latter(sort, k) == if k + 1 < n then Some(k + 1) else None
  {
    var sort, rest := Ids(k, n), Ids(k + 1, n);
    assert sort == [k] + rest;
    FirstIs(sort, k, 0);
    assert sort[1..] == rest && (k + 1 < n ==> rest == [k + 1] + Ids(k + 2, n));
  }

  lemma MovedWrite(d: Data, r: nat)
    requires r in d.rqs && d.rqs[r].write && r in d.writeSide.sort && r in d.writeSide.fifo
    ensures var d', sort := Moved(d, r), d.writeSide.sort;
      && d'.readSide.fifo == d.readSide.fifo && d'.writeSide.sort == Remove(sort, r)
      && d'.writeSide.next == Latter(sort, r) && SameCounters(d', d)
  {
  }

  lemma MovedInStreak(d: Data, k: nat, n: nat)
    requires WriteStreak(d, k, n) && k < n && k in d.rqs && d.rqs[k].write && k in d.writeSide.sort
    requires k in d.writeSide.fifo
    ensures WriteStreak(Moved(d, k), k + 1, n) && SameCounters(Moved(d, k), d)
  {
    FirstRemoved(k, n);
    MovedWrite(d, k);
  }

  lemma CountedInStreak(d: Data, t: Tunables, k: nat, n: nat)
    requires WriteStreak(d, k, n) && k < n
    ensures WriteStreak(Counted(d, t), k, n) && Counted(d, t).writeSide == d.writeSide && Counted(d, t).rqs == d.rqs
  {
  }

  lemma LastsSame(d: Data, e: Data, t: Tunables, k: nat, n: nat)
    requires SameCounters(d, e)
    ensures Lasts(d, t, k, n) == Lasts(e, t, k, n)
  {
  }

  lemma WriteGoes(d: Data, t: Tunables, k: nat, n: nat)
    requires Ok(d, {}, {}) && WriteStreak(d, k, n) && k < n && Lasts(d, t, k, n)
    ensures Choice(d, t, 0) == Some(k) && k in d.rqs && d.rqs[k].write
    ensures WriteStreak(Dispatched(d, t, 0), k + 1, n) && Lasts(Dispatched(d, t, 0), t, k + 1, n)
  {
    WriteChoice(d, t, k, n);
    CountedInStreak(d, t, k, n);
    MovedInStreak(Counted(d, t), k, n);
    LastsSame(Moved(Counted(d, t), k), Counted(d, t), t, k + 1, n);
  }

  // ----- The run

  /** A dispatch that moves no read although one waits. */
  ghost predicate PassesRead(s: State, t: Tunables, step: Step, s': State) {
    match s case State(d, _, _) =>
      StateOk(s) && step.Dispatch? && s' == Apply(s, t, step) && d.readSide.fifo != [] && !MovesRead(s, t, step)
  }

  ghost predicate WriteIsNext(s: State, t: Tunables, k: nat, n: nat) {
    match s case State(d, _, _) => StateOk(s) && WriteStreak(d, k, n) && Lasts(d, t, k, n)
  }

  /** Relations that stand for the two; the proofs about traces need no more. */
  ghost predicate StandFor(leads: (State, Step, State) -> bool, at: (State, nat) -> bool, t: Tunables, n: nat) {
    && (forall s, step, s' {:trigger PassesRead(s, t, step, s')} :: PassesRead(s, t, step, s') ==> leads(s, step, s'))
    && forall s, k: nat {:trigger WriteIsNext(s, t, k, n)} :: at(s, k) <==> WriteIsNext(s, t, k, n)
  }

  lemma NextGoes(s: State, leads: (State, Step, State) -> bool, at: (State, nat) -> bool, t: Tunables, k: nat, n: nat)
    returns (s': State)
    requires StandFor(leads, at, t, n) && at(s, k) && k < n
    ensures leads(s, Dispatch(0), s') && at(s', k + 1)
  {
    assert WriteIsNext(s, t, k, n);
    WriteGoes(s.d, t, k, n);
    StepKeeps(s, t, Dispatch(0));
    s' := Apply(s, t, Dispatch(0));
    assert PassesRead(s, t, Dispatch(0), s') && WriteIsNext(s', t, k + 1, n);
  }

  lemma {:induction false} WritesGo(first: State, leads: (State, Step, State) -> bool, at: (State, nat) -> bool,
                                    t: Tunables, k: nat, n: nat) returns (x: Trace)
    requires StandFor(leads, at, t, n) && at(first, 0) && k <= n
    ensures Follows(x, first, leads) && Dispatches(x.steps) == k && at(x.states[|x.steps|], k)
  {
    if k == 0 {
      x := Trace([first], []);
    } else {
      x := WritesGo(first, leads, at, t, k - 1, n);
      var s := NextGoes(x.states[|x.steps|], leads, at, t, k - 1, n);
      x := Extended(x, first, leads, Dispatch(0), s);
    }
  }

  lemma FollowsIsRun(x: Trace, first: State, leads: (State, Step, State) -> bool, t: Tunables)
    requires Follows(x, first, leads) && StateOk(first)
    requires forall s, step, s' {:trigger leads(s, step, s')} :: leads(s, step, s') ==> PassesRead(s, t, step, s')
    ensures IsRun(x.states, x.steps, t)
    ensures forall i :: 0 <= i < |x.steps| ==>
      x.states[i].d.readSide.fifo != [] && StateOk(x.states[i]) && !MovesRead(x.states[i], t, x.steps[i])
  {
    var states, steps := x.states, x.steps;
    forall i {:trigger steps[i]} | 0 <= i < |steps|
      ensures Enabled(states[i], steps[i]) && StateOk(states[i]) && states[i + 1] == Apply(states[i], t, steps[i])
      ensures states[i].d.readSide.fifo != [] && !MovesRead(states[i], t, steps[i])
    {
      assert leads(states[i], steps[i], states[i + 1]);
    }
  }

  lemma FirstIsNext(t: Tunables, n: nat)
    requires t.writesStarved == 0 || n == LongestWrites(t)
    ensures WriteIsNext(WritesFirst(t, n), t, 0, n)
  {
    WritesFirstOk(t, n);
  }

  /**
   A read can wait that long: from a right state the bound is reached, and with writes_starved 0 any number of writes
   is dispatched before it.
   */
  lemma ReadsCanWait(t: Tunables, n: nat) returns (states: seq<State>, steps: seq<Step>)
    requires t.writesStarved == 0 || n == LongestWrites(t)
    ensures IsRun(states, steps, t) && Dispatches(steps) == n
    ensures forall i :: 0 <= i < |steps| ==>
      states[i].d.readSide.fifo != [] && StateOk(states[i]) && !MovesRead(states[i], t, steps[i])
  {
    var leads := (s, step, s') => PassesRead(s, t, step, s');
    var at := (s, k: nat) => WriteIsNext(s, t, k, n);
    FirstIsNext(t, n);
    var x := WritesGo(WritesFirst(t, n), leads, at, t, n, n);
    FollowsIsRun(x, WritesFirst(t, n), leads, t);
    states, steps := x.states, x.steps;
  }
}
