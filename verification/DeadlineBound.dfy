/**
 The starvation bound of the deadline scheduler is reached. An arrival at the sector of a queued read moves that read
 out of the way, which sets the next request but does not count it to the batch: a full batch of reads follows before
 the first choice between reads and writes.
 */
module DeadlineBound {
  import opened Options
  import opened Runs
  import opened SortList
  import opened Deadline
  import opened DeadlineRuns

  function Ids(a: nat, b: nat): seq<nat>
    decreases b - a
  {
    if a >= b then [] else [a] + Ids(a + 1, b)
  }

  lemma {:induction false} IdAt(a: nat, b: nat, i: nat)
    requires a + i < b
    ensures |Ids(a, b)| == b - a && Ids(a, b)[i] == a + i
    decreases b - a
  {
    if i > 0 {
      IdAt(a + 1, b, i - 1);
    } else if a + 1 < b {
      IdAt(a + 1, b, 0);
    }
  }

  lemma IdsAre(a: nat, b: nat)
    requires a <= b
    ensures |Ids(a, b)| == b - a && forall i :: 0 <= i < b - a ==> Ids(a, b)[i] == a + i
  {
    if a < b {
      IdAt(a, b, 0);
    }
    forall i | 0 <= i < b - a ensures |Ids(a, b)| == b - a && Ids(a, b)[i] == a + i {
      IdAt(a, b, i);
    }
  }

  function ReadAt(sector: nat): Rq {
    Rq(sector, 1, false, 0, 0, true, false)
  }

  const WRITE := Rq(0, 1, true, 0, 0, false, false)

  function EmptyState(): State {
    State(Data(map[], Side([], [], None), Side([], [], None), 0, 0, 0, []), {}, {})
  }

  // ----- Reads arrive

  /** Reads 0 up to n are queued, each at its own sector; nothing has been dispatched. */
  ghost predicate Queued(s: State, n: nat) {
    match s case State(d, seen, _) =>
      && StateOk(s) && (forall r :: r in d.rqs ==> r < n && d.rqs[r] == ReadAt(r)) && (forall r :: r in seen ==> r < n)
      && d.readSide.sort == Ids(0, n) && d.readSide.next == None && d.writeSide == Side([], [], None)
      && d.batching == 0 && d.starved == 0
  }

  lemma NothingQueued()
    ensures Queued(EmptyState(), 0)
  {
  }

  /** An arrival with nothing at its sector is inserted and filed, and nothing else happens. */
  lemma AddedApart(d: Data, r: nat, rq: Rq)
    requires Listed(d) && r !in d.rqs && Alias(d.rqs[r := rq], Get(d, rq.write).sort, rq.sector).None?
    ensures var rqs, side := d.rqs[r := rq], Get(d, rq.write);
      Added(d, r, rq) == Put(d.(rqs := rqs), rq.write,
        Side(Insert(side.sort, Place(rqs, side.sort, rq.sector), r), side.fifo + [r], side.next))
  {
  }

  lemma LastPlace(rqs: map<nat, Rq>, n: nat)
    requires forall r :: 0 <= r <= n ==> r in rqs && rqs[r] == ReadAt(r)
    ensures Alias(rqs, Ids(0, n), n).None? && Insert(Ids(0, n), Place(rqs, Ids(0, n), n), n) == Ids(0, n + 1)
  {
    IdsAre(0, n);
    IdsAre(0, n + 1);
    assert Place(rqs, Ids(0, n), n) == n;
  }

  lemma QueuedReads(s: State, n: nat)
    requires Queued(s, n)
    ensures forall r :: 0 <= r < n <==> r in s.d.rqs
  {
    IdsAre(0, n);
    forall r | 0 <= r < n ensures r in s.d.rqs {
      assert s.d.readSide.sort[r] == r;
    }
  }

  lemma ReadQueued(s: State, t: Tunables, n: nat)
    requires Queued(s, n)
    ensures Enabled(s, Add(n, ReadAt(n))) && Queued(Apply(s, t, Add(n, ReadAt(n))), n + 1)
  {
    QueuedReads(s, n);
    OkIsListed(s.d, {}, {});
    LastPlace(s.d.rqs[n := ReadAt(n)], n);
    AddedApart(s.d, n, ReadAt(n));
    StepKeeps(s, t, Add(n, ReadAt(n)));
  }

  // ----- A write arrives, and a read at the sector of read 0

  /** The reads from k up to n are to be dispatched next, before the waiting write; another read is at sector 0. */
  predicate Streak(d: Data, k: nat, n: nat) {
    match d case Data(_, readSide, writeSide, _, _, _, _) =>
      && writeSide.fifo != [] && k <= n && readSide.sort == [n + 1] + Ids(k, n)
      && readSide.next == if k < n then Some(k) else None
  }

  /** The reads and a write are queued. */
  ghost predicate WriteQueued(s: State, n: nat) {
    match s case State(d, seen, _) =>
      && StateOk(s) && (forall r :: r in d.rqs ==> r <= n) && (forall r :: r in seen ==> r <= n)
      && (forall r :: 0 <= r < n ==> r in d.rqs && d.rqs[r] == ReadAt(r))
      && d.readSide.sort == Ids(0, n) && d.writeSide.fifo == [n] && d.batching == 0 && d.starved == 0
  }

  lemma WriteArrives(s: State, t: Tunables, n: nat)
    requires Queued(s, n)
    ensures Enabled(s, Add(n, WRITE)) && WriteQueued(Apply(s, t, Add(n, WRITE)), n)
  {
    QueuedReads(s, n);
    OkIsListed(s.d, {}, {});
    AddedApart(s.d, n, WRITE);
    StepKeeps(s, t, Add(n, WRITE));
  }

  lemma FirstEvicted(rqs: map<nat, Rq>, n: nat)
    requires n > 0 && forall r :: 0 <= r < n ==> r in rqs && rqs[r] == ReadAt(r)
    ensures var sort := Ids(0, n);
      && Alias(rqs, sort, 0) == Some(0) && Remove(sort, 0) == Ids(1, n)
      && Latter(sort, 0) == (if 1 < n then Some(1) else None)
  {
    assert Ids(0, n)[0] == 0;
  }

  /** A read that moves another one, a, out of the way. */
  lemma AddedOver(d: Data, r: nat, rq: Rq, a: nat)
    requires Listed(d) && r !in d.rqs && !rq.write
    requires Alias(d.rqs[r := rq], d.readSide.sort, rq.sector) == Some(a)
    ensures a in d.readSide.sort && a in d.rqs && SameCounters(d, Added(d, r, rq))
    ensures var d', sort := Added(d, r, rq), Remove(d.readSide.sort, a);
      && d'.writeSide.fifo == d.writeSide.fifo && d'.readSide.next == Latter(d.readSide.sort, a)
      && d'.readSide.sort == Insert(sort, Place(d.rqs[r := rq] - {a}, sort, rq.sector), r)
  {
  }

  lemma FirstPlace(rqs: map<nat, Rq>, sort: seq<nat>, r: nat)
    ensures Insert(sort, Place(rqs, sort, 0), r) == [r] + sort
  {
  }

  lemma EvictingRead(d: Data, n: nat)
    requires Listed(d) && n + 1 !in d.rqs && n > 0 && forall r :: 0 <= r < n ==> r in d.rqs && d.rqs[r] == ReadAt(r)
    requires d.readSide.sort == Ids(0, n) && d.writeSide.fifo != []
    ensures Streak(Added(d, n + 1, ReadAt(0)), 1, n) && SameCounters(d, Added(d, n + 1, ReadAt(0)))
  {
    var rqs := d.rqs[n + 1 := ReadAt(0)];
    FirstEvicted(rqs, n);
    AddedOver(d, n + 1, ReadAt(0), 0);
    FirstPlace(rqs - {0}, Ids(1, n), n + 1);
  }

  lemma NoneCounted(d: Data, t: Tunables)
    requires d.batching == 0 && d.starved == 0
    ensures Slack(d, t) == Longest(t)
  {
  }

  lemma StreakBegins(s: State, t: Tunables, n: nat)
    requires WriteQueued(s, n) && n > 0
    ensures Enabled(s, Add(n + 1, ReadAt(0)))
    ensures var s' := Apply(s, t, Add(n + 1, ReadAt(0)));
      StateOk(s') && Streak(s'.d, 1, n) && Slack(s'.d, t) == Longest(t)
  {
    OkIsListed(s.d, {}, {});
    EvictingRead(s.d, n);
    NoneCounted(s.d, t);
    SameSlack(s.d, Added(s.d, n + 1, ReadAt(0)), t);
    StepKeeps(s, t, Add(n + 1, ReadAt(0)));
  }

  // ----- Dispatches

  lemma NextInStreak(k: nat, n: nat)
    requires k < n
    ensures var sort := [n + 1] + Ids(k, n);
      && k in sort && Remove(sort, k) == [n + 1] + Ids(k + 1, n)
      && Latter(sort, k) == (if k + 1 < n then Some(k + 1) else None)
  {
    var sort, rest := [n + 1] + Ids(k, n), Ids(k + 1, n);
    assert sort == [n + 1, k] + rest;
    FirstIs(sort, k, 1);
    assert sort[..1] == [n + 1] && sort[2..] == rest;
    assert k + 1 < n ==> rest == [k + 1] + Ids(k + 2, n);
  }

  /** The next read is chosen, and costs one of the slack. */
  lemma StreakChoice(d: Data, t: Tunables, k: nat)
    requires Ok(d, {}, {}) && d.writeSide.fifo != [] && d.readSide.next == Some(k) && Slack(d, t) > 0
    ensures Choice(d, t, 0) == Some(k) && Slack(Counted(d, t), t) == Slack(d, t) - 1
  {
    if d.batching >= t.fifoBatch {
      OneLess(t.writesStarved - d.starved, Positive(t.fifoBatch));
    }
  }

  lemma MovedRead(d: Data, r: nat)
    requires r in d.rqs && !d.rqs[r].write && r in d.readSide.sort && r in d.readSide.fifo
    ensures var d', sort := Moved(d, r), d.readSide.sort;
      && d'.writeSide.fifo == d.writeSide.fifo && d'.readSide.sort == Remove(sort, r)
      && d'.readSide.next == Latter(sort, r) && SameCounters(d', d)
  {
  }

  lemma MovedInStreak(d: Data, k: nat, n: nat)
    requires Streak(d, k, n) && k < n && k in d.rqs && !d.rqs[k].write && k in d.readSide.sort && k in d.readSide.fifo
    ensures Streak(Moved(d, k), k + 1, n) && SameCounters(Moved(d, k), d)
  {
    NextInStreak(k, n);
    MovedRead(d, k);
  }

  lemma CountedInStreak(d: Data, t: Tunables, k: nat, n: nat)
    requires Streak(d, k, n) && k < n
    ensures Streak(Counted(d, t), k, n) && Counted(d, t).readSide == d.readSide && Counted(d, t).rqs == d.rqs
  {
  }

  lemma StreakGoesOn(d: Data, t: Tunables, k: nat, n: nat)
    requires Ok(d, {}, {}) && Streak(d, k, n) && k < n && Slack(d, t) > 0
    ensures Choice(d, t, 0) == Some(k) && k in d.rqs && !d.rqs[k].write
    ensures Streak(Dispatched(d, t, 0), k + 1, n) && Slack(Dispatched(d, t, 0), t) == Slack(d, t) - 1
  {
    StreakChoice(d, t, k);
    CountedInStreak(d, t, k, n);
    MovedInStreak(Counted(d, t), k, n);
    SameSlack(Moved(Counted(d, t), k), Counted(d, t), t);
  }

  // ----- The run

  datatype Trace = Trace(states: seq<State>, steps: seq<Step>)

  /** A step of a run; if it is a dispatch, it moves no write although one waits. */
  ghost predicate Leads(s: State, t: Tunables, step: Step, s': State) {
    match s case State(d, _, _) =>
      && StateOk(s) && Enabled(s, step) && s' == Apply(s, t, step)
      && (step.Dispatch? ==> d.writeSide.fifo != [] && !MovesWrite(s, t, step))
  }

  /** A relation that holds of such steps; the proofs about traces need no more. */
  ghost predicate Allows(leads: (State, Step, State) -> bool, t: Tunables) {
    forall s, step, s' {:trigger Leads(s, t, step, s')} :: Leads(s, t, step, s') ==> leads(s, step, s')
  }

  ghost predicate Follows(x: Trace, first: State, leads: (State, Step, State) -> bool) {
    match x case Trace(states, steps) => Leading(states, steps, leads) && states[0] == first
  }

  lemma Extended(x: Trace, first: State, leads: (State, Step, State) -> bool, step: Step, s: State) returns (x': Trace)
    requires Follows(x, first, leads) && leads(x.states[|x.steps|], step, s)
    ensures Follows(x', first, leads) && x' == Trace(x.states + [s], x.steps + [step])
    ensures Dispatches(x'.steps) == Dispatches(x.steps) + if step.Dispatch? then 1 else 0
  {
    LeadingOn(x.states, x.steps, leads, step, s);
    x' := Trace(x.states + [s], x.steps + [step]);
    assert (x.steps + [step])[..|x.steps|] == x.steps;
  }

  /** The run has come to n reads. */
  ghost predicate Arrived(x: Trace, leads: (State, Step, State) -> bool, n: nat) {
    match x case Trace(states, steps) =>
      Follows(x, EmptyState(), leads) && Dispatches(steps) == 0 && Queued(states[|steps|], n)
  }

  lemma NextArrives(s: State, leads: (State, Step, State) -> bool, t: Tunables, n: nat) returns (s': State)
    requires Allows(leads, t) && Queued(s, n)
    ensures leads(s, Add(n, ReadAt(n)), s') && Queued(s', n + 1)
  {
    ReadQueued(s, t, n);
    s' := Apply(s, t, Add(n, ReadAt(n)));
    assert Leads(s, t, Add(n, ReadAt(n)), s');
  }

  lemma {:induction false} ReadsArrive(leads: (State, Step, State) -> bool, t: Tunables, n: nat) returns (x: Trace)
    requires Allows(leads, t)
    ensures Arrived(x, leads, n)
  {
    if n == 0 {
      NothingQueued();
      x := Trace([EmptyState()], []);
    } else {
      x := ReadsArrive(leads, t, n - 1);
      var s := NextArrives(x.states[|x.steps|], leads, t, n - 1);
      x := Extended(x, EmptyState(), leads, Add(n - 1, ReadAt(n - 1)), s);
    }
  }

  /** Read k of the streak is next. */
  ghost predicate NextIs(s: State, t: Tunables, k: nat, n: nat) {
    match s case State(d, _, _) => StateOk(s) && Streak(d, k, n) && Slack(d, t) == n - k
  }

  lemma OthersArrive(s: State, leads: (State, Step, State) -> bool, t: Tunables, n: nat) returns (s1: State, s2: State)
    requires Allows(leads, t) && Queued(s, n) && n == Longest(t) + 1
    ensures leads(s, Add(n, WRITE), s1) && leads(s1, Add(n + 1, ReadAt(0)), s2) && NextIs(s2, t, 1, n)
  {
    WriteArrives(s, t, n);
    s1 := Apply(s, t, Add(n, WRITE));
    assert Leads(s, t, Add(n, WRITE), s1);
    StreakBegins(s1, t, n);
    s2 := Apply(s1, t, Add(n + 1, ReadAt(0)));
    assert Leads(s1, t, Add(n + 1, ReadAt(0)), s2);
  }

  ghost predicate Means(at: (State, nat) -> bool, t: Tunables, n: nat) {
    forall s, k: nat {:trigger NextIs(s, t, k, n)} :: at(s, k) <==> NextIs(s, t, k, n)
  }

  /** The run has dispatched k reads. */
  ghost predicate Reaches(x: Trace, leads: (State, Step, State) -> bool, at: (State, nat) -> bool, k: nat) {
    match x case Trace(states, steps) =>
      Follows(x, EmptyState(), leads) && Dispatches(steps) == k && at(states[|steps|], k + 1)
  }

  lemma StreakStarts(leads: (State, Step, State) -> bool, at: (State, nat) -> bool, t: Tunables, n: nat)
    returns (x: Trace)
    requires Allows(leads, t) && Means(at, t, n) && n == Longest(t) + 1
    ensures Reaches(x, leads, at, 0)
  {
    x := ReadsArrive(leads, t, n);
    var s1, s2 := OthersArrive(x.states[|x.steps|], leads, t, n);
    x := Extended(x, EmptyState(), leads, Add(n, WRITE), s1);
    x := Extended(x, EmptyState(), leads, Add(n + 1, ReadAt(0)), s2);
  }

  lemma NextGoes(s: State, leads: (State, Step, State) -> bool, at: (State, nat) -> bool, t: Tunables, k: nat, n: nat)
    returns (s': State)
    requires Allows(leads, t) && Means(at, t, n) && at(s, k) && k < n
    ensures leads(s, Dispatch(0), s') && at(s', k + 1)
  {
    assert NextIs(s, t, k, n);
    StreakGoesOn(s.d, t, k, n);
    StepKeeps(s, t, Dispatch(0));
    s' := Apply(s, t, Dispatch(0));
    assert Leads(s, t, Dispatch(0), s') && NextIs(s', t, k + 1, n);
  }

  lemma ReadGoes(x: Trace, leads: (State, Step, State) -> bool, at: (State, nat) -> bool, t: Tunables, k: nat, n: nat)
    returns (x': Trace)
    requires Allows(leads, t) && Means(at, t, n) && Reaches(x, leads, at, k) && k + 1 < n
    ensures Reaches(x', leads, at, k + 1)
  {
    var s := NextGoes(x.states[|x.steps|], leads, at, t, k + 1, n);
    x' := Extended(x, EmptyState(), leads, Dispatch(0), s);
  }

  lemma {:induction false} ReadsGo(x: Trace, leads: (State, Step, State) -> bool, at: (State, nat) -> bool, t: Tunables,
                                   k: nat, n: nat) returns (x': Trace)
    requires Allows(leads, t) && Means(at, t, n) && Reaches(x, leads, at, 0) && k < n
    ensures Reaches(x', leads, at, k)
  {
    if k == 0 {
      x' := x;
    } else {
      x' := ReadsGo(x, leads, at, t, k - 1, n);
      x' := ReadGoes(x', leads, at, t, k - 1, n);
    }
  }

  lemma AllGo(leads: (State, Step, State) -> bool, at: (State, nat) -> bool, t: Tunables, n: nat) returns (x: Trace)
    requires Allows(leads, t) && Means(at, t, n + 1) && n == Longest(t)
    ensures Follows(x, EmptyState(), leads) && Dispatches(x.steps) == n
  {
    x := StreakStarts(leads, at, t, n + 1);
    x := ReadsGo(x, leads, at, t, n, n + 1);
  }

  lemma FollowsIsRun(x: Trace, leads: (State, Step, State) -> bool, t: Tunables)
    requires Follows(x, EmptyState(), leads)
    requires forall s, step, s' {:trigger leads(s, step, s')} :: leads(s, step, s') ==> Leads(s, t, step, s')
    ensures IsRun(x.states, x.steps, t)
    ensures forall i :: 0 <= i < |x.steps| && x.steps[i].Dispatch? ==>
      x.states[i].d.writeSide.fifo != [] && StateOk(x.states[i]) && !MovesWrite(x.states[i], t, x.steps[i])
  {
    NothingQueued();
    var states, steps := x.states, x.steps;
    forall i {:trigger steps[i]} | 0 <= i < |steps|
      ensures Enabled(states[i], steps[i]) && StateOk(states[i]) && states[i + 1] == Apply(states[i], t, steps[i])
      ensures steps[i].Dispatch? ==> states[i].d.writeSide.fifo != [] && !MovesWrite(states[i], t, steps[i])
    {
      assert leads(states[i], steps[i], states[i + 1]);
    }
  }

  /** Whatever the tunables, some run from the empty scheduler dispatches that many reads while a write waits. */
  lemma BoundIsReached(t: Tunables) returns (states: seq<State>, steps: seq<Step>)
    ensures IsRun(states, steps, t) && states[0] == EmptyState() && Dispatches(steps) == Longest(t)
    ensures forall i :: 0 <= i < |steps| && steps[i].Dispatch? ==>
      states[i].d.writeSide.fifo != [] && StateOk(states[i]) && !MovesWrite(states[i], t, steps[i])
  {
    var leads, n := (s, step, s') => Leads(s, t, step, s'), Longest(t);
    var at := (s, k: nat) => NextIs(s, t, k, n + 1);
    var x := AllGo(leads, at, t, n);
    FollowsIsRun(x, leads, t);
    states, steps := x.states, x.steps;
  }
}
