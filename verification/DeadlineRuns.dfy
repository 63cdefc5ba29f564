/**
 Runs of the deadline scheduler: every request is dispatched once, and waiting writes are not starved
 for longer than the tunables allow.
 */
module DeadlineRuns {
  import opened Options
  import opened SortList
  import opened Ledger
  import opened Deadline

  /** A request arrives, grows at its end or start, takes over another one, or a dispatch is asked for. */
  datatype Step =
    | Add(r: nat, rq: Rq)
    | Grow(r: nat, sectors: nat)
    | FrontMerge(r: nat, sector: nat, sectors: nat)
    | Join(r: nat, next: nat, sectors: nat)
    | Dispatch(now: nat)

  /** The scheduler, the requests that have arrived and those merged into others. */
  datatype State = State(d: Data, seen: set<nat>, joined: set<nat>)

  ghost predicate Enabled(s: State, step: Step) {
    match step
    case Add(r, rq) => r !in s.seen
    case Grow(r, _) => r in s.d.rqs
    case FrontMerge(r, _, _) => r in s.d.rqs
    case Join(r, next, _) => r in s.d.rqs && next in s.d.rqs && r != next && s.d.rqs[r].write == s.d.rqs[next].write
    case Dispatch(_) => true
  }

  ghost function Apply(s: State, t: Tunables, step: Step): State
    requires Ok(s.d, {}, {}) && Enabled(s, step) && forall r :: r in s.d.rqs ==> r in s.seen
  {
    OkIsListed(s.d, {}, {});
    match step
    case Add(r, rq) => State(Added(s.d, r, rq), s.seen + {r}, s.joined)
    case Grow(r, n) => s.(d := s.d.(rqs := s.d.rqs[r := s.d.rqs[r].(sectors := n)]))
    case FrontMerge(r, sector, n) =>
      var rq := s.d.rqs[r].(sector := sector, sectors := n);
      FrontMergedKeeps(s.d, r, rq);
      s.(d := AddedRb(Unsorted(s.d, r, rq), r))
    case Join(r, next, n) =>
      s.(d := MergedRequests(s.d, r, next, s.d.rqs[r].(sectors := n)), joined := s.joined + {next})
    case Dispatch(now) => s.(d := Dispatched(s.d, t, now))
  }

  // ----- Every request is dispatched once

  lemma EvictedAccounted(d: Data, write: bool, sector: nat, seen: set<nat>, joined: set<nat>)
    requires Listed(d) && Accounted(d.rqs, d.out, seen, joined)
    ensures Accounted(Evicted(d, write, sector).rqs, Evicted(d, write, sector).out, seen, joined)
  {
    var a := Alias(d.rqs, Get(d, write).sort, sector);
    if a.Some? {
      MovedTakes(d, a.value);
      MovedAccounted(d.rqs, d.out, seen, joined, a.value);
    }
  }

  ghost predicate StateOk(s: State) {
    match s case State(d, seen, joined) => Ok(d, {}, {}) && Accounted(d.rqs, d.out, seen, joined)
  }

  lemma AddKeeps(s: State, t: Tunables, step: Step)
    requires StateOk(s) && Enabled(s, step) && step.Add?
    ensures StateOk(Apply(s, t, step))
  {
    var d := s.d;
    OkIsListed(d, {}, {});
    AddedKeeps(d, step.r, step.rq);
    ListedGrows(d, step.r, step.rq);
    NewAccounted(d.rqs, d.out, s.seen, s.joined, step.r, step.rq);
    EvictedAccounted(d.(rqs := d.rqs[step.r := step.rq]), step.rq.write, step.rq.sector, s.seen + {step.r}, s.joined);
  }

  lemma FrontMergeKeeps(s: State, t: Tunables, step: Step)
    requires StateOk(s) && Enabled(s, step) && step.FrontMerge?
    ensures StateOk(Apply(s, t, step))
  {
    var rq := s.d.rqs[step.r].(sector := step.sector, sectors := step.sectors);
    FrontMergedKeeps(s.d, step.r, rq);
    ChangedAccounted(s.d.rqs, s.d.out, s.seen, s.joined, step.r, rq);
    EvictedAccounted(Unsorted(s.d, step.r, rq), rq.write, rq.sector, s.seen, s.joined);
  }

  lemma JoinKeeps(s: State, t: Tunables, step: Step)
    requires StateOk(s) && Enabled(s, step) && step.Join?
    ensures StateOk(Apply(s, t, step))
  {
    var rq := s.d.rqs[step.r].(sectors := step.sectors);
    MergedRequestsKeeps(s.d, step.r, step.next, rq);
    JoinedAccounted(s.d.rqs, s.d.out, s.seen, s.joined, step.r, Hurried(s.d, step.r, step.next, rq), step.next);
  }

  lemma GrowKeeps(s: State, t: Tunables, step: Step)
    requires StateOk(s) && Enabled(s, step) && step.Grow?
    ensures StateOk(Apply(s, t, step))
  {
    var rq := s.d.rqs[step.r].(sectors := step.sectors);
    GrownSideOk(s.d.rqs, s.d.readSide, false, step.r, rq);
    GrownSideOk(s.d.rqs, s.d.writeSide, true, step.r, rq);
    ChangedAccounted(s.d.rqs, s.d.out, s.seen, s.joined, step.r, rq);
  }

  lemma DispatchKeeps(s: State, t: Tunables, step: Step)
    requires StateOk(s) && step.Dispatch?
    ensures StateOk(Apply(s, t, step))
  {
    DispatchedKeeps(s.d, t, step.now);
    var c := Choice(s.d, t, step.now);
    if c.Some? {
      MovedAccounted(s.d.rqs, s.d.out, s.seen, s.joined, c.value);
    }
  }

  lemma StepKeeps(s: State, t: Tunables, step: Step)
    requires StateOk(s) && Enabled(s, step)
    ensures StateOk(Apply(s, t, step))
  {
    match step
    case Add(_, _) => AddKeeps(s, t, step);
    case Grow(_, _) => GrowKeeps(s, t, step);
    case FrontMerge(_, _, _) => FrontMergeKeeps(s, t, step);
    case Join(_, _, _) => JoinKeeps(s, t, step);
    case Dispatch(_) => DispatchKeeps(s, t, step);
  }

  /** A run from any right state, with fixed tunables. */
  ghost predicate IsRun(states: seq<State>, steps: seq<Step>, t: Tunables) {
    && |states| == |steps| + 1 && StateOk(states[0])
    && forall i :: 0 <= i < |steps| ==>
      Enabled(states[i], steps[i]) && (StateOk(states[i]) ==> states[i + 1] == Apply(states[i], t, steps[i]))
  }

  /**
   Over every run both lists hold the same requests, at most one next request is set, and each request leaves once.
   */
  lemma {:induction false} RunKeeps(states: seq<State>, steps: seq<Step>, t: Tunables, n: nat)
    requires IsRun(states, steps, t) && n < |states|
    ensures StateOk(states[n])
  {
    if n > 0 {
      RunKeeps(states, steps, t, n - 1);
      StepKeeps(states[n - 1], t, steps[n - 1]);
    }
  }

  // ----- Starvation

  function Positive(n: nat): nat {
    if n == 0 then 1 else n
  }

  /** How many more reads can be dispatched before a waiting write. */
  function Slack(d: Data, t: Tunables): nat {
    (if d.batching < t.fifoBatch then t.fifoBatch - d.batching else 0)
    + (if d.starved < t.writesStarved then t.writesStarved - d.starved else 0) * Positive(t.fifoBatch)
  }

  /** The most reads a waiting write can see dispatched. */
  function Longest(t: Tunables): nat {
    t.writesStarved * Positive(t.fifoBatch) + t.fifoBatch
  }

  lemma SlackBound(d: Data, t: Tunables)
    ensures Slack(d, t) <= Longest(t)
  {
  }

  lemma OneLess(k: nat, m: nat)
    requires k > 0
    ensures k * m == (k - 1) * m + m
  {
  }

  /** Moving a request leaves the counters alone. */
  lemma MovedCounters(d: Data, r: nat)
    requires r in d.rqs && r in Get(d, d.rqs[r].write).sort && r in Get(d, d.rqs[r].write).fifo
    ensures Moved(d, r).batching == d.batching && Moved(d, r).starved == d.starved
  {
  }

  /** Dispatching a read while writes wait uses up slack. */
  lemma ReadCosts(d: Data, t: Tunables, now: nat)
    requires Ok(d, {}, {}) && d.writeSide.fifo != [] && Choice(d, t, now).Some?
    requires Choice(d, t, now).value in d.rqs && !d.rqs[Choice(d, t, now).value].write
    ensures Slack(Dispatched(d, t, now), t) < Slack(d, t)
  {
    var c := Choice(d, t, now).value;
    CountedKeeps(d, t);
    MovedCounters(Counted(d, t), c);
    if Batch(d).Some? && d.batching < t.fifoBatch {
    } else {
      assert !ChoosesWrites(d, t) by {
        if ChoosesWrites(d, t) {
          BestIsOfSide(d, true, now);
        }
      }
      OneLess(t.writesStarved - d.starved, Positive(t.fifoBatch));
    }
  }

  lemma BestIsOfSide(d: Data, write: bool, now: nat)
    requires Ok(d, {}, {}) && Get(d, write).fifo != []
    ensures Best(d, write, now) in d.rqs && d.rqs[Best(d, write, now)].write == write
  {
  }

  predicate SameCounters(d: Data, e: Data) {
    d.batching == e.batching && d.starved == e.starved
  }

  lemma AddedRbCounters(d: Data, r: nat)
    requires Listed(d) && r in d.rqs
    ensures SameCounters(d, AddedRb(d, r))
  {
  }

  lemma AddIsFree(s: State, t: Tunables, step: Step)
    requires StateOk(s) && Enabled(s, step) && step.Add?
    ensures SameCounters(s.d, Apply(s, t, step).d)
  {
  }

  lemma FrontMergeIsFree(s: State, t: Tunables, step: Step)
    requires StateOk(s) && Enabled(s, step) && step.FrontMerge?
    ensures SameCounters(s.d, Apply(s, t, step).d)
  {
    var rq := s.d.rqs[step.r].(sector := step.sector, sectors := step.sectors);
    FrontMergedKeeps(s.d, step.r, rq);
    AddedRbCounters(Unsorted(s.d, step.r, rq), step.r);
  }

  /** No other step changes the slack. */
  lemma OthersAreFree(s: State, t: Tunables, step: Step)
    requires StateOk(s) && Enabled(s, step) && !step.Dispatch?
    ensures SameCounters(s.d, Apply(s, t, step).d)
  {
    if step.Add? {
      AddIsFree(s, t, step);
    } else if step.FrontMerge? {
      FrontMergeIsFree(s, t, step);
    }
  }

  function Dispatches(steps: seq<Step>): nat {
    if steps == [] then 0 else Dispatches(steps[..|steps| - 1]) + if steps[|steps| - 1].Dispatch? then 1 else 0
  }

  /** The step is a dispatch that moves a write. */
  ghost predicate MovesWrite(s: State, t: Tunables, step: Step)
    requires StateOk(s)
  {
    step.Dispatch? && var c := Choice(s.d, t, step.now); c.Some? && c.value in s.d.rqs && s.d.rqs[c.value].write
  }

  lemma SameSlack(d: Data, e: Data, t: Tunables)
    requires SameCounters(d, e)
    ensures Slack(d, t) == Slack(e, t)
  {
  }

  lemma StepPays(s: State, t: Tunables, step: Step)
    requires StateOk(s) && Enabled(s, step) && (step.Dispatch? ==> s.d.writeSide.fifo != []) && !MovesWrite(s, t, step)
    ensures Slack(Apply(s, t, step).d, t) + (if step.Dispatch? then 1 else 0) <= Slack(s.d, t)
  {
    if step.Dispatch? {
      ChoiceExists(s.d, t, step.now);
      assert s.d.writeSide.fifo[0] in s.d.writeSide.fifo;
      ReadCosts(s.d, t, step.now);
    } else {
      OthersAreFree(s, t, step);
      SameSlack(s.d, Apply(s, t, step).d, t);
    }
  }

  /** What every dispatch takes away bounds the number of dispatches. */
  lemma {:induction false} SlackPays(slack: seq<nat>, steps: seq<Step>, n: nat)
    requires |slack| == |steps| + 1 && n <= |steps|
    requires forall i :: 0 <= i < n ==> slack[i + 1] + (if steps[i].Dispatch? then 1 else 0) <= slack[i]
    ensures Dispatches(steps[..n]) + slack[n] <= slack[0]
  {
    if n > 0 {
      SlackPays(slack, steps, n - 1);
      assert steps[..n][..n - 1] == steps[..n - 1] && steps[..n][n - 1] == steps[n - 1];
    }
  }

  /**
   While writes stay queued, some write is dispatched within writes_starved * max(1, fifo_batch) + fifo_batch + 1
   dispatches, whatever arrivals, evictions and merges come between.
   */
  lemma WritesAreNotStarved(states: seq<State>, steps: seq<Step>, t: Tunables) returns (i: nat)
    requires IsRun(states, steps, t)
    requires forall i :: 0 <= i < |steps| && steps[i].Dispatch? ==> states[i].d.writeSide.fifo != []
    requires Dispatches(steps) > Longest(t)
    ensures i < |steps| && StateOk(states[i]) && MovesWrite(states[i], t, steps[i])
  {
    assert steps[..|steps|] == steps;
    forall k | 0 <= k < |states| ensures StateOk(states[k]) {
      RunKeeps(states, steps, t, k);
    }
    if k :| 0 <= k < |steps| && MovesWrite(states[k], t, steps[k]) {
      i := k;
    } else {
      ReadsOnly(states, steps, t);
      assert false;
    }
  }

  lemma {:induction false} ReadsOnly(states: seq<State>, steps: seq<Step>, t: Tunables)
    requires IsRun(states, steps, t) && forall i :: 0 <= i < |states| ==> StateOk(states[i])
    requires forall i :: 0 <= i < |steps| ==>
      (steps[i].Dispatch? ==> states[i].d.writeSide.fifo != []) && !MovesWrite(states[i], t, steps[i])
    ensures Dispatches(steps) <= Longest(t)
  {
    var slack := seq(|states|, i requires 0 <= i < |states| => Slack(states[i].d, t));
    forall i | 0 <= i < |steps| ensures slack[i + 1] + (if steps[i].Dispatch? then 1 else 0) <= slack[i] {
      StepPays(states[i], t, steps[i]);
    }
    SlackPays(slack, steps, |steps|);
    assert steps[..|steps|] == steps;
    SlackBound(states[0].d, t);
  }

  // ----- The other direction

  /** How many more writes can be dispatched before a waiting read. */
  function WriteSlack(d: Data, t: Tunables): nat {
    (if d.batching < t.fifoBatch then t.fifoBatch - d.batching else 0)
    + if d.starved >= t.writesStarved then Positive(t.fifoBatch) else 0
  }

  /** The most writes a waiting read can see dispatched. */
  function LongestWrites(t: Tunables): nat {
    t.fifoBatch + Positive(t.fifoBatch)
  }

  /** Dispatching a write while reads wait uses up slack. */
  lemma WriteCosts(d: Data, t: Tunables, now: nat)
    requires Ok(d, {}, {}) && d.readSide.fifo != [] && t.writesStarved > 0 && Choice(d, t, now).Some?
    requires Choice(d, t, now).value in d.rqs && d.rqs[Choice(d, t, now).value].write
    ensures WriteSlack(Dispatched(d, t, now), t) < WriteSlack(d, t)
  {
    var c := Choice(d, t, now).value;
    CountedKeeps(d, t);
    MovedCounters(Counted(d, t), c);
    if !(Batch(d).Some? && d.batching < t.fifoBatch) && !ChoosesWrites(d, t) {
      BestIsOfSide(d, false, now);
      assert false;
    }
  }

  /** The step is a dispatch that moves a read. */
  ghost predicate MovesRead(s: State, t: Tunables, step: Step)
    requires StateOk(s)
  {
    step.Dispatch? && var c := Choice(s.d, t, step.now); c.Some? && c.value in s.d.rqs && !s.d.rqs[c.value].write
  }

  lemma WriteStepPays(s: State, t: Tunables, step: Step)
    requires StateOk(s) && Enabled(s, step) && (step.Dispatch? ==> s.d.readSide.fifo != []) && !MovesRead(s, t, step)
    requires t.writesStarved > 0
    ensures WriteSlack(Apply(s, t, step).d, t) + (if step.Dispatch? then 1 else 0) <= WriteSlack(s.d, t)
  {
    if step.Dispatch? {
      ChoiceExists(s.d, t, step.now);
      assert s.d.readSide.fifo[0] in s.d.readSide.fifo;
      WriteCosts(s.d, t, step.now);
    } else {
      OthersAreFree(s, t, step);
    }
  }

  lemma {:induction false} WritesOnly(states: seq<State>, steps: seq<Step>, t: Tunables)
    requires IsRun(states, steps, t) && t.writesStarved > 0 && forall i :: 0 <= i < |states| ==> StateOk(states[i])
    requires forall i :: 0 <= i < |steps| ==>
      (steps[i].Dispatch? ==> states[i].d.readSide.fifo != []) && !MovesRead(states[i], t, steps[i])
    ensures Dispatches(steps) <= LongestWrites(t)
  {
    var slack := seq(|states|, i requires 0 <= i < |states| => WriteSlack(states[i].d, t));
    forall i | 0 <= i < |steps| ensures slack[i + 1] + (if steps[i].Dispatch? then 1 else 0) <= slack[i] {
      WriteStepPays(states[i], t, steps[i]);
    }
    SlackPays(slack, steps, |steps|);
    assert steps[..|steps|] == steps;
  }

  /**
   While reads stay queued and writes_starved is above 0, some read is dispatched within
   fifo_batch + max(1, fifo_batch) + 1 dispatches.
   */
  lemma ReadsAreNotStarved(states: seq<State>, steps: seq<Step>, t: Tunables) returns (i: nat)
    requires IsRun(states, steps, t) && t.writesStarved > 0
    requires forall i :: 0 <= i < |steps| && steps[i].Dispatch? ==> states[i].d.readSide.fifo != []
    requires Dispatches(steps) > LongestWrites(t)
    ensures i < |steps| && StateOk(states[i]) && MovesRead(states[i], t, steps[i])
  {
    forall k | 0 <= k < |states| ensures StateOk(states[k]) {
      RunKeeps(states, steps, t, k);
    }
    if k :| 0 <= k < |steps| && MovesRead(states[k], t, steps[k]) {
      i := k;
    } else {
      WritesOnly(states, steps, t);
      assert false;
    }
  }
}
