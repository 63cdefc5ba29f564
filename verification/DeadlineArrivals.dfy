/**
 The arrival lists of the deadline scheduler over runs: they stay in the order of expiry, because a merged
 request takes over the place of the earlier one together with its expiry time.
 */
module DeadlineArrivals {
  import opened Options
  import opened SortList
  import opened Deadline
  import opened DeadlineRuns

  /** The lists of both directions are in the order of expiry times. */
  ghost predicate BothInTime(d: Data) {
    InTime(d.rqs, d.readSide.fifo) && InTime(d.rqs, d.writeSide.fifo)
  }

  /** The list holds queued requests of one direction, each once. */
  ghost predicate ListOk(rqs: map<nat, Rq>, fifo: seq<nat>, write: bool) {
    NoDup(fifo) && forall x :: x in fifo ==> x in rqs && rqs[x].write == write
  }

  ghost predicate ListsOk(d: Data) {
    ListOk(d.rqs, d.readSide.fifo, false) && ListOk(d.rqs, d.writeSide.fifo, true)
  }

  lemma OkLists(d: Data, noSort: set<nat>, noFifo: set<nat>)
    requires Ok(d, noSort, noFifo)
    ensures ListsOk(d)
  {
  }

  /** The second list is the first with some requests gone; expiry times are the same. */
  ghost predicate Thinned(rqs: map<nat, Rq>, fifo: seq<nat>, rqs': map<nat, Rq>, fifo': seq<nat>) {
    && (InTime(rqs, fifo) ==> InTime(rqs', fifo'))
    && (forall x :: x in fifo' ==> x in fifo && StampOf(rqs', x) == StampOf(rqs, x))
  }

  ghost predicate BothThinned(d: Data, e: Data) {
    && Thinned(d.rqs, d.readSide.fifo, e.rqs, e.readSide.fifo)
    && Thinned(d.rqs, d.writeSide.fifo, e.rqs, e.writeSide.fifo)
  }

  lemma RemovedThins(rqs: map<nat, Rq>, fifo: seq<nat>, r: nat)
    requires NoDup(fifo) && r in fifo
    ensures Thinned(rqs, fifo, rqs - {r}, Remove(fifo, r))
  {
    RemoveKeeps(fifo, r);
    if InTime(rqs, fifo) {
      InTimeRemoves(rqs, fifo, r);
      InTimeElsewhere(rqs, rqs - {r}, Remove(fifo, r));
    }
  }

  lemma ElsewhereThins(rqs: map<nat, Rq>, rqs': map<nat, Rq>, fifo: seq<nat>)
    requires forall x :: x in fifo ==> StampOf(rqs', x) == StampOf(rqs, x)
    ensures Thinned(rqs, fifo, rqs', fifo)
  {
    if InTime(rqs, fifo) {
      InTimeElsewhere(rqs, rqs', fifo);
    }
  }

  lemma MovedThins(d: Data, r: nat)
    requires ListsOk(d) && r in d.rqs && r in Get(d, d.rqs[r].write).sort && r in Get(d, d.rqs[r].write).fifo
    ensures BothThinned(d, Moved(d, r))
  {
    var write := d.rqs[r].write;
    RemovedThins(d.rqs, Get(d, write).fifo, r);
    ElsewhereThins(d.rqs, d.rqs - {r}, Get(d, !write).fifo);
  }

  lemma SameThins(d: Data)
    ensures BothThinned(d, d)
  {
  }

  lemma AddedRbThins(d: Data, r: nat)
    requires ListsOk(d) && Listed(d) && r in d.rqs
    ensures BothThinned(d, AddedRb(d, r))
  {
    var a := Alias(d.rqs, Get(d, d.rqs[r].write).sort, d.rqs[r].sector);
    if a.Some? {
      MovedThins(d, a.value);
    } else {
      SameThins(d);
    }
  }

  /** The arriving request expires last in its direction. */
  ghost predicate ArrivesLast(d: Data, rq: Rq) {
    forall x :: x in Get(d, rq.write).fifo ==> StampOf(d.rqs, x) <= rq.stamp
  }

  lemma AppendedInTime(d: Data, r: nat, write: bool)
    requires BothInTime(d) && forall x :: x in Get(d, write).fifo ==> StampOf(d.rqs, x) <= StampOf(d.rqs, r)
    ensures BothInTime(Put(d, write, Get(d, write).(fifo := Get(d, write).fifo + [r])))
  {
    InTimeAppends(d.rqs, Get(d, write).fifo, r);
  }

  lemma NewIsElsewhere(d: Data, r: nat, rq: Rq)
    requires ListsOk(d) && r !in d.rqs
    ensures var a := d.(rqs := d.rqs[r := rq]); ListsOk(a) && BothThinned(d, a)
  {
    ElsewhereThins(d.rqs, d.rqs[r := rq], d.readSide.fifo);
    ElsewhereThins(d.rqs, d.rqs[r := rq], d.writeSide.fifo);
  }

  lemma AddedRbHas(d: Data, r: nat)
    requires Listed(d) && r in d.rqs && r !in Get(d, d.rqs[r].write).sort
    ensures StampOf(AddedRb(d, r).rqs, r) == d.rqs[r].stamp
  {
  }

  lemma StillLast(d: Data, e: Data, write: bool, stamp: nat)
    requires BothThinned(d, e) && forall x :: x in Get(d, write).fifo ==> StampOf(d.rqs, x) <= stamp
    ensures forall x :: x in Get(e, write).fifo ==> StampOf(e.rqs, x) <= stamp
  {
  }

  lemma AddedInTime(d: Data, r: nat, rq: Rq)
    requires ListsOk(d) && Listed(d) && r !in d.rqs && BothInTime(d) && ArrivesLast(d, rq)
    ensures BothInTime(Added(d, r, rq))
  {
    var a := d.(rqs := d.rqs[r := rq]);
    NewIsElsewhere(d, r, rq);
    ListedGrows(d, r, rq);
    StillLast(d, a, rq.write, rq.stamp);
    AddedRbThins(a, r);
    AddedRbHas(a, r);
    StillLast(a, AddedRb(a, r), rq.write, rq.stamp);
    AppendedInTime(AddedRb(a, r), r, rq.write);
  }

  lemma ChangedInTime(d: Data, r: nat, rq: Rq)
    requires BothInTime(d) && r in d.rqs && rq.stamp == d.rqs[r].stamp
    ensures BothInTime(d.(rqs := d.rqs[r := rq]))
  {
    InTimeElsewhere(d.rqs, d.rqs[r := rq], d.readSide.fifo);
    InTimeElsewhere(d.rqs, d.rqs[r := rq], d.writeSide.fifo);
  }

  lemma FrontMergedInTime(d: Data, r: nat, rq: Rq)
    requires Ok(d, {}, {}) && r in d.rqs && rq.write == d.rqs[r].write && rq.stamp == d.rqs[r].stamp && BothInTime(d)
    ensures Listed(Unsorted(d, r, rq)) && BothInTime(AddedRb(Unsorted(d, r, rq), r))
  {
    FrontMergedKeeps(d, r, rq);
    UnsortedKeeps(d, r, rq);
    OkLists(Unsorted(d, r, rq), {r}, {});
    ChangedInTime(d, r, rq);
    AddedRbThins(Unsorted(d, r, rq), r);
  }

  lemma MergedRequestsInTime(d: Data, r: nat, next: nat, rq: Rq)
    requires Ok(d, {}, {}) && r in d.rqs && next in d.rqs && r != next && BothInTime(d)
    requires d.rqs[r].write == d.rqs[next].write == rq.write && rq.stamp == d.rqs[r].stamp
    ensures BothInTime(MergedRequests(d, r, next, rq))
  {
    OkLists(d, {}, {});
    OkPlaces(d, r);
    OkPlaces(d, next);
    ListsMerge(d, r, next, rq);
  }

  lemma ListsMerge(d: Data, r: nat, next: nat, rq: Rq)
    requires ListsOk(d) && r in d.rqs && next in d.rqs && r != next && BothInTime(d)
    requires d.rqs[r].write == d.rqs[next].write == rq.write && rq.stamp == d.rqs[r].stamp
    requires next in Get(d, rq.write).sort && r in Get(d, rq.write).fifo && next in Get(d, rq.write).fifo
    ensures BothInTime(MergedRequests(d, r, next, rq))
  {
    var e, fifo := MergedRequests(d, r, next, rq), Get(d, rq.write).fifo;
    StampsTaken(d, r, next, rq, fifo);
    MovedInTime(d.rqs, e.rqs, fifo, r, next);
    MergedLists(d, r, next, rq);
    StampsTaken(d, r, next, rq, Get(d, !rq.write).fifo);
    OthersElsewhere(d, e.rqs, r, next, Get(d, !rq.write).fifo);
  }

  lemma StampsTaken(d: Data, r: nat, next: nat, rq: Rq, fifo: seq<nat>)
    requires r in d.rqs && next in d.rqs && r != next && rq.stamp == d.rqs[r].stamp
    ensures EarlierTaken(d.rqs, d.rqs[r := Hurried(d, r, next, rq)] - {next}, fifo, r, next)
  {
  }

  lemma OthersElsewhere(d: Data, rqs': map<nat, Rq>, r: nat, next: nat, fifo: seq<nat>)
    requires InTime(d.rqs, fifo) && EarlierTaken(d.rqs, rqs', fifo, r, next) && r !in fifo && next !in fifo
    ensures InTime(rqs', fifo)
  {
    InTimeElsewhere(d.rqs, rqs', fifo);
  }

  lemma MergedLists(d: Data, r: nat, next: nat, rq: Rq)
    requires r in d.rqs && next in d.rqs && r != next && d.rqs[r].write == d.rqs[next].write == rq.write
    requires next in Get(d, rq.write).sort && r in Get(d, rq.write).fifo && next in Get(d, rq.write).fifo
    requires next in MergedFifo(Get(d, rq.write).fifo, r, next, d.rqs[next].stamp < d.rqs[r].stamp)
    ensures var e := MergedRequests(d, r, next, rq);
      var fifo := MergedFifo(Get(d, rq.write).fifo, r, next, d.rqs[next].stamp < d.rqs[r].stamp);
      Get(e, rq.write).fifo == Remove(fifo, next) && Get(e, !rq.write) == Get(d, !rq.write)
  {
  }

  lemma DispatchedInTime(d: Data, t: Tunables, now: nat)
    requires Ok(d, {}, {}) && BothInTime(d)
    ensures BothInTime(Dispatched(d, t, now))
  {
    var c := Choice(d, t, now);
    ChoiceExists(d, t, now);
    if c.Some? {
      OkLists(d, {}, {});
      OkPlaces(d, c.value);
      CountedLists(d, t);
      MovedThins(Counted(d, t), c.value);
    }
  }

  lemma OkPlaces(d: Data, r: nat)
    requires Ok(d, {}, {}) && r in d.rqs
    ensures r in Get(d, d.rqs[r].write).sort && r in Get(d, d.rqs[r].write).fifo
  {
  }

  lemma CountedLists(d: Data, t: Tunables)
    ensures var e := Counted(d, t); e.rqs == d.rqs && e.readSide == d.readSide && e.writeSide == d.writeSide
  {
  }

  // ----- Runs

  /** An arrival, if it is one, expires last in its direction. */
  ghost predicate ArrivalLast(s: State, step: Step) {
    step.Add? ==> ArrivesLast(s.d, step.rq)
  }

  lemma StepInTime(s: State, t: Tunables, step: Step)
    requires StateOk(s) && Enabled(s, step) && BothInTime(s.d) && ArrivalLast(s, step)
    ensures BothInTime(Apply(s, t, step).d)
  {
    OkIsListed(s.d, {}, {});
    OkLists(s.d, {}, {});
    match step
    case Add(r, rq) => AddedInTime(s.d, r, rq);
    case Grow(r, n) => ChangedInTime(s.d, r, s.d.rqs[r].(sectors := n));
    case FrontMerge(r, sector, n) => FrontMergedInTime(s.d, r, s.d.rqs[r].(sector := sector, sectors := n));
    case Join(r, next, n) => MergedRequestsInTime(s.d, r, next, s.d.rqs[r].(sectors := n));
    case Dispatch(now) => DispatchedInTime(s.d, t, now);
  }

  /** When requests arrive in the order of their expiry, both arrival lists stay in that order throughout a run. */
  lemma {:induction false} RunInTime(states: seq<State>, steps: seq<Step>, t: Tunables, n: nat)
    requires IsRun(states, steps, t) && n < |states| && BothInTime(states[0].d)
    requires forall i {:trigger steps[i]} :: 0 <= i < |steps| ==> ArrivalLast(states[i], steps[i])
    ensures BothInTime(states[n].d)
  {
    if n > 0 {
      RunInTime(states, steps, t, n - 1);
      RunKeeps(states, steps, t, n - 1);
      StepInTime(states[n - 1], t, steps[n - 1]);
    }
  }

  /**
   So a dispatch outside a batch goes to the most urgent request of the chosen direction as soon as any
   request of that direction has expired.
   */
  lemma MostUrgentGoesFirst(states: seq<State>, steps: seq<Step>, t: Tunables, n: nat, now: nat, x: nat)
    requires IsRun(states, steps, t) && n < |states| && BothInTime(states[0].d)
    requires forall i {:trigger steps[i]} :: 0 <= i < |steps| ==> ArrivalLast(states[i], steps[i])
    requires var d := states[n].d;
      && !(Batch(d).Some? && d.batching < t.fifoBatch)
      && x in d.rqs && d.rqs[x].write == ChoosesWrites(d, t) && d.rqs[x].stamp < now
    ensures StateOk(states[n])
    ensures var d := states[n].d; var c := Choice(d, t, now);
      c.Some? && c.value in d.rqs && d.rqs[c.value].write == d.rqs[x].write && d.rqs[c.value].stamp <= d.rqs[x].stamp
  {
    RunKeeps(states, steps, t, n);
    RunInTime(states, steps, t, n);
    HeadIsUrgent(states[n].d, t, now, x);
  }

  lemma HeadIsUrgent(d: Data, t: Tunables, now: nat, x: nat)
    requires Ok(d, {}, {}) && BothInTime(d) && !(Batch(d).Some? && d.batching < t.fifoBatch)
    requires x in d.rqs && d.rqs[x].write == ChoosesWrites(d, t) && d.rqs[x].stamp < now
    ensures var c := Choice(d, t, now);
      c.Some? && c.value in d.rqs && d.rqs[c.value].write == d.rqs[x].write && d.rqs[c.value].stamp <= d.rqs[x].stamp
  {
    ExpiredGoesFirst(d, t, now);
    OkLists(d, {}, {});
    var fifo := Get(d, ChoosesWrites(d, t)).fifo;
    assert x in fifo;
    var i :| 0 <= i < |fifo| && fifo[i] == x;
    assert fifo[0] in d.rqs && StampOf(d.rqs, fifo[0]) <= StampOf(d.rqs, fifo[i]);
  }
}
