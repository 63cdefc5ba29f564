/**
 The operations on a queue's requests and merge hash as functions of the whole merge state, and what
 they keep over every run of merges, lookups, insertions and dispatches.
 */
module MergeIndex {
  import opened Options
  import opened MergeHash

  // ----- The queue's merge state and its operations

  /** The queued requests, the merge hash, last_merge and nr_sorted. */
  datatype Index = Index(rqs: map<nat, Rq>, hash: seq<seq<nat>>, last: Option<nat>, nrSorted: int)

  ghost predicate Ok(bucketOf: nat -> nat, x: Index) {
    match x case Index(rqs, hash, last, n) =>
      RqsOk(rqs) && HashOk(bucketOf, rqs, hash, {}) && n == |rqs| && (last.Some? ==> last.value in rqs)
  }

  /** elv_rqhash_add. */
  function Added(bucketOf: nat -> nat, rqs: map<nat, Rq>, hash: seq<seq<nat>>, r: nat): seq<seq<nat>>
    requires r in rqs && bucketOf(Key(rqs[r])) < |hash|
  {
    var b := bucketOf(Key(rqs[r]));
    hash[b := [r] + hash[b]]
  }

  /** elv_rqhash_reposition. */
  function Repositioned(bucketOf: nat -> nat, rqs: map<nat, Rq>, hash: seq<seq<nat>>, r: nat): seq<seq<nat>>
    requires r in rqs && bucketOf(Key(rqs[r])) < |hash|
  {
    Added(bucketOf, rqs, Deleted(hash, r), r)
  }

  /** elv_insert at ELEVATOR_INSERT_SORT. */
  function Inserted(bucketOf: nat -> nat, x: Index, r: nat, rq: Rq): Index
    requires bucketOf(Key(rq)) < |x.hash|
  {
    var rqs := x.rqs[r := rq];
    if Mergeable(rq)
    then Index(rqs, Added(bucketOf, rqs, x.hash, r), if x.last.None? then Some(r) else x.last, x.nrSorted + 1)
    else Index(rqs, x.hash, x.last, x.nrSorted + 1)
  }

  /** elv_dispatch_sort and elv_dispatch_add_tail, up to the dispatch list. */
  function Dispatched(x: Index, r: nat): Index {
    Index(x.rqs - {r}, Deleted(x.hash, r), if x.last == Some(r) then None else x.last, x.nrSorted - 1)
  }

  /** attempt_merge when it succeeds: next's bios pass to r. */
  function JoinedIndex(bucketOf: nat -> nat, x: Index, r: nat, next: nat): Index
    requires r in x.rqs && next in x.rqs && forall k :: bucketOf(k) < |x.hash|
  {
    var rqs := x.rqs[r := Joined(x.rqs[r], x.rqs[next])];
    Index(rqs - {next}, Deleted(Repositioned(bucketOf, rqs, x.hash, r), next), Some(r), x.nrSorted - 1)
  }

  /** The back-merge arm: a merge with the following request is tried before the request is rehashed. */
  function BackArm(bucketOf: nat -> nat, x: Index, r: nat, bio: Bio, next: Option<nat>, fits: bool): Index
    requires r in x.rqs && (next.Some? ==> next.value in x.rqs && next.value != r) && forall k :: bucketOf(k) < |x.hash|
  {
    var rqs := x.rqs[r := BackMerged(x.rqs[r], bio)];
    if next.Some? && CanJoin(rqs[r], rqs[next.value]) && fits
    then JoinedIndex(bucketOf, x.(rqs := rqs), r, next.value)
    else x.(rqs := rqs, hash := Repositioned(bucketOf, rqs, x.hash, r), last := Some(r))
  }

  /** The front-merge arm: the preceding request may take this one over; otherwise nothing is rehashed. */
  function FrontArm(bucketOf: nat -> nat, x: Index, r: nat, bio: Bio, prev: Option<nat>, fits: bool): Index
    requires r in x.rqs && (prev.Some? ==> prev.value in x.rqs && prev.value != r) && forall k :: bucketOf(k) < |x.hash|
  {
    var rqs := x.rqs[r := FrontMerged(x.rqs[r], bio)];
    if prev.Some? && CanJoin(rqs[prev.value], rqs[r]) && fits
    then JoinedIndex(bucketOf, x.(rqs := rqs), prev.value, r)
    else x.(rqs := rqs, last := Some(r))
  }

  /** ll_new_hw_segment or the size test refused a bio: REQ_NOMERGE, and r is no longer tried first. */
  function Refused(x: Index, r: nat): Index
    requires r in x.rqs
  {
    x.(rqs := x.rqs[r := x.rqs[r].(noMerge := true)], last := if x.last == Some(r) then None else x.last)
  }

  // ----- What the operations keep

  lemma RepositionedOk(bucketOf: nat -> nat, rqs: map<nat, Rq>, hash: seq<seq<nat>>, r: nat)
    requires r in rqs && HashOk(bucketOf, rqs, hash, {r})
    ensures HashOk(bucketOf, rqs, Repositioned(bucketOf, rqs, hash, r), {})
  {
    DeletedOk(bucketOf, rqs, hash, r, {r});
    assert {r} + {r} == {r};
    AddedOk(bucketOf, rqs, Deleted(hash, r), r);
  }

  lemma Counted(rqs: map<nat, Rq>, r: nat, rq: Rq)
    ensures |rqs[r := rq]| == |rqs| + if r in rqs then 0 else 1
  {
  }

  lemma InsertedKeeps(bucketOf: nat -> nat, x: Index, r: nat, rq: Rq)
    requires Ok(bucketOf, x) && r !in x.rqs && RqOk(rq) && BioIds(rq.bios) !! Pending(x.rqs)
    ensures Ok(bucketOf, Inserted(bucketOf, x, r, rq))
    ensures Pending(Inserted(bucketOf, x, r, rq).rqs) == Pending(x.rqs) + BioIds(rq.bios)
  {
    PendingNew(x.rqs, r, rq);
    InsertedOk(bucketOf, x.rqs, x.hash, r, rq);
    Counted(x.rqs, r, rq);
    if Mergeable(rq) {
      AddedOk(bucketOf, x.rqs[r := rq], x.hash, r);
    }
  }

  lemma DispatchedKeeps(bucketOf: nat -> nat, x: Index, r: nat)
    requires Ok(bucketOf, x) && r in x.rqs
    ensures Ok(bucketOf, Dispatched(x, r))
    ensures Pending(Dispatched(x, r).rqs) == Pending(x.rqs) - BioIds(x.rqs[r].bios)
  {
    PendingGone(x.rqs, r);
    DeletedOk(bucketOf, x.rqs, x.hash, r, {});
    assert {} + {r} == {r};
    LeftOk(bucketOf, x.rqs, Deleted(x.hash, r), r);
    assert (x.rqs - {r}).Keys == x.rqs.Keys - {r};
  }

  lemma JoinedHashOk(bucketOf: nat -> nat, rqs: map<nat, Rq>, hash: seq<seq<nat>>, r: nat, next: nat)
    requires r in rqs && r != next && HashOk(bucketOf, rqs, hash, {r})
    ensures HashOk(bucketOf, rqs - {next}, Deleted(Repositioned(bucketOf, rqs, hash, r), next), {})
  {
    RepositionedOk(bucketOf, rqs, hash, r);
    var h := Repositioned(bucketOf, rqs, hash, r);
    DeletedOk(bucketOf, rqs, h, next, {});
    assert {} + {next} == {next};
    LeftOk(bucketOf, rqs, Deleted(h, next), next);
  }

  /** Joining keeps the invariant even when r has not been rehashed since its key changed. */
  lemma JoinedKeeps(bucketOf: nat -> nat, x: Index, r: nat, next: nat, stale: set<nat>)
    requires RqsOk(x.rqs) && r in x.rqs && next in x.rqs && r != next && CanJoin(x.rqs[r], x.rqs[next])
    requires HashOk(bucketOf, x.rqs, x.hash, stale) && stale <= {r} && x.nrSorted == |x.rqs|
    ensures Ok(bucketOf, JoinedIndex(bucketOf, x, r, next))
    ensures Pending(JoinedIndex(bucketOf, x, r, next).rqs) == Pending(x.rqs)
  {
    var rq := Joined(x.rqs[r], x.rqs[next]);
    JoinedOk(x.rqs[r], x.rqs[next]);
    RqsJoined(x.rqs, r, next, rq);
    PendingJoined(x.rqs, r, next, rq);
    StaleGrows(bucketOf, x.rqs, x.hash, stale, r, rq);
    JoinedHashOk(bucketOf, x.rqs[r := rq], x.hash, r, next);
    assert (x.rqs[r := rq] - {next}).Keys == x.rqs.Keys - {next};
  }

  lemma BackArmKeeps(bucketOf: nat -> nat, x: Index, r: nat, bio: Bio, next: Option<nat>, fits: bool)
    requires Ok(bucketOf, x) && r in x.rqs && (next.Some? ==> next.value in x.rqs && next.value != r)
    requires bio.id !in Pending(x.rqs) && Key(x.rqs[r]) == bio.sector && x.rqs[r].attr == bio.attr
    ensures Ok(bucketOf, BackArm(bucketOf, x, r, bio, next, fits))
    ensures Pending(BackArm(bucketOf, x, r, bio, next, fits).rqs) == Pending(x.rqs) + {bio.id}
  {
    var rq := BackMerged(x.rqs[r], bio);
    InPending(x.rqs, r);
    BackMergedOk(x.rqs[r], bio);
    PendingChanged(x.rqs, r, rq, {bio.id});
    NewKeyOk(bucketOf, x.rqs, x.hash, r, rq);
    assert x.rqs[r := rq].Keys == x.rqs.Keys;
    if next.Some? && CanJoin(rq, x.rqs[r := rq][next.value]) && fits {
      JoinedKeeps(bucketOf, x.(rqs := x.rqs[r := rq]), r, next.value, {r});
    } else {
      RepositionedOk(bucketOf, x.rqs[r := rq], x.hash, r);
    }
  }

  lemma FrontArmKeeps(bucketOf: nat -> nat, x: Index, r: nat, bio: Bio, prev: Option<nat>, fits: bool)
    requires Ok(bucketOf, x) && r in x.rqs && (prev.Some? ==> prev.value in x.rqs && prev.value != r)
    requires bio.id !in Pending(x.rqs) && bio.sector + bio.sectors == x.rqs[r].sector && x.rqs[r].attr == bio.attr
    ensures Ok(bucketOf, FrontArm(bucketOf, x, r, bio, prev, fits))
    ensures Pending(FrontArm(bucketOf, x, r, bio, prev, fits).rqs) == Pending(x.rqs) + {bio.id}
  {
    var rq := FrontMerged(x.rqs[r], bio);
    InPending(x.rqs, r);
    FrontMergedOk(x.rqs[r], bio);
    PendingChanged(x.rqs, r, rq, {bio.id});
    SameKeyOk(bucketOf, x.rqs, x.hash, r, rq);
    assert x.rqs[r := rq].Keys == x.rqs.Keys;
    if prev.Some? && CanJoin(x.rqs[r := rq][prev.value], rq) && fits {
      JoinedKeeps(bucketOf, x.(rqs := x.rqs[r := rq]), prev.value, r, {});
    }
  }

  lemma RefusedKeeps(bucketOf: nat -> nat, x: Index, r: nat)
    requires Ok(bucketOf, x) && r in x.rqs
    ensures Ok(bucketOf, Refused(x, r)) && Pending(Refused(x, r).rqs) == Pending(x.rqs)
  {
    var rq := x.rqs[r].(noMerge := true);
    assert BioIds(rq.bios) == BioIds(x.rqs[r].bios) + {};
    PendingChanged(x.rqs, r, rq, {});
    SameKeyOk(bucketOf, x.rqs, x.hash, r, rq);
    Counted(x.rqs, r, rq);
  }

  // ----- Lookup

  /**
   elv_rqhash_find over the rest of a bucket: the request found, and the hash without the unmergeable entries passed.
   */
  function Find(rqs: map<nat, Rq>, hash: seq<seq<nat>>, entries: seq<nat>, offset: nat): (Option<nat>, seq<seq<nat>>)
    requires forall r :: r in entries ==> r in rqs
    decreases |entries|
  {
    if entries == [] then (None, hash)
    else
      var r := entries[0];
      if !Mergeable(rqs[r]) then Find(rqs, Deleted(hash, r), entries[1..], offset)
      else if Key(rqs[r]) == offset then (Some(r), hash)
      else Find(rqs, hash, entries[1..], offset)
  }

  lemma {:induction false} FindIsFirst(rqs: map<nat, Rq>, hash: seq<seq<nat>>, entries: seq<nat>, offset: nat)
    requires forall r :: r in entries ==> r in rqs
    ensures var f := Find(rqs, hash, entries, offset).0;
      && (f.Some? ==> f.value in entries && Mergeable(rqs[f.value]) && Key(rqs[f.value]) == offset)
      && (f.None? ==> forall r :: r in entries && Mergeable(rqs[r]) ==> Key(rqs[r]) != offset)
    decreases |entries|
  {
    if entries != [] {
      var r := entries[0];
      FindIsFirst(rqs, if Mergeable(rqs[r]) then hash else Deleted(hash, r), entries[1..], offset);
    }
  }

  lemma {:induction false} FindKeeps(bucketOf: nat -> nat, rqs: map<nat, Rq>, hash: seq<seq<nat>>, entries: seq<nat>,
                                     offset: nat)
    requires HashOk(bucketOf, rqs, hash, {}) && forall r :: r in entries ==> r in rqs
    ensures HashOk(bucketOf, rqs, Find(rqs, hash, entries, offset).1, {})
    decreases |entries|
  {
    if entries != [] {
      var r := entries[0];
      if !Mergeable(rqs[r]) {
        DroppedOk(bucketOf, rqs, hash, r);
        FindKeeps(bucketOf, rqs, Deleted(hash, r), entries[1..], offset);
      } else {
        FindKeeps(bucketOf, rqs, hash, entries[1..], offset);
      }
    }
  }

  /** A lookup finds a request exactly when a mergeable queued one ends at offset. */
  lemma {:induction false} LookupIsExact(bucketOf: nat -> nat, x: Index, offset: nat)
    requires Ok(bucketOf, x)
    ensures var f := Find(x.rqs, x.hash, x.hash[bucketOf(offset)], offset).0;
      && (f.Some? <==> exists r :: r in x.rqs && Mergeable(x.rqs[r]) && Key(x.rqs[r]) == offset)
      && (f.Some? ==> f.value in x.rqs && Mergeable(x.rqs[f.value]) && Key(x.rqs[f.value]) == offset)
  {
    FindIsFirst(x.rqs, x.hash, x.hash[bucketOf(offset)], offset);
  }

  lemma BucketIsQueued(bucketOf: nat -> nat, x: Index, offset: nat)
    requires Ok(bucketOf, x)
    ensures bucketOf(offset) < |x.hash| && forall r :: r in x.hash[bucketOf(offset)] ==> r in x.rqs
  {
  }

  lemma {:induction false} LookupKeeps(bucketOf: nat -> nat, x: Index, offset: nat)
    requires Ok(bucketOf, x)
    ensures Ok(bucketOf, x.(hash := Find(x.rqs, x.hash, x.hash[bucketOf(offset)], offset).1))
  {
    FindKeeps(bucketOf, x.rqs, x.hash, x.hash[bucketOf(offset)], offset);
  }

  // ----- Runs

  /**
   A bio merged behind or before a queued request, a bio refused by the limits, a new request, a lookup, a dispatch.
   */
  datatype Step =
    | BackMerge(r: nat, bio: Bio, other: Option<nat>, fits: bool)
    | FrontMerge(r: nat, bio: Bio, other: Option<nat>, fits: bool)
    | Refuse(r: nat)
    | Insert(r: nat, rq: Rq, bio: Bio)
    | Lookup(offset: nat)
    | Dispatch(r: nat)

  /** A run's state: the bios submitted so far and those of dispatched requests. */
  datatype Run = Run(x: Index, submitted: set<nat>, gone: set<nat>)

  /** The step can be taken: every bio is submitted once, and only to a request it touches and agrees with. */
  ghost predicate Enabled(s: Run, step: Step) {
    match step
    case BackMerge(r, bio, other, _) =>
      && bio.id !in s.submitted && r in s.x.rqs && Key(s.x.rqs[r]) == bio.sector && s.x.rqs[r].attr == bio.attr
      && (other.Some? ==> other.value in s.x.rqs && other.value != r)
    case FrontMerge(r, bio, other, _) =>
      && bio.id !in s.submitted && r in s.x.rqs && bio.sector + bio.sectors == s.x.rqs[r].sector
      && s.x.rqs[r].attr == bio.attr && (other.Some? ==> other.value in s.x.rqs && other.value != r)
    case Refuse(r) => r in s.x.rqs
    case Insert(r, rq, bio) =>
      && bio.id !in s.submitted && r !in s.x.rqs
      && rq.bios == [bio] && rq.sector == bio.sector && rq.nrSectors == bio.sectors && rq.attr == bio.attr
    case Lookup(_) => true
    case Dispatch(r) => r in s.x.rqs
  }

  ghost function Apply(bucketOf: nat -> nat, s: Run, step: Step): Run
    requires Enabled(s, step) && Ok(bucketOf, s.x)
  {
    match step
    case BackMerge(r, bio, other, fits) =>
      Run(BackArm(bucketOf, s.x, r, bio, other, fits), s.submitted + {bio.id}, s.gone)
    case FrontMerge(r, bio, other, fits) =>
      Run(FrontArm(bucketOf, s.x, r, bio, other, fits), s.submitted + {bio.id}, s.gone)
    case Refuse(r) => s.(x := Refused(s.x, r))
    case Insert(r, rq, bio) => Run(Inserted(bucketOf, s.x, r, rq), s.submitted + {bio.id}, s.gone)
    case Lookup(offset) => s.(x := s.x.(hash := Find(s.x.rqs, s.x.hash, s.x.hash[bucketOf(offset)], offset).1))
    case Dispatch(r) => Run(Dispatched(s.x, r), s.submitted, s.gone + BioIds(s.x.rqs[r].bios))
  }

  /** The index is right, and each submitted bio is either dispatched or in exactly one queued request. */
  ghost predicate RunOk(bucketOf: nat -> nat, s: Run) {
    match s case Run(x, submitted, gone) =>
      Ok(bucketOf, x) && submitted == Pending(x.rqs) + gone && Pending(x.rqs) !! gone
  }

  /** A step that submits the bios added and dispatches the bios done keeps the account. */
  lemma Accounted(bucketOf: nat -> nat, s: Run, x: Index, added: set<nat>, done: set<nat>)
    requires RunOk(bucketOf, s) && Ok(bucketOf, x) && added !! s.submitted && done <= Pending(s.x.rqs)
    requires Pending(x.rqs) == Pending(s.x.rqs) + added - done
    ensures RunOk(bucketOf, Run(x, s.submitted + added, s.gone + done))
  {
  }

  lemma EmptyIsNeutral(s: set<nat>)
    ensures s + {} == s && s - {} == s
  {
  }

  lemma MergeKeeps(bucketOf: nat -> nat, s: Run, step: Step)
    requires RunOk(bucketOf, s) && Enabled(s, step) && (step.BackMerge? || step.FrontMerge?)
    ensures RunOk(bucketOf, Apply(bucketOf, s, step))
  {
    var x' := Apply(bucketOf, s, step).x;
    if step.BackMerge? {
      BackArmKeeps(bucketOf, s.x, step.r, step.bio, step.other, step.fits);
    } else {
      FrontArmKeeps(bucketOf, s.x, step.r, step.bio, step.other, step.fits);
    }
    EmptyIsNeutral(s.gone);
    EmptyIsNeutral(Pending(s.x.rqs) + {step.bio.id});
    Accounted(bucketOf, s, x', {step.bio.id}, {});
  }

  lemma InsertKeeps(bucketOf: nat -> nat, s: Run, step: Step)
    requires RunOk(bucketOf, s) && Enabled(s, step) && step.Insert?
    ensures RunOk(bucketOf, Apply(bucketOf, s, step))
  {
    SingleBio(step.bio);
    InsertedKeeps(bucketOf, s.x, step.r, step.rq);
    EmptyIsNeutral(s.gone);
    EmptyIsNeutral(Pending(s.x.rqs) + {step.bio.id});
    Accounted(bucketOf, s, Apply(bucketOf, s, step).x, {step.bio.id}, {});
  }

  lemma DispatchKeeps(bucketOf: nat -> nat, s: Run, step: Step)
    requires RunOk(bucketOf, s) && Enabled(s, step) && step.Dispatch?
    ensures RunOk(bucketOf, Apply(bucketOf, s, step))
  {
    InPending(s.x.rqs, step.r);
    DispatchedKeeps(bucketOf, s.x, step.r);
    EmptyIsNeutral(s.submitted);
    EmptyIsNeutral(Pending(s.x.rqs));
    Accounted(bucketOf, s, Apply(bucketOf, s, step).x, {}, BioIds(s.x.rqs[step.r].bios));
  }

  lemma StepKeeps(bucketOf: nat -> nat, s: Run, step: Step)
    requires RunOk(bucketOf, s) && Enabled(s, step)
    ensures RunOk(bucketOf, Apply(bucketOf, s, step))
  {
    match step
    case BackMerge(_, _, _, _) =>
      MergeKeeps(bucketOf, s, step);
    case FrontMerge(_, _, _, _) =>
      MergeKeeps(bucketOf, s, step);
    case Refuse(r) =>
      RefusedKeeps(bucketOf, s.x, r);
    case Insert(_, _, _) =>
      InsertKeeps(bucketOf, s, step);
    case Lookup(offset) =>
      LookupKeeps(bucketOf, s.x, offset);
    case Dispatch(_) =>
      DispatchKeeps(bucketOf, s, step);
  }

  /** The states of a run, step by step. */
  ghost predicate IsRun(bucketOf: nat -> nat, states: seq<Run>, steps: seq<Step>) {
    && |states| == |steps| + 1
    && states[0].x.rqs == map[] && states[0].x.last == None && states[0].x.nrSorted == 0
    && states[0].submitted == {} && states[0].gone == {}
    && (forall k :: bucketOf(k) < |states[0].x.hash|)
    && (forall b :: 0 <= b < |states[0].x.hash| ==> states[0].x.hash[b] == [])
    && forall i :: 0 <= i < |steps| ==>
      && Enabled(states[i], steps[i])
      && (Ok(bucketOf, states[i].x) ==> states[i + 1] == Apply(bucketOf, states[i], steps[i]))
  }

  /** Over every run, requests stay gapless runs, the index stays right and no bio is lost or duplicated. */
  lemma {:induction false} RunKeeps(bucketOf: nat -> nat, states: seq<Run>, steps: seq<Step>, n: nat)
    requires IsRun(bucketOf, states, steps) && n < |states|
    ensures RunOk(bucketOf, states[n])
  {
    if n > 0 {
      RunKeeps(bucketOf, states, steps, n - 1);
      StepKeeps(bucketOf, states[n - 1], steps[n - 1]);
    }
  }
}
