/**
 Discard and data bios in one request. elv_rq_merge_ok keeps them apart for bios; attempt_merge does not compare
 the kinds of the two requests it joins, so requests stay of one kind exactly while every join taken is of equals.
 */
module MergeKinds {
  import opened Options
  import opened MergeHash
  import opened MergeIndex
  import opened Runs

  /** All bios of the request are of one kind. */
  ghost predicate Uniform(rq: Rq) {
    forall i :: 0 <= i < |rq.bios| ==> rq.bios[i].discard == rq.bios[0].discard
  }

  predicate SameKind(a: Rq, b: Rq)
    requires a.bios != [] && b.bios != []
  {
    a.bios[0].discard == b.bios[0].discard
  }

  /** Two requests that attempt_merge joins make a request of one kind exactly if they are of the same kind. */
  lemma JoinedUniformExactly(a: Rq, b: Rq)
    requires a.bios != [] && b.bios != [] && Uniform(a) && Uniform(b)
    ensures Uniform(Joined(a, b)) <==> SameKind(a, b)
  {
    var bios := a.bios + b.bios;
    assert bios[|a.bios|] == b.bios[0] && bios[0] == a.bios[0];
  }

  lemma BackMergedUniform(rq: Rq, bio: Bio)
    requires rq.bios != [] && Uniform(rq) && bio.discard == rq.bios[0].discard
    ensures Uniform(BackMerged(rq, bio)) && SameKind(BackMerged(rq, bio), rq)
  {
  }

  lemma FrontMergedUniform(rq: Rq, bio: Bio)
    requires rq.bios != [] && Uniform(rq) && bio.discard == rq.bios[0].discard
    ensures Uniform(FrontMerged(rq, bio)) && SameKind(FrontMerged(rq, bio), rq)
  {
  }

  /**
   A discard request at sectors 0 to 8 takes over a read at 8 to 16: a discard without the barrier flag is no write.
   */
  lemma DiscardTakesRead(disk: nat)
    ensures var attr := Attr(false, disk, false);
      var a := Rq([Bio(0, 0, 8, true, attr)], 0, 8, false, true, false, attr);
      var b := Rq([Bio(1, 8, 8, false, attr)], 8, 8, false, true, false, attr);
      RqOk(a) && RqOk(b) && Uniform(a) && Uniform(b) && CanJoin(a, b) && !Uniform(Joined(a, b))
  {
    var attr := Attr(false, disk, false);
    var a := Rq([Bio(0, 0, 8, true, attr)], 0, 8, false, true, false, attr);
    var b := Rq([Bio(1, 8, 8, false, attr)], 8, 8, false, true, false, attr);
    JoinedUniformExactly(a, b);
  }

  // ----- Over runs

  ghost predicate AllUniform(rqs: map<nat, Rq>) {
    forall r :: r in rqs ==> rqs[r].bios != [] && Uniform(rqs[r])
  }

  /** The bio of a merge has passed elv_rq_merge_ok. */
  ghost predicate Checked(s: Run, step: Step) {
    match step
    case BackMerge(r, bio, _, _) => r in s.x.rqs && s.x.rqs[r].bios != [] && MergeOk(s.x.rqs[r], bio, true)
    case FrontMerge(r, bio, _, _) => r in s.x.rqs && s.x.rqs[r].bios != [] && MergeOk(s.x.rqs[r], bio, true)
    case _ => true
  }

  /** If the merge goes on to join the neighbour, the neighbour is of the same kind. */
  ghost predicate JoinsAlike(s: Run, step: Step) {
    match step
    case BackMerge(r, bio, other, fits) =>
      && r in s.x.rqs && (other.Some? ==> other.value in s.x.rqs)
      && (other.Some? && CanJoin(BackMerged(s.x.rqs[r], bio), s.x.rqs[other.value]) && fits ==>
          Alike(s.x.rqs, r, other.value))
    case FrontMerge(r, bio, other, fits) =>
      && r in s.x.rqs && (other.Some? ==> other.value in s.x.rqs)
      && (other.Some? && CanJoin(s.x.rqs[other.value], FrontMerged(s.x.rqs[r], bio)) && fits ==>
          Alike(s.x.rqs, other.value, r))
    case _ => true
  }

  ghost predicate Alike(rqs: map<nat, Rq>, r: nat, next: nat)
    requires r in rqs && next in rqs
  {
    rqs[r].bios != [] && rqs[next].bios != [] && SameKind(rqs[r], rqs[next])
  }

  lemma TakenUniformExactly(rqs: map<nat, Rq>, r: nat, next: nat)
    requires AllUniform(rqs) && r in rqs && next in rqs && r != next
    ensures AllUniform(rqs[r := Joined(rqs[r], rqs[next])] - {next}) <==> Alike(rqs, r, next)
  {
    JoinedUniformExactly(rqs[r], rqs[next]);
    var rqs' := rqs[r := Joined(rqs[r], rqs[next])] - {next};
    assert r in rqs' && rqs'[r] == Joined(rqs[r], rqs[next]);
  }

  lemma BackArmUniformExactly(bucketOf: nat -> nat, x: Index, r: nat, bio: Bio, next: Option<nat>, fits: bool)
    requires r in x.rqs && (next.Some? ==> next.value in x.rqs && next.value != r) && forall k :: bucketOf(k) < |x.hash|
    requires AllUniform(x.rqs) && bio.discard == x.rqs[r].bios[0].discard
    ensures AllUniform(BackArm(bucketOf, x, r, bio, next, fits).rqs) <==>
      (next.Some? && CanJoin(BackMerged(x.rqs[r], bio), x.rqs[next.value]) && fits ==> Alike(x.rqs, r, next.value))
  {
    BackMergedUniform(x.rqs[r], bio);
    var rqs := x.rqs[r := BackMerged(x.rqs[r], bio)];
    if next.Some? && CanJoin(rqs[r], rqs[next.value]) && fits {
      TakenUniformExactly(rqs, r, next.value);
    }
  }

  lemma FrontArmUniformExactly(bucketOf: nat -> nat, x: Index, r: nat, bio: Bio, prev: Option<nat>, fits: bool)
    requires r in x.rqs && (prev.Some? ==> prev.value in x.rqs && prev.value != r) && forall k :: bucketOf(k) < |x.hash|
    requires AllUniform(x.rqs) && bio.discard == x.rqs[r].bios[0].discard
    ensures AllUniform(FrontArm(bucketOf, x, r, bio, prev, fits).rqs) <==>
      (prev.Some? && CanJoin(x.rqs[prev.value], FrontMerged(x.rqs[r], bio)) && fits ==> Alike(x.rqs, prev.value, r))
  {
    FrontMergedUniform(x.rqs[r], bio);
    var rqs := x.rqs[r := FrontMerged(x.rqs[r], bio)];
    if prev.Some? && CanJoin(rqs[prev.value], rqs[r]) && fits {
      TakenUniformExactly(rqs, prev.value, r);
    }
  }

  /** A step keeps every queued request of one kind exactly if the join it takes, if any, is of equals. */
  lemma StepUniformExactly(bucketOf: nat -> nat, s: Run, step: Step)
    requires Ok(bucketOf, s.x) && Enabled(s, step) && AllUniform(s.x.rqs) && Checked(s, step)
    ensures AllUniform(Apply(bucketOf, s, step).x.rqs) <==> JoinsAlike(s, step)
  {
    if step.BackMerge? {
      BackArmUniformExactly(bucketOf, s.x, step.r, step.bio, step.other, step.fits);
    } else if step.FrontMerge? {
      FrontArmUniformExactly(bucketOf, s.x, step.r, step.bio, step.other, step.fits);
    } else {
      OthersUniform(bucketOf, s, step);
    }
  }

  lemma OthersUniform(bucketOf: nat -> nat, s: Run, step: Step)
    requires Ok(bucketOf, s.x) && Enabled(s, step) && AllUniform(s.x.rqs) && !step.BackMerge? && !step.FrontMerge?
    ensures AllUniform(Apply(bucketOf, s, step).x.rqs)
  {
    var rqs := Apply(bucketOf, s, step).x.rqs;
    forall r | r in rqs ensures rqs[r].bios != [] && Uniform(rqs[r]) {
      if r in s.x.rqs {
        OthersStay(bucketOf, s, step, r);
      }
    }
  }

  lemma MoveUniformExactly(bucketOf: nat -> nat, states: seq<Run>, steps: seq<Step>, i: nat)
    requires IsRun(bucketOf, states, steps) && i < |steps| && AllUniform(states[i].x.rqs)
    requires Checked(states[i], steps[i])
    ensures AllUniform(states[i + 1].x.rqs) <==> JoinsAlike(states[i], steps[i])
  {
    RunKeeps(bucketOf, states, steps, i);
    StepUniformExactly(bucketOf, states[i], steps[i]);
  }

  /** Over a run, every queued request stays of one kind exactly if every join taken is of requests of the same kind. */
  lemma UniformExactly(bucketOf: nat -> nat, states: seq<Run>, steps: seq<Step>, n: nat)
    requires IsRun(bucketOf, states, steps) && n < |states|
    requires forall i {:trigger steps[i]} :: 0 <= i < |steps| ==> Checked(states[i], steps[i])
    ensures (forall i :: 0 <= i <= n ==> AllUniform(states[i].x.rqs)) <==>
      (forall i {:trigger steps[i]} :: 0 <= i < n ==> JoinsAlike(states[i], steps[i]))
  {
    var good, fine := (s: Run) => AllUniform(s.x.rqs), (s: Run, step: Step) => JoinsAlike(s, step);
    forall i {:trigger steps[i]} | 0 <= i < |steps| && good(states[i])
      ensures good(states[i + 1]) <==> fine(states[i], steps[i])
    {
      MoveUniformExactly(bucketOf, states, steps, i);
    }
    GoodWhileFine(states, steps, good, fine, n);
    assert GoodUpTo(states, good, n) <==> forall i :: 0 <= i <= n ==> AllUniform(states[i].x.rqs);
  }

  // ----- Requests that are kept out of merges

  /** elv_rq_merge_ok refuses for any one of these reasons, and for no other. */
  lemma MergeRefusedExactly(rq: Rq, bio: Bio, allowed: bool)
    requires rq.bios != []
    ensures !MergeOk(rq, bio, allowed) <==>
      || rq.noMerge || !rq.mergeKind || rq.special || !allowed || bio.discard != rq.bios[0].discard
      || bio.attr.write != rq.attr.write || bio.attr.disk != rq.attr.disk || bio.attr.integrity != rq.attr.integrity
  {
  }

  /** REQ_NOMERGE is set, or the request is neither the file system's nor a discard. */
  ghost predicate Barred(rq: Rq) {
    rq.noMerge || !rq.mergeKind
  }

  /** What the back arm does to a request other than the one that takes the bio. */
  lemma BackArmOthers(bucketOf: nat -> nat, x: Index, taker: nat, bio: Bio, next: Option<nat>, fits: bool, r: nat)
    requires taker in x.rqs && (next.Some? ==> next.value in x.rqs && next.value != taker)
    requires r in x.rqs && r != taker && forall k :: bucketOf(k) < |x.hash|
    ensures var rqs := BackArm(bucketOf, x, taker, bio, next, fits).rqs;
      if r in rqs then rqs[r] == x.rqs[r] else Mergeable(x.rqs[r]) && !x.rqs[r].special
  {
  }

  /** The front arm may also give another request the bios of the taker. */
  lemma FrontArmOthers(bucketOf: nat -> nat, x: Index, taker: nat, bio: Bio, prev: Option<nat>, fits: bool, r: nat)
    requires taker in x.rqs && (prev.Some? ==> prev.value in x.rqs && prev.value != taker)
    requires r in x.rqs && r != taker && forall k :: bucketOf(k) < |x.hash|
    ensures var rqs := FrontArm(bucketOf, x, taker, bio, prev, fits).rqs;
      r in rqs && (rqs[r] == x.rqs[r] || (prev == Some(r) && fits && Mergeable(x.rqs[r])))
  {
  }

  lemma OthersStay(bucketOf: nat -> nat, s: Run, step: Step, r: nat)
    requires Ok(bucketOf, s.x) && Enabled(s, step) && r in s.x.rqs && !step.BackMerge? && !step.FrontMerge?
    ensures var rq, rqs := s.x.rqs[r], Apply(bucketOf, s, step).x.rqs;
      if step == Dispatch(r) then r !in rqs
      else r in rqs && (rqs[r] == rq || rqs[r] == rq.(noMerge := true))
  {
  }

  /** Such a request keeps its bios and its place on the disk until it is dispatched. */
  lemma BarredStays(bucketOf: nat -> nat, s: Run, step: Step, r: nat)
    requires Ok(bucketOf, s.x) && Enabled(s, step) && Checked(s, step) && r in s.x.rqs && Barred(s.x.rqs[r])
    ensures var rq, rqs := s.x.rqs[r], Apply(bucketOf, s, step).x.rqs;
      && (r in rqs <==> step != Dispatch(r))
      && (r in rqs ==>
          rqs[r].bios == rq.bios && rqs[r].sector == rq.sector && rqs[r].nrSectors == rq.nrSectors && Barred(rqs[r]))
  {
    match step
    case BackMerge(taker, bio, other, fits) => BackArmOthers(bucketOf, s.x, taker, bio, other, fits, r);
    case FrontMerge(taker, bio, other, fits) => FrontArmOthers(bucketOf, s.x, taker, bio, other, fits, r);
    case _ => OthersStay(bucketOf, s, step, r);
  }

  /** A request with special data takes no bio and is not taken over. */
  lemma SpecialStays(bucketOf: nat -> nat, s: Run, step: Step, r: nat)
    requires Ok(bucketOf, s.x) && Enabled(s, step) && Checked(s, step) && r in s.x.rqs && s.x.rqs[r].special
    ensures var rqs := Apply(bucketOf, s, step).x.rqs;
      && (r in rqs <==> step != Dispatch(r))
      && (r in rqs && rqs[r].bios != s.x.rqs[r].bios ==> step.FrontMerge? && step.other == Some(r) && step.fits)
  {
    match step
    case BackMerge(taker, bio, other, fits) => BackArmOthers(bucketOf, s.x, taker, bio, other, fits, r);
    case FrontMerge(taker, bio, other, fits) => FrontArmOthers(bucketOf, s.x, taker, bio, other, fits, r);
    case _ => OthersStay(bucketOf, s, step, r);
  }

  lemma BarredStep(bucketOf: nat -> nat, states: seq<Run>, steps: seq<Step>, n: nat, r: nat)
    requires IsRun(bucketOf, states, steps) && n < |steps| && Checked(states[n], steps[n]) && steps[n] != Dispatch(r)
    requires r in states[n].x.rqs && Barred(states[n].x.rqs[r])
    ensures r in states[n + 1].x.rqs && states[n + 1].x.rqs[r].bios == states[n].x.rqs[r].bios
    ensures Barred(states[n + 1].x.rqs[r])
  {
    RunKeeps(bucketOf, states, steps, n);
    BarredStays(bucketOf, states[n], steps[n], r);
  }

  /** Over a run, a barred request has the same bios until its dispatch. */
  lemma BarredStaysThroughout(bucketOf: nat -> nat, states: seq<Run>, steps: seq<Step>, m: nat, n: nat, r: nat)
    requires IsRun(bucketOf, states, steps) && m <= n < |states|
    requires forall i {:trigger steps[i]} :: 0 <= i < |steps| ==> Checked(states[i], steps[i])
    requires r in states[m].x.rqs && Barred(states[m].x.rqs[r])
    requires forall i {:trigger steps[i]} :: m <= i < n ==> steps[i] != Dispatch(r)
    ensures r in states[n].x.rqs && states[n].x.rqs[r].bios == states[m].x.rqs[r].bios && Barred(states[n].x.rqs[r])
  {
    var bios := states[m].x.rqs[r].bios;
    var ok := (s: Run) => r in s.x.rqs && s.x.rqs[r].bios == bios && Barred(s.x.rqs[r]);
    forall i, next | m <= i < next <= n && next == i + 1 && ok(states[i]) ensures ok(states[next]) {
      BarredStep(bucketOf, states, steps, i, r);
    }
    HoldsFrom(states, ok, m, n);
  }

  // ----- The request that is tried first

  /** last_merge names a queued request that may still take bios. */
  ghost predicate LastMayTake(x: Index) {
    x.last.Some? ==> x.last.value in x.rqs && Mergeable(x.rqs[x.last.value])
  }

  /** A refused request is marked, and no longer tried first; nothing else changes. */
  lemma RefusedExactly(x: Index, r: nat)
    requires r in x.rqs
    ensures var x' := Refused(x, r);
      && x'.rqs.Keys == x.rqs.Keys && x'.rqs[r] == x.rqs[r].(noMerge := true)
      && (forall q :: q in x.rqs && q != r ==> x'.rqs[q] == x.rqs[q])
      && x'.last != Some(r) && (x.last != Some(r) ==> x'.last == x.last)
  {
  }

  /** The first mergeable request that is inserted is the one tried first, until another takes a bio or it leaves. */
  lemma LastKept(bucketOf: nat -> nat, x: Index, r: nat, rq: Rq)
    requires bucketOf(Key(rq)) < |x.hash| && r !in x.rqs
    ensures x.last.Some? ==> Inserted(bucketOf, x, r, rq).last == x.last
    ensures x.last.None? ==> (Inserted(bucketOf, x, r, rq).last == Some(r) <==> !rq.noMerge && rq.mergeKind)
    ensures Dispatched(x, r).last != Some(r) && (x.last != Some(r) ==> Dispatched(x, r).last == x.last)
  {
  }

  /** After a merge the request tried first is the one that holds the bio. */
  lemma LastHoldsBio(bucketOf: nat -> nat, x: Index, r: nat, bio: Bio, other: Option<nat>, fits: bool)
    requires r in x.rqs && (other.Some? ==> other.value in x.rqs && other.value != r)
    requires forall k :: bucketOf(k) < |x.hash|
    ensures var x' := BackArm(bucketOf, x, r, bio, other, fits);
      x'.last.Some? && x'.last.value in x'.rqs && bio in x'.rqs[x'.last.value].bios
    ensures var x' := FrontArm(bucketOf, x, r, bio, other, fits);
      x'.last.Some? && x'.last.value in x'.rqs && bio in x'.rqs[x'.last.value].bios
  {
    var back, front := BackMerged(x.rqs[r], bio), FrontMerged(x.rqs[r], bio);
    assert back.bios[|x.rqs[r].bios|] == bio && front.bios[0] == bio;
    if other.Some? {
      var all, taken := Joined(back, x.rqs[other.value]).bios, Joined(x.rqs[other.value], front).bios;
      assert all[|x.rqs[r].bios|] == bio && taken[|x.rqs[other.value].bios|] == bio;
    }
  }

  lemma LastAfterArms(bucketOf: nat -> nat, x: Index, r: nat, bio: Bio, other: Option<nat>, fits: bool)
    requires r in x.rqs && (other.Some? ==> other.value in x.rqs && other.value != r) && Mergeable(x.rqs[r])
    requires forall k :: bucketOf(k) < |x.hash|
    ensures LastMayTake(BackArm(bucketOf, x, r, bio, other, fits))
    ensures LastMayTake(FrontArm(bucketOf, x, r, bio, other, fits))
  {
  }

  lemma LastAfterOthers(bucketOf: nat -> nat, s: Run, step: Step)
    requires Ok(bucketOf, s.x) && Enabled(s, step) && LastMayTake(s.x) && !step.BackMerge? && !step.FrontMerge?
    ensures LastMayTake(Apply(bucketOf, s, step).x)
  {
    match step
    case Insert(r, rq, _) => LastAfterInsert(bucketOf, s.x, r, rq);
    case Refuse(r) => LastAfterLeaving(s.x, r);
    case Dispatch(r) => LastAfterLeaving(s.x, r);
    case _ =>
  }

  lemma LastAfterInsert(bucketOf: nat -> nat, x: Index, r: nat, rq: Rq)
    requires bucketOf(Key(rq)) < |x.hash| && r !in x.rqs && LastMayTake(x)
    ensures LastMayTake(Inserted(bucketOf, x, r, rq))
  {
  }

  lemma LastAfterLeaving(x: Index, r: nat)
    requires r in x.rqs && LastMayTake(x)
    ensures LastMayTake(Refused(x, r)) && LastMayTake(Dispatched(x, r))
  {
  }

  /** With every bio checked, last_merge always names a request that may take bios. */
  lemma LastMayTakeKept(bucketOf: nat -> nat, s: Run, step: Step)
    requires Ok(bucketOf, s.x) && Enabled(s, step) && Checked(s, step) && LastMayTake(s.x)
    ensures LastMayTake(Apply(bucketOf, s, step).x)
  {
    if step.BackMerge? || step.FrontMerge? {
      LastAfterArms(bucketOf, s.x, step.r, step.bio, step.other, step.fits);
    } else {
      LastAfterOthers(bucketOf, s, step);
    }
  }
}
