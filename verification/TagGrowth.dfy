/**
 Runs of queues that share a tag map, with resizes as blk_queue_resize_tags carries them out: the new depth is limited
 to twice the request limit, which may cut the map below the tags in use.
 */
module TagGrowth {
  import opened Options
  import opened Tags
  import opened TagQueue

  /** A step of the queues, or a resize beyond the real depth. */
  datatype Move = Plain(step: Step) | Resize(newDepth: nat, nrRequests: nat)

  ghost predicate MoveEnabled(s: State, kinds: nat -> Kind, m: Move) {
    match m
    case Plain(step) => !step.Grow? && Enabled(s, kinds, step)
    case Resize(newDepth, _) => newDepth > |s.bits| && |s.pcs| == 1 && forall q :: q in s.pcs ==> s.pcs[q] == Idle
  }

  ghost function Next(s: State, kinds: nat -> Kind, m: Move): State
    requires MoveEnabled(s, kinds, m)
  {
    match m
    case Plain(step) => Apply(s, step)
    case Resize(newDepth, nrRequests) =>
      var depth := Clamped(newDepth, nrRequests);
      s.(bits := Kept(s.bits, false, depth), index := Kept(s.index, None, depth), maxDepth := depth)
  }

  /** Every request in flight can be released. */
  ghost predicate AllReleasable(s: State) {
    forall r :: r in s.tags ==> Releasable(s.bits, s.index, s.tags[r], r)
  }

  /** A resize, if it is one, leaves the tags in use inside the map. */
  ghost predicate Covers(s: State, m: Move) {
    m.Resize? ==> forall r :: r in s.tags ==> s.tags[r] < 2 * m.nrRequests
  }

  lemma OkIsReleasable(s: State, kinds: nat -> Kind)
    requires Ok(s, kinds)
    ensures AllReleasable(s)
  {
    forall r | r in s.tags ensures Releasable(s.bits, s.index, s.tags[r], r) {
      assert Holds(s, ByRq(r), s.tags[r]);
    }
  }

  lemma CoveringKeeps(s: State, kinds: nat -> Kind, m: Move)
    requires Ok(s, kinds) && MoveEnabled(s, kinds, m) && m.Resize? && Covers(s, m)
    ensures Ok(Next(s, kinds, m), kinds)
  {
    var s' := Next(s, kinds, m);
    OkIsReleasable(s, kinds);
    forall t: nat | t < |s'.bits| && s'.bits[t] ensures exists o :: Holds(s', o, t) {
      var o :| Holds(s, o, t);
      assert Holds(s', o, t);
    }
    forall o, t: nat | Holds(s', o, t) ensures t < |s'.bits| && s'.bits[t] && Holds(s, o, t) {
      assert Holds(s, o, t);
    }
  }

  lemma CutLoses(s: State, kinds: nat -> Kind, m: Move)
    requires Ok(s, kinds) && MoveEnabled(s, kinds, m) && !Covers(s, m)
    ensures !AllReleasable(Next(s, kinds, m))
  {
    var r :| r in s.tags && s.tags[r] >= 2 * m.nrRequests;
    assert !Releasable(Next(s, kinds, m).bits, Next(s, kinds, m).index, s.tags[r], r);
  }

  lemma MoveExactly(s: State, kinds: nat -> Kind, m: Move)
    requires Ok(s, kinds) && MoveEnabled(s, kinds, m)
    ensures AllReleasable(Next(s, kinds, m)) <==> Covers(s, m)
    ensures Covers(s, m) ==> Ok(Next(s, kinds, m), kinds)
  {
    if !Covers(s, m) {
      CutLoses(s, kinds, m);
    } else {
      if m.Plain? {
        StepKeeps(s, kinds, m.step);
      } else {
        CoveringKeeps(s, kinds, m);
      }
      OkIsReleasable(Next(s, kinds, m), kinds);
    }
  }

  /** A run from a free map with every queue at rest. */
  ghost predicate IsGrowingRun(states: seq<State>, moves: seq<Move>, kinds: nat -> Kind) {
    && |states| == |moves| + 1 && IsRun([states[0]], [], kinds)
    && forall i {:trigger moves[i]} :: 0 <= i < |moves| ==>
      && MoveEnabled(states[i], kinds, moves[i])
      && (Ok(states[i], kinds) ==> states[i + 1] == Next(states[i], kinds, moves[i]))
  }

  /**
   Over every run: requests in flight stay releasable exactly while each resize leaves twice the request limit above
   the tags in use.
   */
  lemma {:induction false} StayReleasableExactly(states: seq<State>, moves: seq<Move>, kinds: nat -> Kind, n: nat)
    requires IsGrowingRun(states, moves, kinds) && n < |states|
    ensures (forall i :: 0 <= i <= n ==> AllReleasable(states[i])) <==>
      (forall i {:trigger moves[i]} :: 0 <= i < n ==> Covers(states[i], moves[i]))
    ensures (forall i :: 0 <= i <= n ==> AllReleasable(states[i])) ==> Ok(states[n], kinds)
  {
    if n == 0 {
      RunKeeps([states[0]], [], kinds, 0);
    } else {
      StayReleasableExactly(states, moves, kinds, n - 1);
      if Ok(states[n - 1], kinds) {
        MoveExactly(states[n - 1], kinds, moves[n - 1]);
      }
    }
  }

  /** A map of nine free tags and one queue. */
  function NineFree(): State {
    State(seq(9, _ => false), seq(9, _ => None), 9, map[], map[0 := Idle])
  }

  /** A synchronous request takes the last tag, and the map is grown to ten with the smallest request limit, 4. */
  function LosingMoves(): seq<Move> {
    [Plain(Begin(0, 0)), Plain(Find(0, 8)), Plain(TestAndSet(0)), Plain(Publish(0)), Resize(10, 4)]
  }

  function LosingStates(): seq<State> {
    var s0 := NineFree();
    var s1, s2 := s0.(pcs := map[0 := Searching(0, 9)]), s0.(pcs := map[0 := Found(0, 9, 8)]);
    var s3 := s0.(bits := s0.bits[8 := true], pcs := map[0 := Locked(0, 8)]);
    var s4 := State(s3.bits, s0.index[8 := Some(0)], 9, map[0 := 8], map[0 := Idle]);
    [s0, s1, s2, s3, s4, s4.(bits := s4.bits[..8], index := s4.index[..8], maxDepth := 8)]
  }

  lemma TagTaken(kinds: nat -> Kind)
    requires kinds(0) == Kind(0, true)
    ensures var states, moves := LosingStates(), LosingMoves();
      forall i {:trigger moves[i]} :: 0 <= i < 4 ==>
        MoveEnabled(states[i], kinds, moves[i]) && states[i + 1] == Next(states[i], kinds, moves[i])
  {
    var s0 := NineFree();
    assert map[0 := Idle][0 := Searching(0, 9)] == map[0 := Searching(0, 9)];
    assert map[0 := Searching(0, 9)][0 := Found(0, 9, 8)] == map[0 := Found(0, 9, 8)];
    assert map[0 := Found(0, 9, 8)][0 := Locked(0, 8)] == map[0 := Locked(0, 8)];
    assert map[0 := Locked(0, 8)][0 := Idle] == map[0 := Idle];
    assert s0.tags[0 := 8] == map[0 := 8];
  }

  lemma EighthIsLost(s: State)
    requires s.tags == map[0 := 8] && |s.bits| == 8
    ensures !AllReleasable(s)
  {
    assert 0 in s.tags && !Releasable(s.bits, s.index, s.tags[0], 0);
  }

  /** A request in flight can be lost: the growing resize cuts the map to eight tags. */
  lemma TagCanBeLost(kinds: nat -> Kind)
    requires kinds(0) == Kind(0, true)
    ensures IsGrowingRun(LosingStates(), LosingMoves(), kinds)
    ensures AllReleasable(LosingStates()[4]) && !AllReleasable(LosingStates()[5])
  {
    TagTaken(kinds);
    var s4 := LosingStates()[4];
    assert Kept(s4.bits, false, 8) == s4.bits[..8] && Kept(s4.index, None, 8) == s4.index[..8];
    EighthIsLost(LosingStates()[5]);
  }
}
