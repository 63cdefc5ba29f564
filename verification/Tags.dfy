/**
 Queues that share one tag map. Each queue works under its own lock, so the steps of different queues
 interleave; the map's bits are the only thing set and cleared atomically. A step is one access to
 shared state.
 */
module Tags {
  import opened Options

  /**
   Where a queue is: at rest, looking for a tag below the depth it has read, with a tag found but not taken,
   with the bit taken, or with the bit still to be cleared.
   */
  datatype Pc =
    | Idle
    | Searching(rq: nat, depth: nat)
    | Found(rq: nat, depth: nat, tag: nat)
    | Locked(rq: nat, tag: nat)
    | Clearing(tag: nat)

  /** tag_map, tag_index, max_depth, the tags requests carry, and where each queue is. */
  datatype State = State(
    bits: seq<bool>, index: seq<Option<nat>>, maxDepth: nat, tags: map<nat, nat>, pcs: map<nat, Pc>)

  datatype Step =
    | Begin(q: nat, rq: nat)
    | Find(q: nat, tag: nat)
    | GiveUp(q: nat)
    | TestAndSet(q: nat)
    | Publish(q: nat)
    | Withdraw(q: nat, rq: nat)
    | Clear(q: nat)
    | SetDepth(depth: nat)
    | Grow(depth: nat)

  /** Which queue a request belongs to, and whether it is synchronous. */
  datatype Kind = Kind(queue: nat, sync: bool)

  /** Tags below this are kept for synchronous requests. */
  function Offset(maxDepth: nat, sync: bool): (r: nat)
    ensures (sync ==> r == 0) && (!sync ==> 4 * r <= maxDepth < 4 * r + 4)
  {
    if sync then 0 else maxDepth / 4
  }

  ghost predicate Enabled(s: State, kinds: nat -> Kind, step: Step) {
    match step
    case Begin(q, rq) => q in s.pcs && s.pcs[q] == Idle && kinds(rq).queue == q && rq !in s.tags
    case Find(q, tag) =>
      && q in s.pcs && s.pcs[q].Searching?
      && Offset(s.pcs[q].depth, kinds(s.pcs[q].rq).sync) <= tag < s.pcs[q].depth
    case GiveUp(q) => q in s.pcs && s.pcs[q].Searching?
    case TestAndSet(q) => q in s.pcs && s.pcs[q].Found? && s.pcs[q].tag < |s.bits|
    case Publish(q) => q in s.pcs && s.pcs[q].Locked? && s.pcs[q].tag < |s.index|
    case Withdraw(q, rq) =>
      q in s.pcs && s.pcs[q] == Idle && kinds(rq).queue == q && rq in s.tags && s.tags[rq] < |s.index|
    case Clear(q) => q in s.pcs && s.pcs[q].Clearing? && s.pcs[q].tag < |s.bits|
    case SetDepth(depth) => depth <= |s.bits|
    case Grow(depth) => depth >= |s.bits| && |s.pcs| == 1 && forall q :: q in s.pcs ==> s.pcs[q] == Idle
  }

  function Apply(s: State, step: Step): State
    requires match step
      case Begin(_, _) => true
      case Find(q, _) => q in s.pcs && s.pcs[q].Searching?
      case GiveUp(_) => true
      case TestAndSet(q) => q in s.pcs && s.pcs[q].Found? && s.pcs[q].tag < |s.bits|
      case Publish(q) => q in s.pcs && s.pcs[q].Locked? && s.pcs[q].tag < |s.index|
      case Withdraw(q, rq) => rq in s.tags && s.tags[rq] < |s.index|
      case Clear(q) => q in s.pcs && s.pcs[q].Clearing? && s.pcs[q].tag < |s.bits|
      case SetDepth(_) => true
      case Grow(depth) => depth >= |s.bits| && depth >= |s.index|
  {
    match step
    case Begin(q, rq) => s.(pcs := s.pcs[q := Searching(rq, s.maxDepth)])
    case Find(q, tag) => s.(pcs := s.pcs[q := Found(s.pcs[q].rq, s.pcs[q].depth, tag)])
    case GiveUp(q) => s.(pcs := s.pcs[q := Idle])
    case TestAndSet(q) =>
      var Found(rq, depth, tag) := s.pcs[q];
      if s.bits[tag] then s.(pcs := s.pcs[q := Searching(rq, depth)])
      else s.(bits := s.bits[tag := true], pcs := s.pcs[q := Locked(rq, tag)])
    case Publish(q) =>
      var Locked(rq, tag) := s.pcs[q];
      s.(index := s.index[tag := Some(rq)], tags := s.tags[rq := tag], pcs := s.pcs[q := Idle])
    case Withdraw(q, rq) =>
      var tag := s.tags[rq];
      s.(index := s.index[tag := None], tags := s.tags - {rq}, pcs := s.pcs[q := Clearing(tag)])
    case Clear(q) =>
      s.(bits := s.bits[s.pcs[q].tag := false], pcs := s.pcs[q := Idle])
    case SetDepth(depth) => s.(maxDepth := depth)
    case Grow(depth) =>
      s.(bits := s.bits + seq(depth - |s.bits|, _ => false), index := s.index + seq(depth - |s.index|, _ => None),
         maxDepth := depth)
  }

  // ----- Exclusive tags

  /** Who holds a tag: a request in flight, or a queue between setting or clearing the bit and the index entry. */
  datatype Holder = ByRq(rq: nat) | ByQueue(q: nat)

  ghost predicate Holds(s: State, o: Holder, tag: nat) {
    match o
    case ByRq(rq) => rq in s.tags && s.tags[rq] == tag
    case ByQueue(q) => q in s.pcs && (s.pcs[q].Locked? || s.pcs[q].Clearing?) && s.pcs[q].tag == tag
  }

  /** A tag that is held has its bit set, and has one holder. */
  ghost predicate Exclusive(s: State) {
    && (forall o, tag: nat :: Holds(s, o, tag) ==> tag < |s.bits| && s.bits[tag])
    && (forall o, p, tag: nat :: Holds(s, o, tag) && Holds(s, p, tag) ==> o == p)
  }

  /** A bit that is set is held by someone. */
  ghost predicate Covered(s: State) {
    forall tag: nat :: tag < |s.bits| && s.bits[tag] ==> exists o :: Holds(s, o, tag)
  }

  /** The index names exactly the requests in flight. */
  ghost predicate Indexed(s: State) {
    && |s.bits| == |s.index| && s.maxDepth <= |s.bits|
    && (forall tag: nat :: tag < |s.index| && s.index[tag].Some? ==>
        s.index[tag].value in s.tags && s.tags[s.index[tag].value] == tag)
    && (forall r :: r in s.tags ==> s.tags[r] < |s.index| && s.index[s.tags[r]] == Some(r))
  }

  ghost predicate PcsOk(s: State, kinds: nat -> Kind) {
    forall q :: q in s.pcs ==>
      match s.pcs[q]
      case Idle => true
      case Searching(rq, depth) => depth <= |s.bits| && kinds(rq).queue == q && rq !in s.tags
      case Found(rq, depth, tag) => tag < depth <= |s.bits| && kinds(rq).queue == q && rq !in s.tags
      case Locked(rq, tag) => tag < |s.bits| && kinds(rq).queue == q && rq !in s.tags
      case Clearing(tag) => tag < |s.bits|
  }

  ghost predicate Ok(s: State, kinds: nat -> Kind) {
    Exclusive(s) && Covered(s) && Indexed(s) && PcsOk(s, kinds)
  }

  /** The step changes nobody's hold. */
  ghost predicate SameHolds(s: State, s': State) {
    forall o, tag: nat :: Holds(s', o, tag) <==> Holds(s, o, tag)
  }

  /** The step passes a tag on from one holder to another. */
  ghost predicate Passed(s: State, s': State, o: Holder, p: Holder, tag: nat) {
    Holds(s, o, tag) && forall x, t: nat :: Holds(s', x, t) <==> (Holds(s, x, t) && x != o) || (x == p && t == tag)
  }

  lemma SameHoldsKeeps(s: State, s': State)
    requires Exclusive(s) && Covered(s) && SameHolds(s, s') && |s.bits| <= |s'.bits|
    requires forall t :: 0 <= t < |s'.bits| ==> s'.bits[t] == (t < |s.bits| && s.bits[t])
    ensures Exclusive(s') && Covered(s')
  {
  }

  lemma PassedKeeps(s: State, s': State, o: Holder, p: Holder, tag: nat)
    requires Exclusive(s) && Covered(s) && Passed(s, s', o, p, tag) && s'.bits == s.bits
    ensures Exclusive(s') && Covered(s')
  {
    forall t: nat | t < |s'.bits| && s'.bits[t] ensures exists x :: Holds(s', x, t) {
      var x :| Holds(s, x, t);
      assert Holds(s', if x == o then p else x, t);
    }
  }

  /** Looking for a tag takes none. */
  lemma SearchKeeps(s: State, kinds: nat -> Kind, step: Step)
    requires Ok(s, kinds) && Enabled(s, kinds, step) && (step.Begin? || step.Find? || step.GiveUp?)
    ensures Ok(Apply(s, step), kinds)
  {
    SameHoldsKeeps(s, Apply(s, step));
  }

  lemma TestAndSetKeeps(s: State, kinds: nat -> Kind, step: Step)
    requires Ok(s, kinds) && Enabled(s, kinds, step) && step.TestAndSet?
    ensures Ok(Apply(s, step), kinds)
  {
    var s' := Apply(s, step);
    var q, tag := step.q, s.pcs[step.q].tag;
    if s.bits[tag] {
      SameHoldsKeeps(s, s');
    } else {
      TakenKeeps(s, s', q, tag);
    }
  }

  /** A free tag is taken by a queue. */
  lemma TakenKeeps(s: State, s': State, q: nat, tag: nat)
    requires Exclusive(s) && Covered(s) && tag < |s.bits| && !s.bits[tag] && s'.bits == s.bits[tag := true]
    requires forall x, t: nat :: Holds(s', x, t) <==> Holds(s, x, t) || (x == ByQueue(q) && t == tag)
    ensures Exclusive(s') && Covered(s')
  {
    forall t: nat | t < |s'.bits| && s'.bits[t] ensures exists x :: Holds(s', x, t) {
      if t == tag {
        assert Holds(s', ByQueue(q), t);
      } else {
        var x :| Holds(s, x, t);
        assert Holds(s', x, t);
      }
    }
  }

  lemma PublishKeeps(s: State, kinds: nat -> Kind, step: Step)
    requires Ok(s, kinds) && Enabled(s, kinds, step) && step.Publish?
    ensures Ok(Apply(s, step), kinds)
  {
    var s' := Apply(s, step);
    var q, rq, tag := step.q, s.pcs[step.q].rq, s.pcs[step.q].tag;
    assert Holds(s, ByQueue(q), tag);
    assert Passed(s, s', ByQueue(q), ByRq(rq), tag);
    PassedKeeps(s, s', ByQueue(q), ByRq(rq), tag);
    forall r | r in s.tags ensures s.tags[r] != tag {
      assert Holds(s, ByRq(r), s.tags[r]);
    }
  }

  lemma WithdrawKeeps(s: State, kinds: nat -> Kind, step: Step)
    requires Ok(s, kinds) && Enabled(s, kinds, step) && step.Withdraw?
    ensures Ok(Apply(s, step), kinds)
  {
    var s' := Apply(s, step);
    var q, rq, tag := step.q, step.rq, s.tags[step.rq];
    assert Holds(s, ByRq(rq), tag);
    assert Passed(s, s', ByRq(rq), ByQueue(q), tag);
    PassedKeeps(s, s', ByRq(rq), ByQueue(q), tag);
  }

  lemma ClearKeeps(s: State, kinds: nat -> Kind, step: Step)
    requires Ok(s, kinds) && Enabled(s, kinds, step) && step.Clear?
    ensures Ok(Apply(s, step), kinds)
  {
    var s' := Apply(s, step);
    var q, tag := step.q, s.pcs[step.q].tag;
    assert Holds(s, ByQueue(q), tag);
    assert forall o, t: nat :: Holds(s', o, t) <==> Holds(s, o, t) && o != ByQueue(q);
    ReleasedKeeps(s, s', q, tag);
  }

  /** A queue gives a tag back. */
  lemma ReleasedKeeps(s: State, s': State, q: nat, tag: nat)
    requires Exclusive(s) && Covered(s) && Holds(s, ByQueue(q), tag) && s'.bits == s.bits[tag := false]
    requires forall o, t: nat :: Holds(s', o, t) <==> Holds(s, o, t) && o != ByQueue(q)
    requires forall t: nat :: Holds(s, ByQueue(q), t) ==> t == tag
    ensures Exclusive(s') && Covered(s')
  {
  }

  lemma DepthKeeps(s: State, kinds: nat -> Kind, step: Step)
    requires Ok(s, kinds) && Enabled(s, kinds, step) && (step.SetDepth? || step.Grow?)
    ensures Ok(Apply(s, step), kinds)
  {
    SameHoldsKeeps(s, Apply(s, step));
  }

  lemma StepKeeps(s: State, kinds: nat -> Kind, step: Step)
    requires Ok(s, kinds) && Enabled(s, kinds, step)
    ensures Ok(Apply(s, step), kinds)
  {
    match step
    case Begin(_, _) => SearchKeeps(s, kinds, step);
    case Find(_, _) => SearchKeeps(s, kinds, step);
    case GiveUp(_) => SearchKeeps(s, kinds, step);
    case TestAndSet(_) => TestAndSetKeeps(s, kinds, step);
    case Publish(_) => PublishKeeps(s, kinds, step);
    case Withdraw(_, _) => WithdrawKeeps(s, kinds, step);
    case Clear(_) => ClearKeeps(s, kinds, step);
    case SetDepth(_) => DepthKeeps(s, kinds, step);
    case Grow(_) => DepthKeeps(s, kinds, step);
  }

  // ----- Runs

  /** A run from a free map with every queue at rest. */
  ghost predicate IsRun(states: seq<State>, steps: seq<Step>, kinds: nat -> Kind) {
    && |states| == |steps| + 1
    && (forall t :: 0 <= t < |states[0].bits| ==> !states[0].bits[t])
    && (forall t :: 0 <= t < |states[0].index| ==> states[0].index[t] == None)
    && |states[0].bits| == |states[0].index| == states[0].maxDepth && states[0].tags == map[]
    && (forall q :: q in states[0].pcs ==> states[0].pcs[q] == Idle)
    && forall i :: 0 <= i < |steps| ==>
      Enabled(states[i], kinds, steps[i]) && (Ok(states[i], kinds) ==> states[i + 1] == Apply(states[i], steps[i]))
  }

  lemma {:induction false} RunKeeps(states: seq<State>, steps: seq<Step>, kinds: nat -> Kind, n: nat)
    requires IsRun(states, steps, kinds) && n < |states|
    ensures Ok(states[n], kinds)
  {
    if n == 0 {
      assert forall o, tag: nat :: !Holds(states[0], o, tag);
    } else {
      RunKeeps(states, steps, kinds, n - 1);
      StepKeeps(states[n - 1], kinds, steps[n - 1]);
    }
  }

  /** Over every interleaving, no two requests in flight hold the same tag. */
  lemma NoTagTwice(states: seq<State>, steps: seq<Step>, kinds: nat -> Kind, n: nat, r: nat, r': nat)
    requires IsRun(states, steps, kinds) && n < |states| && r != r' && r in states[n].tags && r' in states[n].tags
    ensures states[n].tags[r] != states[n].tags[r']
  {
    RunKeeps(states, steps, kinds, n);
    assert Holds(states[n], ByRq(r), states[n].tags[r]);
    assert Holds(states[n], ByRq(r'), states[n].tags[r']);
  }

  /** Whenever every queue is at rest, a bit is set exactly when the index names the request with that tag. */
  lemma MapAgreesWithIndex(states: seq<State>, steps: seq<Step>, kinds: nat -> Kind, n: nat, tag: nat)
    requires IsRun(states, steps, kinds) && n < |states| && tag < |states[n].bits|
    requires forall q :: q in states[n].pcs ==> states[n].pcs[q] == Idle
    ensures |states[n].index| == |states[n].bits| && (states[n].bits[tag] <==> states[n].index[tag].Some?)
    ensures states[n].index[tag].Some? ==>
      states[n].index[tag].value in states[n].tags && states[n].tags[states[n].index[tag].value] == tag
  {
    RunKeeps(states, steps, kinds, n);
    var s := states[n];
    if s.bits[tag] {
      var o :| Holds(s, o, tag);
      assert o.ByRq?;
    }
    if s.index[tag].Some? {
      assert Holds(s, ByRq(s.index[tag].value), tag);
    }
  }

  /** A request in flight can always be released: its tag is inside the map, whatever resizing went on. */
  lemma TagsStayReleasable(states: seq<State>, steps: seq<Step>, kinds: nat -> Kind, n: nat, r: nat)
    requires IsRun(states, steps, kinds) && n < |states| && r in states[n].tags
    ensures states[n].tags[r] < |states[n].bits| && states[n].bits[states[n].tags[r]]
    ensures |states[n].index| == |states[n].bits| && states[n].index[states[n].tags[r]] == Some(r)
  {
    RunKeeps(states, steps, kinds, n);
    assert Holds(states[n], ByRq(r), states[n].tags[r]);
  }

  /** Asynchronous requests keep off the lowest quarter. */
  ghost predicate AsyncHigh(s: State, kinds: nat -> Kind) {
    && (forall r :: r in s.tags && !kinds(r).sync ==> s.tags[r] >= s.maxDepth / 4)
    && forall q :: q in s.pcs ==>
      match s.pcs[q]
      case Idle => true
      case Searching(_, depth) => depth == s.maxDepth
      case Found(rq, depth, tag) => depth == s.maxDepth && (!kinds(rq).sync ==> tag >= s.maxDepth / 4)
      case Locked(rq, tag) => !kinds(rq).sync ==> tag >= s.maxDepth / 4
      case Clearing(_) => true
  }

  lemma StepKeepsAsyncHigh(s: State, kinds: nat -> Kind, step: Step)
    requires Ok(s, kinds) && AsyncHigh(s, kinds) && Enabled(s, kinds, step) && !step.SetDepth? && !step.Grow?
    ensures AsyncHigh(Apply(s, step), kinds) && Apply(s, step).maxDepth == s.maxDepth
  {
  }

  /** At a fixed depth an asynchronous request never holds a tag of the lowest quarter. */
  lemma {:induction false} AsyncKeepsOffLowestQuarter(states: seq<State>, steps: seq<Step>, kinds: nat -> Kind, n: nat)
    requires IsRun(states, steps, kinds) && n < |states|
    requires forall i :: 0 <= i < |steps| ==> !steps[i].SetDepth? && !steps[i].Grow?
    ensures AsyncHigh(states[n], kinds) && states[n].maxDepth == states[0].maxDepth
  {
    if n > 0 {
      AsyncKeepsOffLowestQuarter(states, steps, kinds, n - 1);
      RunKeeps(states, steps, kinds, n - 1);
      StepKeepsAsyncHigh(states[n - 1], kinds, steps[n - 1]);
    }
  }
}
