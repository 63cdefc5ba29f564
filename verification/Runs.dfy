/** Induction over runs: what every step keeps holds in every state. */
module Runs {
  lemma {:induction false} HoldsThroughout<S(!new), T(!new)>(
      states: seq<S>, steps: seq<T>, next: (S, T) -> S, ok: S -> bool, n: nat)
    requires |states| == |steps| + 1 && n < |states| && ok(states[0])
    requires forall i {:trigger steps[i]} :: 0 <= i < |steps| ==> states[i + 1] == next(states[i], steps[i])
    requires forall s, t {:trigger next(s, t)} :: ok(s) ==> ok(next(s, t))
    ensures ok(states[n])
  {
    if n > 0 {
      HoldsThroughout(states, steps, next, ok, n - 1);
      assert states[n] == next(states[n - 1], steps[n - 1]);
    }
  }

  /** What each step from state m on keeps holds in state n. */
  lemma {:induction false} HoldsFrom<S(!new)>(states: seq<S>, ok: S -> bool, m: nat, n: nat)
    requires m <= n < |states| && ok(states[m])
    requires forall i, next :: m <= i < next <= n && next == i + 1 && ok(states[i]) ==> ok(states[next])
    ensures ok(states[n])
  {
    if m < n {
      HoldsFrom(states, ok, m, n - 1);
    }
  }

  /** All states up to n are good. */
  ghost predicate GoodUpTo<S(!new)>(states: seq<S>, good: S -> bool, n: nat)
    requires n < |states|
  {
    forall i :: 0 <= i <= n ==> good(states[i])
  }

  /** All steps up to state n are fine where they are taken. */
  ghost predicate FineUpTo<S(!new), T(!new)>(states: seq<S>, steps: seq<T>, fine: (S, T) -> bool, n: nat)
    requires n <= |steps| && |states| == |steps| + 1
  {
    forall i {:trigger steps[i]} :: 0 <= i < n ==> fine(states[i], steps[i])
  }

  /**
   When a step from a good state leads to a good one exactly if it is fine, states stay good exactly while steps are
   fine.
   */
  lemma {:induction false} GoodWhileFine<S(!new), T(!new)>(
      states: seq<S>, steps: seq<T>, good: S -> bool, fine: (S, T) -> bool, n: nat)
    requires |states| == |steps| + 1 && n < |states| && good(states[0])
    requires forall i {:trigger steps[i]} :: 0 <= i < |steps| && good(states[i]) ==>
      (good(states[i + 1]) <==> fine(states[i], steps[i]))
    ensures GoodUpTo(states, good, n) <==> FineUpTo(states, steps, fine, n)
  {
    if n > 0 {
      GoodWhileFine(states, steps, good, fine, n - 1);
      var step := steps[n - 1];
      if GoodUpTo(states, good, n - 1) {
        assert good(states[n]) <==> fine(states[n - 1], step);
      }
      if GoodUpTo(states, good, n) {
        assert FineUpTo(states, steps, fine, n);
      }
      if FineUpTo(states, steps, fine, n) {
        assert GoodUpTo(states, good, n);
      }
    }
  }

  /** Each step leads from its state to the next. */
  ghost predicate Leading<S(!new), T(!new)>(states: seq<S>, steps: seq<T>, leads: (S, T, S) -> bool) {
    |states| == |steps| + 1
    && forall i {:trigger steps[i]} :: 0 <= i < |steps| ==> leads(states[i], steps[i], states[i + 1])
  }

  lemma LeadingOn<S(!new), T(!new)>(states: seq<S>, steps: seq<T>, leads: (S, T, S) -> bool, step: T, s: S)
    requires Leading(states, steps, leads) && leads(states[|steps|], step, s)
    ensures Leading(states + [s], steps + [step], leads)
  {
    var states', steps' := states + [s], steps + [step];
    forall i {:trigger steps'[i]} | 0 <= i < |steps'| ensures leads(states'[i], steps'[i], states'[i + 1]) {
      if i < |steps| {
        assert leads(states[i], steps[i], states[i + 1]);
      }
    }
  }
}
