/** What becomes of requests: queued, dispatched once, or merged into another. */
module Ledger {
  import opened Options
  import opened SortList

  /** Each request seen is queued, dispatched once, or merged into another. */
  ghost predicate Accounted(rqs: map<nat, Rq>, out: seq<nat>, seen: set<nat>, joined: set<nat>) {
    && NoDup(out)
    && (forall r :: r in seen <==> r in rqs || r in out || r in joined)
    && (forall r :: r in rqs ==> r !in out && r !in joined)
    && (forall r :: r in out ==> r !in joined)
  }

  lemma MovedAccounted(rqs: map<nat, Rq>, out: seq<nat>, seen: set<nat>, joined: set<nat>, r: nat)
    requires Accounted(rqs, out, seen, joined) && r in rqs
    ensures Accounted(rqs - {r}, out + [r], seen, joined)
  {
  }

  lemma NewAccounted(rqs: map<nat, Rq>, out: seq<nat>, seen: set<nat>, joined: set<nat>, r: nat, rq: Rq)
    requires Accounted(rqs, out, seen, joined) && r !in seen
    ensures Accounted(rqs[r := rq], out, seen + {r}, joined)
  {
  }

  lemma JoinedAccounted(rqs: map<nat, Rq>, out: seq<nat>, seen: set<nat>, joined: set<nat>, r: nat, rq: Rq, next: nat)
    requires Accounted(rqs, out, seen, joined) && r in rqs && next in rqs && r != next
    ensures Accounted(rqs[r := rq] - {next}, out, seen, joined + {next})
  {
  }

  lemma ChangedAccounted(rqs: map<nat, Rq>, out: seq<nat>, seen: set<nat>, joined: set<nat>, r: nat, rq: Rq)
    requires Accounted(rqs, out, seen, joined) && r in rqs
    ensures Accounted(rqs[r := rq], out, seen, joined)
  {
  }

  /** Of the requests first queued, each is still queued or dispatched since, and nothing else is. */
  ghost predicate Drained(rqs0: map<nat, Rq>, out0: seq<nat>, rqs: map<nat, Rq>, out: seq<nat>) {
    && out0 <= out && |out| - |out0| + |rqs| == |rqs0|
    && forall r :: r in rqs0 <==> r in rqs || r in out[|out0|..]
  }

  lemma DrainStep(rqs0: map<nat, Rq>, out0: seq<nat>, rqs: map<nat, Rq>, out: seq<nat>, r: nat)
    requires Drained(rqs0, out0, rqs, out) && r in rqs
    ensures Drained(rqs0, out0, rqs - {r}, out + [r]) && |rqs - {r}| < |rqs|
  {
    assert (rqs - {r}).Keys == rqs.Keys - {r};
    assert (out + [r])[|out0|..] == out[|out0|..] + [r];
  }
}
