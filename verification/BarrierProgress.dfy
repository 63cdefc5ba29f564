/**
 A barrier does end: a sequence in progress always has a request that the driver has or can be given, and
 once nothing is left every request is over.
 */
module BarrierProgress {
  import opened Barrier
  import opened BarrierOrder
  import opened BarrierHistory

  /** The request is with the driver or in the list. */
  ghost predicate Present(q: Queue, r: Req) {
    r in q.flying || InList(q.list, r)
  }

  /** While the queue drains, the driver has a request, or the head of the list is one that may be given out. */
  ghost predicate Draining(q: Queue) {
    q.flying != [] || (q.list != [] && |q.orig| == 1 && q.orig[0].Plain? && ReqSeq(q, q.list[0].req) == Drain)
  }

  /** Every stage still to come has its proxy. */
  ghost predicate StagesPresent(q: Queue) {
    forall s :: IsFlush(s) && s !in q.ordseq ==> Present(q, Proxy(s, q.ended))
  }

  /** The sequence in progress, if any, has something to wait for. */
  ghost predicate Moving(q: Queue) {
    Busy(q) ==> (CurSeq(q.ordseq) == Drain ==> Draining(q)) && StagesPresent(q)
  }

  // ----- What moves requests about keeps it

  lemma SubmitKeepsMoving(q: Queue, a: Action)
    requires FieldsOk(q) && Moving(q) && Enabled(q, a) && (a.SubmitSorted? || a.SubmitLast? || a.SubmitOther?)
    ensures Moving(Apply(q, a))
  {
    var q' := Apply(q, a);
    forall s | IsFlush(s) && s !in q.ordseq && Busy(q) ensures Present(q', Proxy(s, q.ended)) {
      if InList(q.list, Proxy(s, q.ended)) {
        var i :| 0 <= i < |q.list| && q.list[i].req == Proxy(s, q.ended);
        assert q'.list[if a.SubmitOther? && a.front then i + 1 else i].req == Proxy(s, q.ended);
      }
    }
  }

  lemma InListGrows(list: seq<Entry>, p: nat, e: Entry, r: Req)
    requires p <= |list| && (InList(list, r) || e.req == r)
    ensures InList(list[..p] + [e] + list[p..], r)
  {
    ListInsertKeeps(list, p, e, r);
  }

  lemma HandKeepsMoving(q: Queue, k: nat, p: nat)
    requires FieldsOk(q) && Moving(q) && Enabled(q, Hand(k, p))
    ensures Moving(Dispatch(q, k, p))
  {
    if Busy(q) {
      var q' := Dispatch(q, k, p);
      forall s | IsFlush(s) && s !in q.ordseq ensures Present(q', Proxy(s, q.ended)) {
        if InList(q.list, Proxy(s, q.ended)) {
          InListGrows(q.list, p, Entry(q.sorted[k], false, false), Proxy(s, q.ended));
        }
      }
      if CurSeq(q.ordseq) == Drain && q.flying == [] {
        assert EntryOk(q.ordseq, q.ended, q.submitted, q.list[0]);
        HeadStops(q);
        assert p > 0;
      }
    }
  }

  /** A head that the drain waits for is never passed by the scheduler. */
  lemma HeadStops(q: Queue)
    requires FieldsOk(q) && Busy(q) && q.list != [] && ReqSeq(q, q.list[0].req) == Drain
    ensures q.list[0].Stop()
  {
    assert EntryOk(q.ordseq, q.ended, q.submitted, q.list[0]);
    if q.list[0].req.Plain? && q.list[0].req.epoch > q.ended {
      var j := OtherColourFirst(q, 0);
      assert false;
    }
  }

  lemma TakeKeepsMoving(q: Queue, k: nat)
    requires Moving(q) && k < |q.list|
    ensures Moving(Dequeue(q, k))
  {
    if Busy(q) {
      var q' := Dequeue(q, k);
      forall s | IsFlush(s) && s !in q.ordseq ensures Present(q', Proxy(s, q.ended)) {
        if InList(q.list, Proxy(s, q.ended)) {
          var i :| 0 <= i < |q.list| && q.list[i].req == Proxy(s, q.ended);
          if i < k {
            assert q'.list[i].req == Proxy(s, q.ended);
          } else if i > k {
            assert q'.list[i - 1].req == Proxy(s, q.ended);
          }
        }
      }
    }
  }

  lemma PutBackKeepsMoving(q: Queue, k: nat)
    requires FieldsOk(q) && Moving(q) && k < |q.flying|
    ensures Moving(Requeue(q, k))
  {
    if Busy(q) {
      var q', r := Requeue(q, k), q.flying[k];
      var p := RequeuePosition(q, q.list, r);
      forall s | IsFlush(s) && s !in q.ordseq ensures Present(q', Proxy(s, q.ended)) {
        var x := Proxy(s, q.ended);
        if x == r || InList(q.list, x) {
          InListGrows(q.list, p, Entry(r, false, true), x);
        } else {
          InRest(q.flying, k, x);
        }
      }
      if CurSeq(q.ordseq) == Drain {
        assert FlyingOk(q.ordseq, q.ended, r);
        assert p == 0 && q'.list[0].req == r;
      }
    }
  }

  // ----- What moves the sequence on

  /** The first entry is marked as started: nothing else changes. */
  lemma StartedKeepsMoving(q: Queue, log: seq<Event>)
    requires Moving(q) && q.list != []
    ensures Moving(q.(list := q.list[0 := q.list[0].(started := true)], log := log))
  {
    if Busy(q) {
      var q' := q.(list := q.list[0 := q.list[0].(started := true)], log := log);
      forall s | IsFlush(s) && s !in q.ordseq ensures Present(q', Proxy(s, q.ended)) {
        if InList(q.list, Proxy(s, q.ended)) {
          var i :| 0 <= i < |q.list| && q.list[i].req == Proxy(s, q.ended);
          assert q'.list[i].req == Proxy(s, q.ended);
        }
      }
    }
  }

  /** A stage of a barrier that is used stands among its proxies. */
  lemma UsedIsStacked(o: Ordered, epoch: nat, s: Stage, rest: seq<Entry>)
    requires Uses(o, s)
    ensures InList(Proxies(o, epoch) + rest, Proxy(s, epoch))
  {
    var list := Proxies(o, epoch) + rest;
    var i := if s == PreFlush then 0
      else if s == Bar then (if o.preFlush then 1 else 0)
      else (if o.preFlush then 1 else 0) + (if o.bar then 1 else 0);
    assert list[i].req == Proxy(s, epoch);
  }

  lemma StartMoves(q: Queue)
    requires FieldsOk(q) && !Busy(q) && q.list != [] && IsBarrier(q.list[0], q.ended)
    ensures Moving(StartOrdered(q).0)
  {
    assert EntryOk(q.ordseq, q.ended, q.submitted, q.list[0]);
    var q1, q2 := Stacked(q), StartOrdered(q).0;
    if Busy(q2) {
      assert q2.ordseq == {Started} + Skipped(q1.ordered, q1.inFlight);
      forall s | IsFlush(s) && s !in q2.ordseq ensures Present(q2, Proxy(s, q2.ended)) {
        UsedIsStacked(q1.ordered, q.ended, s, q.list[1..]);
      }
    }
  }

  lemma FetchKeepsMoving(q: Queue)
    requires FieldsOk(q) && Moving(q) && q.list != []
    ensures Moving(Peek(q))
  {
    var q1 := DoOrdered(q).0;
    if !Busy(q) && q.list[0].req.Plain? && q.list[0].req.barrier {
      assert EntryOk(q.ordseq, q.ended, q.submitted, q.list[0]);
      HeadIsCurrent(q);
      StartMoves(q);
    }
    assert Moving(q1);
    if q1.list != [] {
      StartedKeepsMoving(q1, q1.log + [Issued(q1.list[0].req)]);
    }
  }

  /** A stage that is done needs no proxy. */
  lemma CompleteSeqKeepsMoving(q: Queue, stage: Stage, error: int)
    requires |q.orig| == 1 && Drain in q.ordseq + {stage}
    requires forall s :: IsFlush(s) && s !in q.ordseq && s != stage ==> Present(q, Proxy(s, q.ended))
    ensures Moving(CompleteSeq(q, {stage}, error).0)
  {
    var q' := CompleteSeq(q, {stage}, error).0;
    if Busy(q') {
      forall s | IsFlush(s) && s !in q'.ordseq ensures Present(q', Proxy(s, q'.ended)) {
        assert Present(q, Proxy(s, q.ended));
      }
    }
  }

  lemma FinishKeepsMoving(q: Queue, k: nat, error: int)
    requires FieldsOk(q) && Moving(q) && k < |q.flying|
    ensures Moving(Complete(q, k, error))
  {
    if Busy(q) {
      var r := q.flying[k];
      var q1 := q.(flying := Remove(q.flying, k), log := q.log + [Completed(r, error)]);
      assert FlyingOk(q.ordseq, q.ended, r);
      forall s | IsFlush(s) && s !in q.ordseq && Proxy(s, q.ended) != r ensures Present(q1, Proxy(s, q.ended)) {
        if Proxy(s, q.ended) in q.flying {
          InRest(q.flying, k, Proxy(s, q.ended));
        }
      }
      if r.Proxy? {
        ProxyEndKeepsMoving(q, k, error);
      } else {
        DrainCheckKeepsMoving(q, k, q1);
      }
    }
  }

  lemma ProxyEndKeepsMoving(q: Queue, k: nat, error: int)
    requires FieldsOk(q) && Busy(q) && k < |q.flying| && q.flying[k].Proxy?
    requires forall s :: IsFlush(s) && s !in q.ordseq && Proxy(s, q.ended) != q.flying[k] ==>
      Proxy(s, q.ended) in Remove(q.flying, k) || InList(q.list, Proxy(s, q.ended))
    ensures Moving(Complete(q, k, error))
  {
    assert FlyingOk(q.ordseq, q.ended, q.flying[k]);
    ProxyFinishedOk(q, k, error);
    CompleteSeqKeepsMoving(ProxyFinished(q, k, error), q.flying[k].stage, error);
  }

  /** A request that is no proxy is done: if nothing to wait for is left, the drain is complete. */
  lemma DrainCheckKeepsMoving(q: Queue, k: nat, q1: Queue)
    requires FieldsOk(q) && Busy(q) && k < |q.flying| && !q.flying[k].Proxy?
    requires q1 == q.(flying := Remove(q.flying, k), log := q1.log) && StagesPresent(q1)
    ensures Moving(CompletedRequest(q1, q.flying[k]))
  {
    RemoveFlyingOk(q, k);
    var q2 := q1.(inFlight := if q.flying[k].Accounted() then q1.inFlight - 1 else q1.inFlight);
    assert q2.flying == [] ==> q2.inFlight == 0;
    if CurSeq(q.ordseq) == Drain && q2.inFlight == 0
       && (q2.list == [] || ReqSeq(q2, q2.list[0].req).Rank() > Drain.Rank()) {
      CompleteSeqKeepsMoving(q2, Drain, 0);
    }
  }

  // ----- Runs

  lemma StepMoves(q: Queue, a: Action)
    requires FieldsOk(q) && Moving(q) && Enabled(q, a)
    ensures Moving(Apply(q, a))
  {
    match a
    case SubmitSorted(_, _) => SubmitKeepsMoving(q, a);
    case SubmitLast(_, _, _) => SubmitKeepsMoving(q, a);
    case SubmitOther(_, _, _) => SubmitKeepsMoving(q, a);
    case Hand(k, p) => HandKeepsMoving(q, k, p);
    case Fetch => FetchKeepsMoving(q);
    case Take(k) => TakeKeepsMoving(q, k);
    case PutBack(k) => PutBackKeepsMoving(q, k);
    case Finish(k, error) => FinishKeepsMoving(q, k, error);
    case FailPart(_, _) =>
  }

  /** Over every run in drain mode a sequence in progress has something to wait for. */
  lemma {:induction false} RunMoves(next: Ordered, states: seq<Queue>, actions: seq<Action>, n: nat)
    requires DrainMode(next) && IsRun(next, states, actions) && n < |states|
    ensures Moving(states[n])
  {
    if n > 0 {
      RunMoves(next, states, actions, n - 1);
      RunKeeps(next, states, actions, n - 1);
      StepMoves(states[n - 1], actions[n - 1]);
    }
  }

  /** The head of the list is one that blk_do_ordered hands out when nothing is with the driver. */
  lemma HeadIsGiven(q: Queue)
    requires FieldsOk(q) && Moving(q) && Busy(q) && q.flying == []
    ensures q.list != [] && DoOrdered(q) == (q, true, true)
  {
    var cur := CurSeq(q.ordseq);
    if cur != Drain {
      var i :| 0 <= i < |q.list| && q.list[i].req == Proxy(cur, q.ended);
      assert EntryOk(q.ordseq, q.ended, q.submitted, q.list[0]);
      if i > 0 {
        assert Precedes(q.list[0].req, q.list[i].req);
      }
    }
  }

  /** No run gets stuck: while a sequence is in progress the driver has a request or is given the head of the list. */
  lemma NeverStuck(next: Ordered, states: seq<Queue>, actions: seq<Action>, n: nat)
    requires DrainMode(next) && IsRun(next, states, actions) && n < |states| && Busy(states[n])
    requires states[n].flying == []
    ensures states[n].list != [] && states[n].OrigKnown() && DoOrdered(states[n]) == (states[n], true, true)
  {
    RunMoves(next, states, actions, n);
    RunKeeps(next, states, actions, n);
    HeadIsGiven(states[n]);
  }

  /**
   A barrier ends exactly once: whenever the queue, the scheduler and the driver have nothing left, every
   file-system request submitted is over, barriers included; that none ends twice is BarrierEndsOnce.
   */
  lemma QuietMeansOver(next: Ordered, states: seq<Queue>, actions: seq<Action>, n: nat, i: nat)
    requires DrainMode(next) && IsRun(next, states, actions) && n < |states|
    requires states[n].list == [] && states[n].sorted == [] && states[n].flying == []
    requires i < |states[n].log| && states[n].log[i].Submitted? && states[n].log[i].req.Plain?
    ensures IsOver(states[n].log, states[n].log[i].req) && !Busy(states[n])
  {
    RunMoves(next, states, actions, n);
    RunKeeps(next, states, actions, n);
    if Busy(states[n]) {
      HeadIsGiven(states[n]);
      assert false;
    }
  }

  // ----- Numbers

  /** Every submission has a number of its own, so that an event names one request. */
  ghost predicate NoRepeat(log: seq<Event>) {
    && (forall i :: 0 <= i < |log| && log[i].Submitted? ==> !log[i].req.Proxy?)
    && (forall i, j :: 0 <= i < j < |log| && log[i].Submitted? && log[j].Submitted? ==> log[i].req.id != log[j].req.id)
  }

  lemma AppendedNoRepeat(log: seq<Event>, ev: Event)
    requires NoRepeat(log) && (ev.Submitted? ==> !ev.req.Proxy? && Fresh(log, ev.req.id))
    ensures NoRepeat(log + [ev])
  {
  }

  lemma CompleteSeqNoRepeat(q: Queue, stages: set<Stage>, error: int)
    requires |q.orig| == 1 && NoRepeat(q.log)
    ensures NoRepeat(CompleteSeq(q, stages, error).0.log)
  {
    AppendedNoRepeat(q.log, Ended(q.orig[0], if error != 0 && q.orderr == 0 then error else q.orderr));
  }

  lemma FetchNoRepeat(q: Queue)
    requires q.list != [] && q.OrigKnown() && NoRepeat(q.log)
    ensures NoRepeat(Peek(q).log)
  {
    var rq := q.list[0].req;
    if rq.Plain? {
      CompleteSeqNoRepeat(Stacked(q), Skipped(Stacked(q).ordered, Stacked(q).inFlight), 0);
      AppendedNoRepeat(q.log, Ended(rq, EOPNOTSUPP));
    }
    var q1 := DoOrdered(q).0;
    assert NoRepeat(q1.log);
    if q1.list != [] {
      AppendedNoRepeat(q1.log, Issued(q1.list[0].req));
    }
  }

  lemma FinishNoRepeat(q: Queue, k: nat, error: int)
    requires k < |q.flying| && q.OrigKnown() && NoRepeat(q.log)
    ensures NoRepeat(Complete(q, k, error).log)
  {
    var r := q.flying[k];
    var q1 := q.(flying := Remove(q.flying, k), log := q.log + [Completed(r, error)]);
    AppendedNoRepeat(q.log, Completed(r, error));
    var q2 := CompletedRequest(q1, r);
    if q1.ordseq != {} {
      CompleteSeqNoRepeat(q1.(inFlight := q2.inFlight), {Drain}, 0);
    }
    assert NoRepeat(q2.log);
    if r.Proxy? && |q2.orig| == 1 {
      CompleteSeqNoRepeat(q2, {r.stage}, error);
    }
  }

  lemma StepNoRepeat(q: Queue, a: Action)
    requires Enabled(q, a) && NoRepeat(q.log)
    ensures NoRepeat(Apply(q, a).log)
  {
    match a
    case SubmitSorted(id, data) => AppendedNoRepeat(q.log, Submitted(Plain(id, false, data, q.ordcolor, q.submitted)));
    case SubmitLast(id, barrier, data) =>
      AppendedNoRepeat(q.log, Submitted(Plain(id, barrier, data, q.ordcolor, q.submitted)));
    case SubmitOther(id, discard, _) => AppendedNoRepeat(q.log, Submitted(Special(id, discard)));
    case Hand(_, _) =>
    case Fetch => FetchNoRepeat(q);
    case Take(_) =>
    case PutBack(_) =>
    case Finish(k, error) => FinishNoRepeat(q, k, error);
    case FailPart(k, error) => AppendedNoRepeat(q.log, Failed(q.flying[k].epoch, error));
  }

  /** In every run different submissions are different requests. */
  lemma {:induction false} RunNoRepeat(next: Ordered, states: seq<Queue>, actions: seq<Action>, n: nat)
    requires IsRun(next, states, actions) && n < |states|
    ensures NoRepeat(states[n].log)
  {
    if n > 0 {
      RunNoRepeat(next, states, actions, n - 1);
      StepNoRepeat(states[n - 1], actions[n - 1]);
    }
  }
}
