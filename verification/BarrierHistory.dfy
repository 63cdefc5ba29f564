/**
 The order that the barrier machine gives, read off the log of any run in drain mode.
 */
module BarrierHistory {
  import opened Barrier
  import opened BarrierOrder

  ghost predicate OverAt(ev: Event, r: Req) {
    (ev.Completed? || ev.Ended?) && ev.req == r
  }

  /** r has completed, or, for a barrier, its sequence has ended. */
  ghost predicate IsOver(log: seq<Event>, r: Req) {
    exists i :: 0 <= i < |log| && OverAt(log[i], r)
  }

  /** Stage s of barrier number e has completed. */
  ghost predicate StageDone(log: seq<Event>, s: Stage, e: nat) {
    IsOver(log, Proxy(s, e))
  }

  ghost function ErrorOf(ev: Event, e: nat): int {
    if ev.Completed? && ev.req.Proxy? && ev.req.epoch == e then ev.error
    else if ev.Failed? && ev.epoch == e then ev.error
    else 0
  }

  /** The first error that a stage of barrier number e reported, or 0. */
  ghost function FirstError(log: seq<Event>, e: nat): int {
    if log == [] then 0
    else
      var before := FirstError(log[..|log| - 1], e);
      if before != 0 then before else ErrorOf(log[|log| - 1], e)
  }

  ghost predicate Uses(o: Ordered, s: Stage) {
    (s == PreFlush && o.preFlush) || (s == Bar && o.bar) || (s == PostFlush && o.postFlush)
  }

  /**
   The stages of a barrier: the pre-flush if the mode has one, and, if there is data, the bar and the post-flush if
   the mode has one.
   */
  ghost predicate Needs(next: Ordered, b: Req, s: Stage)
    requires b.Plain?
  {
    match s
    case PreFlush => next.preFlush
    case Bar => b.data
    case PostFlush => b.data && next.postFlush
    case _ => false
  }

  lemma EffectiveIsNeeded(next: Ordered, b: Req, s: Stage)
    requires DrainMode(next) && b.Plain?
    ensures Uses(Effective(next, b), s) <==> Needs(next, b, s)
  {
  }

  /** Stage s belongs to every barrier submitted with this number; there is one. */
  ghost predicate Belongs(next: Ordered, log: seq<Event>, s: Stage, e: nat) {
    forall i :: 0 <= i < |log| && log[i].Submitted? && log[i].req.Plain? && log[i].req.barrier && log[i].req.epoch == e
      ==> Needs(next, log[i].req, s)
  }

  ghost predicate Touches(ev: Event, e: nat) {
    (ev.Completed? && ev.req.Proxy? && ev.req.epoch == e) || (ev.Failed? && ev.epoch == e)
  }

  /** r was submitted before barrier number e. */
  ghost predicate Before(r: Req, e: nat) {
    r.Plain? && (r.epoch < e || (r.epoch == e && !r.barrier))
  }

  /** Every file-system request submitted before barrier number e is over. */
  ghost predicate EarlierOver(log: seq<Event>, e: nat) {
    forall i :: 0 <= i < |log| && log[i].Submitted? && Before(log[i].req, e) ==> IsOver(log, log[i].req)
  }

  /** Every barrier that a request of epoch e was submitted after is over. */
  ghost predicate BarriersOver(log: seq<Event>, e: nat) {
    forall i :: 0 <= i < |log| && log[i].Submitted? && log[i].req.Plain? && log[i].req.barrier && log[i].req.epoch < e
      ==> IsOver(log, log[i].req)
  }

  /** ev may follow the events in log. */
  ghost predicate EventOk(next: Ordered, log: seq<Event>, ev: Event) {
    match ev
    case Issued(Proxy(s, e)) =>
      && EarlierOver(log, e) && Belongs(next, log, s, e)
      && (s != PreFlush && next.preFlush ==> StageDone(log, PreFlush, e))
      && (s == PostFlush ==> StageDone(log, Bar, e))
    case Issued(Plain(_, _, _, _, e)) => BarriersOver(log, e)
    case Completed(Proxy(s, e), _) => !StageDone(log, s, e)
    case Ended(r, error) =>
      && r.Plain? && r.barrier && !IsOver(log, r)
      && error == FirstError(log, r.epoch)
      && EarlierOver(log, r.epoch)
      && (forall s :: Needs(next, r, s) ==> StageDone(log, s, r.epoch))
    case _ => true
  }

  /** Submissions carry the number of barriers before them. */
  ghost predicate SubmittedInOrder(log: seq<Event>) {
    forall i, j :: 0 <= i < j < |log| && log[i].Submitted? && log[j].Submitted? &&
        log[i].req.Plain? && log[j].req.Plain?
      ==> log[i].req.epoch <= log[j].req.epoch && (log[i].req.barrier ==> log[i].req.epoch < log[j].req.epoch)
  }

  ghost predicate LogOrdered(next: Ordered, log: seq<Event>) {
    SubmittedInOrder(log) && forall k :: 0 <= k < |log| ==> EventOk(next, log[..k], log[k])
  }

  // ----- The invariant that ties the log to the fields

  ghost predicate InList(list: seq<Entry>, r: Req) {
    exists i :: 0 <= i < |list| && list[i].req == r
  }

  ghost predicate Somewhere(q: Queue, r: Req) {
    r in q.sorted || r in q.flying || r in q.orig || InList(q.list, r)
  }

  ghost predicate Accounted(q: Queue) {
    forall i :: 0 <= i < |q.log| && q.log[i].Submitted? ==>
      && (q.log[i].req.Plain? ==>
          q.log[i].req.epoch <= q.submitted && (q.log[i].req.barrier ==> q.log[i].req.epoch < q.submitted))
      && (Somewhere(q, q.log[i].req) || IsOver(q.log, q.log[i].req))
  }

  ghost predicate StagesLogged(q: Queue) {
    Busy(q) ==> forall s :: IsFlush(s) ==>
      && (!Uses(q.ordered, s) ==> s in q.ordseq)
      && (s in q.ordseq && Uses(q.ordered, s)) == StageDone(q.log, s, q.ended)
  }

  ghost predicate ErrorsLogged(q: Queue) {
    && (Busy(q) ==> q.orderr == FirstError(q.log, q.ended))
    && (forall i, e: nat :: 0 <= i < |q.log| && Touches(q.log[i], e) ==> e < q.ended || (Busy(q) && e == q.ended))
    && (forall i :: 0 <= i < |q.log| && q.log[i].Ended? ==> q.log[i].req.Plain? && q.log[i].req.epoch < q.ended)
    && (forall i :: 0 <= i < |q.log| && q.log[i].Completed? && q.log[i].req.Plain? ==> !q.log[i].req.barrier)
  }

  ghost predicate LogOk(q: Queue) {
    LogOrdered(q.next, q.log) && Accounted(q) && StagesLogged(q) && ErrorsLogged(q)
  }

  // ----- Appending to the log

  lemma OverGrows(log: seq<Event>, ev: Event, r: Req)
    ensures IsOver(log + [ev], r) == (IsOver(log, r) || OverAt(ev, r))
  {
    var l := log + [ev];
    if IsOver(log, r) {
      var i :| 0 <= i < |log| && OverAt(log[i], r);
      assert OverAt(l[i], r);
    }
    if OverAt(ev, r) {
      assert OverAt(l[|log|], r);
    }
    if IsOver(l, r) {
      var i :| 0 <= i < |l| && OverAt(l[i], r);
      if i < |log| {
        assert OverAt(log[i], r);
      }
    }
  }

  lemma {:induction false} FirstErrorGrows(log: seq<Event>, ev: Event, e: nat)
    ensures FirstError(log + [ev], e) == if FirstError(log, e) != 0 then FirstError(log, e) else ErrorOf(ev, e)
  {
  }

  lemma OrderedGrows(next: Ordered, log: seq<Event>, ev: Event)
    requires LogOrdered(next, log) && EventOk(next, log, ev)
    requires ev.Submitted? && ev.req.Plain? ==>
      forall i :: 0 <= i < |log| && log[i].Submitted? && log[i].req.Plain? ==>
        log[i].req.epoch <= ev.req.epoch && (log[i].req.barrier ==> log[i].req.epoch < ev.req.epoch)
    ensures LogOrdered(next, log + [ev])
  {
    var l := log + [ev];
    forall k | 0 <= k < |l| ensures EventOk(next, l[..k], l[k]) {
      if k < |log| {
        assert l[..k] == log[..k];
        assert EventOk(next, log[..k], log[k]);
      } else {
        assert l[..k] == log;
      }
    }
  }

  /** Moving requests between list, scheduler and driver keeps the invariant of the log. */
  lemma MoveKeeps(q: Queue, q': Queue)
    requires LogOk(q)
    requires q'.log == q.log && q'.next == q.next && q'.ordseq == q.ordseq && q'.ended == q.ended
    requires q'.submitted == q.submitted
    requires q'.ordered == q.ordered && q'.orderr == q.orderr
    requires forall i :: 0 <= i < |q.log| && q.log[i].Submitted? && Somewhere(q, q.log[i].req) ==>
      Somewhere(q', q.log[i].req)
    ensures LogOk(q')
  {
  }


  /** A submission or an issue that respects the order keeps the invariant of the log. */
  lemma QuietKeeps(q: Queue, q': Queue, ev: Event)
    requires LogOk(q) && (ev.Submitted? || ev.Issued?)
    requires q'.log == q.log + [ev] && q'.next == q.next && q'.ordseq == q.ordseq && q'.ended == q.ended
    requires q.submitted <= q'.submitted
    requires q'.ordered == q.ordered && q'.orderr == q.orderr
    requires EventOk(q.next, q.log, ev)
    requires forall i :: 0 <= i < |q.log| && q.log[i].Submitted? && Somewhere(q, q.log[i].req) ==>
      Somewhere(q', q.log[i].req)
    requires ev.Submitted? ==> Somewhere(q', ev.req)
    requires ev.Submitted? && ev.req.Plain? ==>
      ev.req.epoch == q.submitted && (ev.req.barrier ==> q.submitted < q'.submitted)
    ensures LogOk(q')
  {
    OrderedGrows(q.next, q.log, ev);
    forall r ensures IsOver(q'.log, r) == IsOver(q.log, r) {
      OverGrows(q.log, ev, r);
    }
    FirstErrorGrows(q.log, ev, q.ended);
  }

  lemma SubmitKeepsLog(q: Queue, a: Action)
    requires LogOk(q) && Enabled(q, a) && (a.SubmitSorted? || a.SubmitLast? || a.SubmitOther?)
    ensures LogOk(Apply(q, a))
  {
    var q' := Apply(q, a);
    var ev := q'.log[|q.log|];
    assert q'.log == q.log + [ev];
    forall r | Somewhere(q, r) ensures Somewhere(q', r) {
      if InList(q.list, r) {
        var i :| 0 <= i < |q.list| && q.list[i].req == r;
        var shift := if a.SubmitOther? && a.front then 1 else 0;
        assert q'.list[i + shift] == q.list[i];
      }
    }
    if a.SubmitSorted? {
      assert q'.sorted[|q.sorted|] == ev.req;
    } else if a.SubmitLast? {
      assert q'.list[|q.list|].req == ev.req;
    } else {
      assert q'.list[if a.front then 0 else |q.list|].req == ev.req;
    }
    QuietKeeps(q, q', ev);
  }

  lemma ShuffleKeepsLog(q: Queue, a: Action)
    requires LogOk(q) && Enabled(q, a) && (a.Hand? || a.Take? || a.PutBack?)
    ensures LogOk(Apply(q, a))
  {
    var q' := Apply(q, a);
    forall r | Somewhere(q, r) ensures Somewhere(q', r) {
      match a {
        case Hand(k, p) => HandKeepsPlace(q, k, p, r);
        case Take(k) => TakeKeepsPlace(q, k, r);
        case PutBack(k) => PutBackKeepsPlace(q, k, r);
      }
    }
    MoveKeeps(q, q');
  }

  lemma InRest<T>(s: seq<T>, k: nat, x: T)
    requires k < |s| && x in s && x != s[k]
    ensures x in s[..k] + s[k + 1..]
  {
  }

  lemma ListInsertKeeps(list: seq<Entry>, p: nat, e: Entry, r: Req)
    requires p <= |list| && (InList(list, r) || e.req == r)
    ensures InList(list[..p] + [e] + list[p..], r)
  {
    var l := list[..p] + [e] + list[p..];
    if e.req == r {
      assert l[p].req == r;
    } else {
      var i :| 0 <= i < |list| && list[i].req == r;
      assert l[if i < p then i else i + 1] == list[i];
    }
  }

  lemma HandKeepsPlace(q: Queue, k: nat, p: nat, r: Req)
    requires k < |q.sorted| && p <= |q.list| && Somewhere(q, r)
    ensures Somewhere(Dispatch(q, k, p), r)
  {
    if InList(q.list, r) || r == q.sorted[k] {
      ListInsertKeeps(q.list, p, Entry(q.sorted[k], false, false), r);
    } else if r in q.sorted {
      InRest(q.sorted, k, r);
    }
  }

  lemma TakeKeepsPlace(q: Queue, k: nat, r: Req)
    requires k < |q.list| && Somewhere(q, r)
    ensures Somewhere(Dequeue(q, k), r)
  {
    var q' := Dequeue(q, k);
    if r == q.list[k].req {
      assert q'.flying[|q.flying|] == r;
    } else if InList(q.list, r) {
      var i :| 0 <= i < |q.list| && q.list[i].req == r;
      assert q'.list[if i < k then i else i - 1] == q.list[i];
    }
  }

  lemma PutBackKeepsPlace(q: Queue, k: nat, r: Req)
    requires k < |q.flying| && q.OrigKnown() && Somewhere(q, r)
    ensures Somewhere(Requeue(q, k), r)
  {
    var p := if q.ordseq == {} then 0 else RequeuePosition(q, q.list, q.flying[k]);
    if InList(q.list, r) || r == q.flying[k] {
      ListInsertKeeps(q.list, p, Entry(q.flying[k], false, true), r);
    } else if r in q.flying {
      InRest(q.flying, k, r);
    }
  }


  // ----- The sequence moves on

  /** Once the drain is over, everything submitted before the barrier is. */
  lemma DrainedOver(q: Queue)
    requires FieldsOk(q) && Accounted(q) && Busy(q) && (Drained(q) || Drain in q.ordseq)
    ensures EarlierOver(q.log, q.ended)
  {
  }

  lemma CurrentBarriersOver(q: Queue)
    requires FieldsOk(q) && Accounted(q)
    ensures BarriersOver(q.log, q.ended)
  {
  }

  lemma BarrierNotOver(q: Queue, b: Req)
    requires ErrorsLogged(q) && b.Plain? && b.barrier && b.epoch == q.ended
    ensures !IsOver(q.log, b)
  {
  }

  /** The end of the sequence: q is the state with every stage reached. */
  lemma EndKeepsLog(q: Queue)
    requires LogOk(q) && Busy(q) && CurSeq(q.ordseq) == Done && EarlierOver(q.log, q.ended)
    requires |q.orig| == 1 && q.orig[0].Plain? && q.orig[0].barrier && q.orig[0].epoch == q.ended
    requires q.ordered == Effective(q.next, q.orig[0]) && DrainMode(q.next)
    ensures LogOk(q.(ordseq := {}, orig := [], ended := q.ended + 1, log := q.log + [Ended(q.orig[0], q.orderr)]))
  {
    var b := q.orig[0];
    var ev := Ended(b, q.orderr);
    var q' := q.(ordseq := {}, orig := [], ended := q.ended + 1, log := q.log + [ev]);
    BarrierNotOver(q, b);
    forall s | Needs(q.next, b, s) ensures StageDone(q.log, s, b.epoch) {
      EffectiveIsNeeded(q.next, b, s);
      assert IsFlush(s);
    }
    OrderedGrows(q.next, q.log, ev);
    EndAccounted(q, q', b);
    EndErrors(q, q', b);
  }

  lemma EndAccounted(q: Queue, q': Queue, b: Req)
    requires Accounted(q) && q.orig == [b]
    requires q' == q.(ordseq := {}, orig := [], ended := q.ended + 1, log := q.log + [Ended(b, q.orderr)])
    ensures Accounted(q')
  {
    forall i | 0 <= i < |q'.log| && q'.log[i].Submitted?
      ensures Somewhere(q', q'.log[i].req) || IsOver(q'.log, q'.log[i].req)
    {
      assert q'.log[i] == q.log[i];
      OverGrows(q.log, Ended(b, q.orderr), q.log[i].req);
    }
  }

  lemma EndErrors(q: Queue, q': Queue, b: Req)
    requires ErrorsLogged(q) && Busy(q) && b.Plain? && b.epoch == q.ended
    requires q' == q.(ordseq := {}, orig := [], ended := q.ended + 1, log := q.log + [Ended(b, q.orderr)])
    ensures ErrorsLogged(q')
  {
  }

  lemma CompleteSeqKeepsLog(q: Queue, stages: set<Stage>, error: int)
    requires FieldsOk(q) && Busy(q) && Accounted(q) && (Drain in q.ordseq + stages ==> Drained(q))
    requires LogOk(q.(orderr := if error != 0 && q.orderr == 0 then error else q.orderr, ordseq := q.ordseq + stages))
    ensures LogOk(CompleteSeq(q, stages, error).0)
  {
    var q1 := q.(orderr := if error != 0 && q.orderr == 0 then error else q.orderr, ordseq := q.ordseq + stages);
    var q2 := q1.(bug := q.bug || q.ordseq * stages != {});
    MoveKeeps(q1, q2);
    if CurSeq(q1.ordseq) == Done {
      DrainedOver(q);
      EndKeepsLog(q2);
    }
  }

  lemma {:induction false} Untouched(log: seq<Event>, e: nat)
    requires forall i :: 0 <= i < |log| ==> !Touches(log[i], e)
    ensures FirstError(log, e) == 0
    ensures forall s :: StageDone(log, s, e) ==>
      exists i :: 0 <= i < |log| && log[i].Ended? && log[i].req == Proxy(s, e)
  {
    if log != [] {
      Untouched(log[..|log| - 1], e);
    }
  }

  lemma StartOrderedKeepsLog(q: Queue)
    requires FieldsOk(q) && LogOk(q) && !Busy(q) && q.list != [] && IsBarrier(q.list[0], q.ended)
    ensures LogOk(StartOrdered(q).0)
  {
    var q1 := Stacked(q);
    StackedOk(q);
    assert EntryOk(q.ordseq, q.ended, q.submitted, q.list[0]);
    var stages := Skipped(q1.ordered, q.inFlight);
    Untouched(q.log, q.ended);
    forall r | Somewhere(q, r) ensures Somewhere(q1, r) {
      StackedKeepsPlace(q, r);
    }
    if Drain in stages {
      forall i | 0 <= i < |q.flying| ensures !q.flying[i].Plain? {
        CountZero(q.flying, i);
      }
    }
    CompleteSeqKeepsLog(q1, stages, 0);
  }

  lemma StackedKeepsPlace(q: Queue, r: Req)
    requires q.list != [] && q.list[0].req.Plain? && Somewhere(q, r) && q.orig == []
    ensures Somewhere(Stacked(q), r)
  {
    var q1 := Stacked(q);
    if InList(q.list, r) {
      var i :| 0 <= i < |q.list| && q.list[i].req == r;
      if i > 0 {
        assert q1.list[|q1.list| - |q.list| + i] == q.list[i];
      }
    }
  }


  // ----- Fetching

  /** The stage at the head belongs to the barrier whose sequence is in progress. */
  lemma HeadBelongs(q: Queue)
    requires FieldsOk(q) && LogOk(q) && q.list != [] && q.list[0].req.Proxy?
    ensures Belongs(q.next, q.log, q.list[0].req.stage, q.list[0].req.epoch)
  {
    var s := q.list[0].req.stage;
    assert EntryOk(q.ordseq, q.ended, q.submitted, q.list[0]);
    EffectiveIsNeeded(q.next, q.orig[0], s);
    forall i | 0 <= i < |q.log| && q.log[i].Submitted? && q.log[i].req.Plain? && q.log[i].req.barrier
               && q.log[i].req.epoch == q.ended
      ensures q.log[i].req == q.orig[0]
    {
      BarrierNotOver(q, q.log[i].req);
      CurrentIsOrig(q, q.log[i].req);
    }
  }

  lemma CurrentIsOrig(q: Queue, b: Req)
    requires FieldsOk(q) && Busy(q) && b.Plain? && b.barrier && b.epoch == q.ended && Somewhere(q, b)
    ensures b == q.orig[0]
  {
  }

  /** Marking the head as started logs an issue that respects the order. */
  lemma StartKeepsLog(q: Queue)
    requires FieldsOk(q) && LogOk(q) && q.list != [] && !q.list[0].started
    requires EntryOk(q.ordseq, q.ended, q.submitted, q.list[0].(started := true))
    ensures LogOk(q.(list := q.list[0 := q.list[0].(started := true)], log := q.log + [Issued(q.list[0].req)]))
  {
    var r := q.list[0].req;
    var q' := q.(list := q.list[0 := q.list[0].(started := true)], log := q.log + [Issued(r)]);
    if r.Plain? {
      CurrentBarriersOver(q);
    } else if r.Proxy? {
      DrainedOver(q);
      HeadBelongs(q);
      assert q.orig[0].data || r.stage == PreFlush by {
        assert r.stage !in q.ordseq;
      }
    }
    forall x | Somewhere(q, x) ensures Somewhere(q', x) {
      if InList(q.list, x) {
        var i :| 0 <= i < |q.list| && q.list[i].req == x;
        assert q'.list[i].req == x;
      }
    }
    QuietKeeps(q, q', Issued(r));
  }

  lemma FetchKeepsLog(q: Queue)
    requires FieldsOk(q) && LogOk(q) && q.list != []
    ensures LogOk(Peek(q))
  {
    var e := q.list[0];
    assert EntryOk(q.ordseq, q.ended, q.submitted, e);
    if !Busy(q) && e.req.Plain? {
      HeadIsCurrent(q);
    }
    if !Busy(q) && e.req.Plain? && e.req.barrier {
      FetchBarrierKeepsLog(q);
    } else if Busy(q) && e.req.Plain? && e.req.epoch > q.ended {
      var j := OtherColourFirst(q, 0);
    } else if !e.started && (!Busy(q) || e.req.Special? || ReqSeq(q, e.req).Rank() <= CurSeq(q.ordseq).Rank()) {
      StartKeepsLog(q);
    }
  }

  lemma FetchBarrierKeepsLog(q: Queue)
    requires FieldsOk(q) && LogOk(q) && q.list != [] && !Busy(q) && IsBarrier(q.list[0], q.ended)
    ensures LogOk(Peek(q))
  {
    assert EntryOk(q.ordseq, q.ended, q.submitted, q.list[0]);
    StartOrderedKeeps(q);
    StartOrderedKeepsLog(q);
    var (q1, ret, given) := StartOrdered(q);
    if ret && given {
      var o := Effective(q.next, q.list[0].req);
      FirstProxyIsCurrent(o, q.inFlight, q.ended);
      assert q1.list[0] == Proxies(o, q.ended)[0];
      assert q1.ordseq == {Started} + Skipped(o, q.inFlight);
      assert EntryOk(q1.ordseq, q1.ended, q1.submitted, q1.list[0]);
      StartKeepsLog(q1);
    }
  }

  // ----- Completing

  lemma CompletedPlainKeepsLog(q: Queue, k: nat, error: int)
    requires FieldsOk(q) && LogOk(q) && k < |q.flying| && !q.flying[k].Proxy?
    ensures LogOk(q.(flying := Remove(q.flying, k), log := q.log + [Completed(q.flying[k], error)]))
  {
    var r := q.flying[k];
    var ev := Completed(r, error);
    var q' := q.(flying := Remove(q.flying, k), log := q.log + [ev]);
    assert FlyingOk(q.ordseq, q.ended, r);
    OrderedGrows(q.next, q.log, ev);
    forall x ensures IsOver(q'.log, x) == (IsOver(q.log, x) || x == r) {
      OverGrows(q.log, ev, x);
    }
    forall x | Somewhere(q, x) ensures Somewhere(q', x) || x == r {
      if x in q.flying && x != r {
        InRest(q.flying, k, x);
      }
    }
    FirstErrorGrows(q.log, ev, q.ended);
    assert Accounted(q');
  }

  /** The log and the stages once proxy k has completed. */
  ghost function ProxyLogged(q: Queue, k: nat, error: int): Queue
    requires k < |q.flying| && q.flying[k].Proxy?
  {
    var r := q.flying[k];
    q.(flying := Remove(q.flying, k), log := q.log + [Completed(r, error)],
       orderr := if error != 0 && q.orderr == 0 then error else q.orderr, ordseq := q.ordseq + {r.stage})
  }

  lemma ProxyLoggedAccounted(q: Queue, k: nat, error: int)
    requires Accounted(q) && k < |q.flying| && q.flying[k].Proxy?
    ensures Accounted(ProxyLogged(q, k, error))
  {
    var r := q.flying[k];
    var ev := Completed(r, error);
    var q' := ProxyLogged(q, k, error);
    forall i | 0 <= i < |q'.log| && q'.log[i].Submitted?
      ensures Somewhere(q', q'.log[i].req) || IsOver(q'.log, q'.log[i].req)
    {
      var x := q.log[i].req;
      OverGrows(q.log, ev, x);
      if x in q.flying && x != r {
        InRest(q.flying, k, x);
      }
    }
  }

  lemma ProxyLoggedStages(q: Queue, k: nat, error: int)
    requires StagesLogged(q) && k < |q.flying| && q.flying[k].Proxy?
    requires Busy(q) && q.flying[k].epoch == q.ended && IsFlush(q.flying[k].stage) && q.flying[k].stage !in q.ordseq
    ensures StagesLogged(ProxyLogged(q, k, error))
  {
    var r := q.flying[k];
    forall s | IsFlush(s)
      ensures StageDone(ProxyLogged(q, k, error).log, s, q.ended) == (StageDone(q.log, s, q.ended) || s == r.stage)
    {
      OverGrows(q.log, Completed(r, error), Proxy(s, q.ended));
    }
  }

  lemma ProxyLoggedErrors(q: Queue, k: nat, error: int)
    requires ErrorsLogged(q) && k < |q.flying| && q.flying[k].Proxy? && Busy(q) && q.flying[k].epoch == q.ended
    ensures ErrorsLogged(ProxyLogged(q, k, error))
  {
  }

  lemma CompletedProxyKeepsLog(q: Queue, k: nat, error: int)
    requires FieldsOk(q) && LogOk(q) && k < |q.flying| && q.flying[k].Proxy?
    ensures LogOk(ProxyLogged(q, k, error))
  {
    var r := q.flying[k];
    assert FlyingOk(q.ordseq, q.ended, r);
    assert r.stage !in q.ordseq;
    assert EventOk(q.next, q.log, Completed(r, error));
    OrderedGrows(q.next, q.log, Completed(r, error));
    ProxyLoggedAccounted(q, k, error);
    ProxyLoggedStages(q, k, error);
    ProxyLoggedErrors(q, k, error);
  }

  /** elv_completed_request, when q is the state without the request. */
  lemma DrainCheckKeepsLog(q: Queue, r: Req)
    requires FieldsOk(q.(inFlight := if r.Accounted() then q.inFlight - 1 else q.inFlight)) && LogOk(q)
    ensures LogOk(CompletedRequest(q, r))
  {
    var q1 := q.(inFlight := if r.Accounted() then q.inFlight - 1 else q.inFlight);
    MoveKeeps(q, q1);
    if q1.ordseq != {} && q1.inFlight == 0 && CurSeq(q1.ordseq) == Drain
       && (q1.list == [] || ReqSeq(q1, q1.list[0].req).Rank() > Drain.Rank()) {
      DrainFound(q1);
      CompleteSeqKeepsLog(q1, {Drain}, 0);
    }
  }

  lemma FinishPlainKeepsLog(q: Queue, k: nat, error: int)
    requires FieldsOk(q) && LogOk(q) && k < |q.flying| && !q.flying[k].Proxy?
    ensures LogOk(Complete(q, k, error))
  {
    RemoveFlyingOk(q, k);
    CompletedPlainKeepsLog(q, k, error);
    DrainCheckKeepsLog(q.(flying := Remove(q.flying, k), log := q.log + [Completed(q.flying[k], error)]), q.flying[k]);
  }

  /** The state blk_ordered_complete_seq finds when proxy k has completed. */
  ghost function ProxyFinished(q: Queue, k: nat, error: int): Queue
    requires k < |q.flying|
  {
    var r := q.flying[k];
    q.(flying := Remove(q.flying, k), log := q.log + [Completed(r, error)],
       inFlight := if r.Accounted() then q.inFlight - 1 else q.inFlight)
  }

  lemma ProxyFinishedOk(q: Queue, k: nat, error: int)
    requires FieldsOk(q) && k < |q.flying| && q.flying[k].Proxy?
    ensures var q1 := ProxyFinished(q, k, error);
      FieldsOk(q1) && Busy(q1) && Drained(q1) && Complete(q, k, error) == CompleteSeq(q1, {q.flying[k].stage}, error).0
  {
    assert FlyingOk(q.ordseq, q.ended, q.flying[k]);
    RemoveFlyingOk(q, k);
    ProxyDone(q, k);
  }

  lemma ProxyFinishedAccounted(q: Queue, k: nat, error: int)
    requires Accounted(q) && k < |q.flying| && q.flying[k].Proxy?
    ensures Accounted(ProxyFinished(q, k, error))
  {
    ProxyLoggedAccounted(q, k, error);
  }

  lemma FinishProxyKeepsLog(q: Queue, k: nat, error: int)
    requires FieldsOk(q) && LogOk(q) && k < |q.flying| && q.flying[k].Proxy?
    ensures LogOk(Complete(q, k, error))
  {
    ProxyFinishedOk(q, k, error);
    ProxyFinishedAccounted(q, k, error);
    CompletedProxyKeepsLog(q, k, error);
    CompleteSeqKeepsLog(ProxyFinished(q, k, error), {q.flying[k].stage}, error);
  }

  lemma FailPartKeepsLog(q: Queue, k: nat, error: int)
    requires FieldsOk(q) && LogOk(q) && k < |q.flying| && q.flying[k].Proxy?
    ensures LogOk(BarFailed(q, k, error))
  {
    var ev := Failed(q.flying[k].epoch, error);
    assert FlyingOk(q.ordseq, q.ended, q.flying[k]);
    OrderedGrows(q.next, q.log, ev);
    forall x ensures IsOver(q.log + [ev], x) == IsOver(q.log, x) {
      OverGrows(q.log, ev, x);
    }
    FirstErrorGrows(q.log, ev, q.ended);
  }


  // ----- Whole runs

  lemma StepKeeps(q: Queue, a: Action)
    requires FieldsOk(q) && LogOk(q) && Enabled(q, a)
    ensures FieldsOk(Apply(q, a)) && LogOk(Apply(q, a))
  {
    match a {
      case SubmitSorted(id, data) => SubmitSortKeeps(q, id, data); SubmitKeepsLog(q, a);
      case SubmitLast(id, barrier, data) =>
        if barrier { SubmitBarrierKeeps(q, id, data); } else { SubmitPlainKeeps(q, id, data); }
        SubmitKeepsLog(q, a);
      case SubmitOther(id, discard, front) => SubmitSpecialKeeps(q, id, discard, front); SubmitKeepsLog(q, a);
      case Hand(k, p) => DispatchKeeps(q, k, p); ShuffleKeepsLog(q, a);
      case Fetch =>
        if Busy(q) { PeekBusyKeeps(q); } else { PeekIdleKeeps(q); }
        FetchKeepsLog(q);
      case Take(k) => DequeueKeeps(q, k); ShuffleKeepsLog(q, a);
      case PutBack(k) => RequeueKeeps(q, k); ShuffleKeepsLog(q, a);
      case Finish(k, error) =>
        CompleteKeeps(q, k, error);
        if q.flying[k].Proxy? { FinishProxyKeepsLog(q, k, error); } else { FinishPlainKeepsLog(q, k, error); }
      case FailPart(k, error) => FailPartKeepsLog(q, k, error);
    }
  }

  lemma InitialOk(next: Ordered)
    requires DrainMode(next)
    ensures FieldsOk(Initial(next)) && LogOk(Initial(next))
  {
  }

  lemma NextFixed(q: Queue, a: Action)
    requires Enabled(q, a)
    ensures Apply(q, a).next == q.next
  {
  }

  lemma {:induction false} RunKeeps(next: Ordered, states: seq<Queue>, actions: seq<Action>, n: nat)
    requires DrainMode(next) && IsRun(next, states, actions) && n < |states|
    ensures FieldsOk(states[n]) && LogOk(states[n]) && states[n].next == next
  {
    if n == 0 {
      InitialOk(next);
    } else {
      RunKeeps(next, states, actions, n - 1);
      var q, a := states[n - 1], actions[n - 1];
      assert Enabled(q, a) && states[n - 1 + 1] == Apply(q, a);
      StepKeeps(q, a);
      NextFixed(q, a);
    }
  }

  /** No BUG_ON of blk_ordered_complete_seq is ever reached: no stage bit is set twice. */
  lemma NoStageTwice(next: Ordered, states: seq<Queue>, actions: seq<Action>, n: nat)
    requires DrainMode(next) && IsRun(next, states, actions) && n < |states|
    ensures !states[n].bug
  {
    RunKeeps(next, states, actions, n);
  }

  /**
   Barrier order: when any stage of barrier b is issued, every file-system request submitted before b
   is over; the bar only after the pre-flush and the post-flush only after the bar.
   */
  lemma BarrierAfterEarlier(next: Ordered, states: seq<Queue>, actions: seq<Action>, n: nat, i: nat, j: nat, k: nat)
    requires DrainMode(next) && IsRun(next, states, actions) && n < |states|
    requires i < j && j < k && k < |states[n].log|
    requires states[n].log[i].Submitted? && states[n].log[i].req.Plain?
    requires states[n].log[j].Submitted? && states[n].log[j].req.Plain? && states[n].log[j].req.barrier
    requires states[n].log[k].Issued? && states[n].log[k].req.Proxy?
    requires states[n].log[k].req.epoch == states[n].log[j].req.epoch
    ensures var log := states[n].log; var s := log[k].req.stage;
      && IsOver(log[..k], log[i].req)
      && (s != PreFlush && next.preFlush ==> StageDone(log[..k], PreFlush, log[j].req.epoch))
      && (s == PostFlush ==> StageDone(log[..k], Bar, log[j].req.epoch))
  {
    RunKeeps(next, states, actions, n);
    var log := states[n].log;
    assert EventOk(next, log[..k], log[k]);
    assert log[..k][i] == log[i];
  }

  /** No file-system request submitted after barrier b is issued before b's sequence has ended. */
  lemma LaterAfterBarrier(next: Ordered, states: seq<Queue>, actions: seq<Action>, n: nat, i: nat, j: nat, k: nat)
    requires DrainMode(next) && IsRun(next, states, actions) && n < |states|
    requires i < j && j < k && k < |states[n].log|
    requires states[n].log[i].Submitted? && states[n].log[i].req.Plain? && states[n].log[i].req.barrier
    requires states[n].log[j].Submitted? && states[n].log[j].req.Plain?
    requires states[n].log[k] == Issued(states[n].log[j].req)
    ensures IsOver(states[n].log[..k], states[n].log[i].req)
  {
    RunKeeps(next, states, actions, n);
    var log := states[n].log;
    assert EventOk(next, log[..k], log[k]);
    assert log[..k][i] == log[i];
  }

  /**
   A barrier ends once, with the first error of its stages, after all it needs have completed and
   every earlier file-system request is over; and each stage completes at most once.
   */
  lemma BarrierEndsOnce(next: Ordered, states: seq<Queue>, actions: seq<Action>, n: nat, k: nat)
    requires DrainMode(next) && IsRun(next, states, actions) && n < |states| && k < |states[n].log|
    ensures var log := states[n].log;
      && (log[k].Ended? ==>
            && log[k].req.Plain? && !IsOver(log[..k], log[k].req)
            && log[k].error == FirstError(log[..k], log[k].req.epoch)
            && EarlierOver(log[..k], log[k].req.epoch)
            && forall s :: Needs(next, log[k].req, s) ==> StageDone(log[..k], s, log[k].req.epoch))
      && (log[k].Completed? && log[k].req.Proxy? ==> !StageDone(log[..k], log[k].req.stage, log[k].req.epoch))
  {
    RunKeeps(next, states, actions, n);
    assert EventOk(next, states[n].log[..k], states[n].log[k]);
  }

  /** No stage is issued that the barrier does not need: an empty one has no bar and no post-flush. */
  lemma OnlyNeededStages(next: Ordered, states: seq<Queue>, actions: seq<Action>, n: nat, j: nat, k: nat)
    requires DrainMode(next) && IsRun(next, states, actions) && n < |states| && j < k < |states[n].log|
    requires states[n].log[j].Submitted? && states[n].log[j].req.Plain? && states[n].log[j].req.barrier
    requires states[n].log[k].Issued? && states[n].log[k].req.Proxy?
    requires states[n].log[k].req.epoch == states[n].log[j].req.epoch
    ensures Needs(next, states[n].log[j].req, states[n].log[k].req.stage)
  {
    RunKeeps(next, states, actions, n);
    var log := states[n].log;
    assert EventOk(next, log[..k], log[k]);
    assert log[..k][j] == log[j];
  }

  /** Nothing that was submitted is lost: it waits, is with the driver, is the barrier in progress, or is over. */
  lemma NothingIsLost(next: Ordered, states: seq<Queue>, actions: seq<Action>, n: nat, i: nat)
    requires DrainMode(next) && IsRun(next, states, actions) && n < |states| && i < |states[n].log|
    requires states[n].log[i].Submitted?
    ensures var q := states[n]; var r := q.log[i].req;
      r in q.sorted || r in q.flying || r in q.orig || IsOver(q.log, r)
      || exists k :: 0 <= k < |q.list| && q.list[k].req == r
  {
    RunKeeps(next, states, actions, n);
  }

  // ----- What the driver has

  /** The requests that count as in flight: those of the file system, discards, and the bar. */
  ghost predicate InFlight(r: Req) {
    match r
    case Plain(_, _, _, _, _) => true
    case Special(_, discard) => discard
    case Proxy(stage, _) => stage == Bar
  }

  ghost function FlyingPlaces(flying: seq<Req>): set<nat> {
    set i: nat | i < |flying| && InFlight(flying[i])
  }

  lemma {:induction false} CountedPlaces(flying: seq<Req>)
    ensures CountAccounted(flying) == |FlyingPlaces(flying)|
  {
    if flying != [] {
      var n := |flying| - 1;
      CountedPlaces(flying[..n]);
      assert FlyingPlaces(flying) == FlyingPlaces(flying[..n]) + if InFlight(flying[n]) then {n} else {};
    }
  }

  /** Over every run in_flight is the number of such requests with the driver. */
  lemma InFlightIsCount(next: Ordered, states: seq<Queue>, actions: seq<Action>, n: nat)
    requires DrainMode(next) && IsRun(next, states, actions) && n < |states|
    ensures states[n].inFlight == |FlyingPlaces(states[n].flying)|
  {
    RunKeeps(next, states, actions, n);
    CountedPlaces(states[n].flying);
  }

  // ----- Outside drain mode

  /** Without an ordering mode a barrier is ended at once, with -EOPNOTSUPP, and nothing is issued for it. */
  lemma UnsupportedBarrierFails(q: Queue)
    requires q.list != [] && q.ordseq == {} && q.next == Ordered(false, false, false, false, false)
    requires q.list[0].req.Plain? && q.list[0].req.barrier
    ensures var q' := Peek(q);
      && q'.list == q.list[1..] && q'.log == q.log + [Ended(q.list[0].req, -95)] && q'.ended == q.ended + 1
      && q'.ordseq == {} && q'.flying == q.flying && DoOrdered(q) == (q', false, false)
  {
  }

  /** Of a mode that orders by tag, an empty barrier that would need no pre-flush is ordered by draining. */
  lemma EffectiveExactly(next: Ordered, b: Req)
    requires b.Plain?
    ensures var o := Effective(next, b);
      && o.preFlush == next.preFlush && o.bar == (b.data && next.bar) && o.postFlush == (b.data && next.postFlush)
      && o.byTag == (next.byTag && (b.data || next.preFlush))
      && o.byDrain == (next.byDrain || (next.byTag && !b.data && !next.preFlush))
  {
  }

  // ----- What the pieces decide

  /**
   Completing stages ends the sequence exactly when all five are reached, and reports a bug exactly when one of them
   was reached before.
   */
  lemma CompleteSeqExactly(q: Queue, stages: set<Stage>, error: int)
    requires |q.orig| == 1
    ensures var (q', over) := CompleteSeq(q, stages, error);
      && (over <==> {Started, Drain, PreFlush, Bar, PostFlush} <= q.ordseq + stages)
      && (q'.bug <==> q.bug || exists s :: s in q.ordseq && s in stages)
      && (over ==> q'.ordseq == {} && q'.orig == [] && q'.ended == q.ended + 1)
      && (!over ==> q'.ordseq == q.ordseq + stages && q'.orig == q.orig && q'.ended == q.ended)
  {
    var both := q.ordseq * stages;
    if s :| s in q.ordseq && s in stages {
      assert s in both;
    } else {
      assert both == {};
    }
  }

  /** The barrier leaves the list as a request that is dequeued does. */
  lemma StackedDequeues(q: Queue)
    requires q.list != [] && q.list[0].req.Plain?
    ensures Stacked(q).inFlight == Dequeue(q, 0).inFlight && Stacked(q).orig == [q.list[0].req]
  {
  }

  /** Starting a sequence hands out its first stage exactly if fetching again would. */
  lemma StartIsFetch(q: Queue)
    requires FieldsOk(q) && !Busy(q) && q.list != [] && IsBarrier(q.list[0], q.ended)
    ensures var (q', ret, given) := StartOrdered(q);
      && (ret <==> Busy(q'))
      && (ret && q'.list != [] && q'.list[0].req.Proxy? && q'.OrigKnown() ==> (given <==> DoOrdered(q').2))
      && (ret && (q'.list == [] || !q'.list[0].req.Proxy?) ==> !given)
  {
    var o := Effective(q.next, q.list[0].req);
    StartOrderedKeeps(q);
    assert EntryOk(q.ordseq, q.ended, q.submitted, q.list[0]);
    if Proxies(o, q.ended) != [] && q.inFlight == 0 {
      FirstProxyIsCurrent(o, q.inFlight, q.ended);
    }
    if Proxies(o, q.ended) == [] && |q.list| > 1 {
      assert EntryOk(q.ordseq, q.ended, q.submitted, q.list[1]);
    }
  }

  /** What fetching decides apart from the turn of the stages. */
  lemma FetchDecides(q: Queue)
    requires q.list != [] && q.OrigKnown()
    ensures var rq := q.list[0].req;
      && (q.ordseq == {} && !(rq.Plain? && rq.barrier) ==> DoOrdered(q) == (q, true, true))
      && (q.ordseq != {} && rq.Special? ==> DoOrdered(q) == (q, true, true))
      && (q.ordseq != {} && rq.Proxy? && q.ordered.byTag ==> DoOrdered(q) == (q, true, true))
      && (q.ordseq != {} && rq.Plain? && q.ordered.byTag ==> DoOrdered(q) == (q, true, !rq.barrier))
  {
  }

  /** A request that is handed out is marked as started and, the first time, logged as issued; another is left alone. */
  lemma FetchIssues(q: Queue)
    requires q.list != [] && q.OrigKnown()
    ensures var (q1, ret, given) := DoOrdered(q); var q2 := Peek(q);
      if ret && given && q1.list != [] then
        && |q2.list| == |q1.list| && q2.list[1..] == q1.list[1..] && q2.list[0] == q1.list[0].(started := true)
        && q2.log == (if q1.list[0].started then q1.log else q1.log + [Issued(q1.list[0].req)])
      else q2 == q1
  {
  }

  /** elv_dispatch_sort may go ahead of a request exactly if it is none of these. */
  lemma PassedExactly(e: Entry)
    ensures !e.Stop() <==>
      !e.started && !e.soft && match e.req
        case Plain(_, barrier, _, _, _) => !barrier
        case Special(_, _) => true
        case Proxy(_, _) => false
  {
  }
}
