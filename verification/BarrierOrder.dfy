/**
 What every run of the barrier machine keeps in drain mode, and the order it gives.
 */
module BarrierOrder {
  import opened Barrier

  // ----- Runs

  datatype Action =
    | SubmitSorted(id: nat, data: bool)
    | SubmitLast(id: nat, barrier: bool, data: bool)
    | SubmitOther(id: nat, discard: bool, front: bool)
    | Hand(k: nat, p: nat)
    | Fetch
    | Take(k: nat)
    | PutBack(k: nat)
    | Finish(k: nat, error: int)
    | FailPart(k: nat, error: int)

  /** No request submitted so far has this number. */
  ghost predicate Fresh(log: seq<Event>, id: nat) {
    forall i :: 0 <= i < |log| && log[i].Submitted? ==> !log[i].req.Proxy? && log[i].req.id != id
  }

  ghost predicate Enabled(q: Queue, a: Action) {
    q.OrigKnown() &&
    match a
    case SubmitSorted(id, _) => Fresh(q.log, id)
    case SubmitLast(id, _, _) => Fresh(q.log, id) && q.sorted == []
    case SubmitOther(id, _, _) => Fresh(q.log, id)
    case Hand(k, p) => k < |q.sorted| && p <= |q.list| && forall i :: p <= i < |q.list| ==> !q.list[i].Stop()
    case Fetch => q.list != []
    case Take(k) => k < |q.list| && q.list[k].started
    case PutBack(k) => k < |q.flying|
    case Finish(k, _) => k < |q.flying|
    case FailPart(k, _) => k < |q.flying| && q.flying[k].Proxy? && q.flying[k].stage == Bar
  }

  ghost function Apply(q: Queue, a: Action): Queue
    requires Enabled(q, a)
  {
    match a
    case SubmitSorted(id, data) => SubmitSort(q, id, data)
    case SubmitLast(id, barrier, data) => SubmitBack(q, id, barrier, data)
    case SubmitOther(id, discard, front) => SubmitSpecial(q, id, discard, front)
    case Hand(k, p) => Dispatch(q, k, p)
    case Fetch => Peek(q)
    case Take(k) => Dequeue(q, k)
    case PutBack(k) => Requeue(q, k)
    case Finish(k, error) => Complete(q, k, error)
    case FailPart(k, error) => BarFailed(q, k, error)
  }

  function Initial(next: Ordered): Queue {
    Queue(next, [], [], [], 0, {}, 0, next, false, [], 0, 0, false, [])
  }

  /** states is a run: it starts empty and every state comes from the one before by an enabled action. */
  ghost predicate IsRun(next: Ordered, states: seq<Queue>, actions: seq<Action>) {
    && |states| == |actions| + 1
    && states[0] == Initial(next)
    && forall i :: 0 <= i < |actions| ==>
      Enabled(states[i], actions[i]) && states[i + 1] == Apply(states[i], actions[i])
  }

  // ----- The invariant of the fields

  /** QUEUE_ORDERED_DRAIN, QUEUE_ORDERED_DRAIN_FLUSH or QUEUE_ORDERED_DRAIN_FUA. */
  ghost predicate DrainMode(o: Ordered) {
    o.byDrain && !o.byTag && o.bar
  }

  ghost predicate Busy(q: Queue) {
    q.ordseq != {}
  }

  ghost function Odd(n: nat): bool {
    n % 2 == 1
  }

  /** The place of an ordered request among all of them. */
  ghost function Key(r: Req): nat
    requires !r.Special?
  {
    match r
    case Plain(_, barrier, _, _, epoch) => 4 * epoch + if barrier then 2 else 0
    case Proxy(s, epoch) => 4 * epoch + if s == PreFlush then 1 else if s == Bar then 2 else 3
  }

  ghost predicate Precedes(a: Req, b: Req) {
    a.Special? || b.Special? || Key(a) < Key(b) || (Key(a) == Key(b) && a.Plain? && !a.barrier)
  }

  ghost predicate InOrder(list: seq<Entry>) {
    forall i, j :: 0 <= i < j < |list| ==> Precedes(list[i].req, list[j].req)
  }

  ghost predicate IsFlush(s: Stage) {
    s == PreFlush || s == Bar || s == PostFlush
  }

  ghost predicate EntryOk(ordseq: set<Stage>, ended: nat, submitted: nat, e: Entry) {
    match e.req
    case Special(_, _) => e.soft
    case Plain(_, barrier, _, color, epoch) =>
      && color == Odd(epoch) && ended <= epoch <= submitted
      && (barrier ==> epoch < submitted && !e.started && e.soft)
      && (e.started ==> epoch == ended)
      && (ordseq != {} && epoch == ended ==> e.soft && !barrier && Drain !in ordseq)
    case Proxy(s, epoch) =>
      && ordseq != {} && epoch == ended && e.soft && IsFlush(s) && s !in ordseq
      && (e.started ==> s == CurSeq(ordseq))
  }

  ghost predicate FlyingOk(ordseq: set<Stage>, ended: nat, r: Req) {
    match r
    case Special(_, _) => true
    case Plain(_, barrier, _, color, epoch) =>
      !barrier && epoch == ended && color == Odd(epoch) && (ordseq != {} ==> Drain !in ordseq)
    case Proxy(s, epoch) =>
      ordseq != {} && epoch == ended && IsFlush(s) && s == CurSeq(ordseq)
  }

  ghost predicate SortedOk(submitted: nat, r: Req) {
    r.Plain? && !r.barrier && r.epoch == submitted && r.color == Odd(r.epoch)
  }

  /** No proxy is twice with the driver, or with the driver and in the list. */
  ghost predicate OneProxy(flying: seq<Req>, list: seq<Entry>) {
    && (forall i, j :: 0 <= i < j < |flying| ==> !(flying[i].Proxy? && flying[j].Proxy?))
    && (forall i, j :: 0 <= i < |flying| && 0 <= j < |list| && flying[i].Proxy? ==> flying[i] != list[j].req)
  }

  ghost predicate IsBarrier(e: Entry, b: nat) {
    e.req.Plain? && e.req.barrier && e.req.epoch == b
  }

  /** Barrier number b waits in the list. */
  ghost predicate Waiting(list: seq<Entry>, b: nat) {
    exists i :: 0 <= i < |list| && IsBarrier(list[i], b)
  }

  ghost predicate BarriersWait(list: seq<Entry>, busy: bool, ended: nat, submitted: nat) {
    forall b: nat :: ended <= b < submitted && !(busy && b == ended) ==> Waiting(list, b)
  }

  ghost predicate ListOk(ordseq: set<Stage>, ended: nat, submitted: nat, list: seq<Entry>) {
    && InOrder(list)
    && (forall i :: 0 <= i < |list| ==> EntryOk(ordseq, ended, submitted, list[i]))
    && BarriersWait(list, ordseq != {}, ended, submitted)
  }

  ghost predicate AllFlyingOk(ordseq: set<Stage>, ended: nat, flying: seq<Req>) {
    forall i :: 0 <= i < |flying| ==> FlyingOk(ordseq, ended, flying[i])
  }

  function CountAccounted(s: seq<Req>): nat {
    if s == [] then 0 else CountAccounted(s[..|s| - 1]) + if s[|s| - 1].Accounted() then 1 else 0
  }

  ghost predicate SequenceOk(q: Queue) {
    if Busy(q) then
      && Started in q.ordseq && CurSeq(q.ordseq) != Done
      && |q.orig| == 1 && q.orig[0].Plain? && q.orig[0].barrier
      && q.orig[0].epoch == q.ended && q.orig[0].color == Odd(q.ended)
      && q.ended < q.submitted && q.ordered == Effective(q.next, q.orig[0])
    else q.orig == []
  }

  ghost predicate FieldsOk(q: Queue) {
    && DrainMode(q.next) && !q.bug
    && q.ended <= q.submitted && q.ordcolor == Odd(q.submitted)
    && q.inFlight == CountAccounted(q.flying)
    && SequenceOk(q) && OneProxy(q.flying, q.list)
    && ListOk(q.ordseq, q.ended, q.submitted, q.list)
    && AllFlyingOk(q.ordseq, q.ended, q.flying)
    && (forall i :: 0 <= i < |q.sorted| ==> SortedOk(q.submitted, q.sorted[i]))
  }

  // ----- Inserting into and removing from the list

  function Insert<T>(s: seq<T>, p: nat, e: T): seq<T>
    requires p <= |s|
  {
    s[..p] + [e] + s[p..]
  }

  function Remove<T>(s: seq<T>, k: nat): seq<T>
    requires k < |s|
  {
    s[..k] + s[k + 1..]
  }

  lemma InsertOk(ordseq: set<Stage>, ended: nat, submitted: nat, list: seq<Entry>, p: nat, e: Entry)
    requires p <= |list| && ListOk(ordseq, ended, submitted, list) && EntryOk(ordseq, ended, submitted, e)
    requires forall i :: 0 <= i < p ==> Precedes(list[i].req, e.req)
    requires forall i :: p <= i < |list| ==> Precedes(e.req, list[i].req)
    ensures ListOk(ordseq, ended, submitted, Insert(list, p, e))
  {
    var l := Insert(list, p, e);
    forall b: nat | Waiting(list, b) ensures Waiting(l, b) {
      var i :| 0 <= i < |list| && IsBarrier(list[i], b);
      assert l[if i < p then i else i + 1] == list[i];
    }
    assert forall i :: 0 <= i < |l| ==> l[i] == if i < p then list[i] else if i == p then e else list[i - 1];
  }

  lemma RemoveOk(ordseq: set<Stage>, ended: nat, submitted: nat, list: seq<Entry>, k: nat)
    requires k < |list| && ListOk(ordseq, ended, submitted, list)
    requires !(list[k].req.Plain? && list[k].req.barrier)
    ensures ListOk(ordseq, ended, submitted, Remove(list, k))
  {
    var l := Remove(list, k);
    forall b: nat | Waiting(list, b) ensures Waiting(l, b) {
      var i :| 0 <= i < |list| && IsBarrier(list[i], b);
      assert l[if i < k then i else i - 1] == list[i];
    }
    assert forall i :: 0 <= i < |l| ==> l[i] == if i < k then list[i] else list[i + 1];
  }

  // ----- Each action keeps the invariant of the fields

  lemma SubmitSortKeeps(q: Queue, id: nat, data: bool)
    requires FieldsOk(q)
    ensures FieldsOk(SubmitSort(q, id, data))
  {
  }

  lemma SubmitPlainKeeps(q: Queue, id: nat, data: bool)
    requires FieldsOk(q) && q.sorted == []
    ensures FieldsOk(SubmitBack(q, id, false, data))
  {
    var e := Entry(Plain(id, false, data, q.ordcolor, q.submitted), false, true);
    assert q.list + [e] == Insert(q.list, |q.list|, e);
    forall i | 0 <= i < |q.list| ensures Precedes(q.list[i].req, e.req) {
      assert EntryOk(q.ordseq, q.ended, q.submitted, q.list[i]);
    }
    if Busy(q) && q.submitted == q.ended { assert false; }
    InsertOk(q.ordseq, q.ended, q.submitted, q.list, |q.list|, e);
  }


  lemma SubmitBarrierKeeps(q: Queue, id: nat, data: bool)
    requires FieldsOk(q) && q.sorted == []
    ensures FieldsOk(SubmitBack(q, id, true, data))
  {
    var q' := SubmitBack(q, id, true, data);
    var e := Entry(Plain(id, true, data, q.ordcolor, q.submitted), false, true);
    forall i | 0 <= i < |q.list|
      ensures EntryOk(q.ordseq, q.ended, q'.submitted, q.list[i]) && Precedes(q.list[i].req, e.req)
    {
      assert EntryOk(q.ordseq, q.ended, q.submitted, q.list[i]);
    }
    forall b: nat | q.ended <= b < q'.submitted && !(Busy(q) && b == q.ended) ensures Waiting(q'.list, b) {
      if b < q.submitted {
        assert Waiting(q.list, b);
        var i :| 0 <= i < |q.list| && IsBarrier(q.list[i], b);
        assert IsBarrier(q'.list[i], b);
      } else {
        assert IsBarrier(q'.list[|q.list|], b);
      }
    }
    assert EntryOk(q.ordseq, q.ended, q'.submitted, e);
  }

  lemma SubmitSpecialKeeps(q: Queue, id: nat, discard: bool, front: bool)
    requires FieldsOk(q)
    ensures FieldsOk(SubmitSpecial(q, id, discard, front))
  {
    var e := Entry(Special(id, discard), false, true);
    var p := if front then 0 else |q.list|;
    assert (if front then [e] + q.list else q.list + [e]) == Insert(q.list, p, e);
    InsertOk(q.ordseq, q.ended, q.submitted, q.list, p, e);
  }

  /** A waiting barrier stands after every request of its epoch and before every later one. */
  lemma WaitingBetween(q: Queue, b: nat, i: nat) returns (j: nat)
    requires FieldsOk(q) && Waiting(q.list, b) && i < |q.list| && !q.list[i].req.Special? && !IsBarrier(q.list[i], b)
    ensures j < |q.list| && IsBarrier(q.list[j], b)
    ensures Key(q.list[i].req) > 4 * b + 2 ==> j < i
    ensures Key(q.list[i].req) < 4 * b + 2 ==> i < j
  {
    j :| 0 <= j < |q.list| && IsBarrier(q.list[j], b);
    if i < j {
      assert Precedes(q.list[i].req, q.list[j].req);
    } else {
      assert Precedes(q.list[j].req, q.list[i].req);
    }
  }

  /** A request of an epoch that a barrier has closed has a request that may not be passed behind it. */
  lemma StopBehind(q: Queue, i: nat) returns (j: nat)
    requires FieldsOk(q) && i < |q.list| && q.list[i].req.Plain? && q.list[i].req.epoch < q.submitted
    ensures i <= j < |q.list| && q.list[j].Stop()
  {
    j := i;
    var x := q.list[i];
    assert EntryOk(q.ordseq, q.ended, q.submitted, x);
    if !x.Stop() {
      assert Waiting(q.list, x.req.epoch);
      j := WaitingBetween(q, x.req.epoch, i);
    }
  }

  lemma DispatchKeeps(q: Queue, k: nat, p: nat)
    requires FieldsOk(q) && k < |q.sorted| && p <= |q.list|
    requires forall i :: p <= i < |q.list| ==> !q.list[i].Stop()
    ensures FieldsOk(Dispatch(q, k, p))
  {
    var e := Entry(q.sorted[k], false, false);
    assert SortedOk(q.submitted, q.sorted[k]);
    forall i | 0 <= i < p ensures Precedes(q.list[i].req, e.req) {
      assert EntryOk(q.ordseq, q.ended, q.submitted, q.list[i]);
    }
    forall i | p <= i < |q.list| ensures Precedes(e.req, q.list[i].req) {
      var x := q.list[i];
      assert EntryOk(q.ordseq, q.ended, q.submitted, x);
      if x.req.Plain? && x.req.epoch < q.submitted {
        var j := StopBehind(q, i);
        assert false;
      }
    }
    InsertOk(q.ordseq, q.ended, q.submitted, q.list, p, e);
    assert Dispatch(q, k, p).list == Insert(q.list, p, e);
  }

  lemma {:induction false} CountAppend(s: seq<Req>, r: Req)
    ensures CountAccounted(s + [r]) == CountAccounted(s) + if r.Accounted() then 1 else 0
  {
  }

  lemma {:induction false} CountRemove(s: seq<Req>, k: nat)
    requires k < |s|
    ensures CountAccounted(s) == CountAccounted(Remove(s, k)) + if s[k].Accounted() then 1 else 0
  {
    var n := |s| - 1;
    if k == n {
      assert Remove(s, k) == s[..n];
    } else {
      CountRemove(s[..n], k);
      assert Remove(s, k) == Remove(s[..n], k) + [s[n]];
      CountAppend(Remove(s[..n], k), s[n]);
    }
  }

  lemma {:induction false} CountZero(s: seq<Req>, i: nat)
    requires CountAccounted(s) == 0 && i < |s|
    ensures !s[i].Accounted()
  {
    CountRemove(s, i);
  }

  /** The parts of the invariant put together again after the lists changed. */
  lemma {:induction false} Reassembled(q: Queue, list: seq<Entry>, flying: seq<Req>, inFlight: int)
    requires FieldsOk(q) && ListOk(q.ordseq, q.ended, q.submitted, list) && AllFlyingOk(q.ordseq, q.ended, flying)
    requires OneProxy(flying, list) && inFlight == CountAccounted(flying)
    ensures FieldsOk(q.(list := list, flying := flying, inFlight := inFlight))
  {
  }

  lemma FlyingAppend(ordseq: set<Stage>, ended: nat, flying: seq<Req>, r: Req)
    requires AllFlyingOk(ordseq, ended, flying) && FlyingOk(ordseq, ended, r)
    ensures AllFlyingOk(ordseq, ended, flying + [r])
  {
  }

  lemma FlyingRemove(ordseq: set<Stage>, ended: nat, flying: seq<Req>, list: seq<Entry>, k: nat)
    requires AllFlyingOk(ordseq, ended, flying) && OneProxy(flying, list) && k < |flying|
    ensures AllFlyingOk(ordseq, ended, Remove(flying, k)) && OneProxy(Remove(flying, k), list)
  {
  }

  lemma TakenProxies(q: Queue, k: nat)
    requires FieldsOk(q) && k < |q.list| && q.list[k].started
    ensures OneProxy(q.flying + [q.list[k].req], Remove(q.list, k))
  {
  }

  lemma TakenFlies(q: Queue, k: nat)
    requires FieldsOk(q) && k < |q.list| && q.list[k].started
    ensures AllFlyingOk(q.ordseq, q.ended, q.flying + [q.list[k].req])
    ensures ListOk(q.ordseq, q.ended, q.submitted, Remove(q.list, k))
  {
    assert EntryOk(q.ordseq, q.ended, q.submitted, q.list[k]);
    FlyingAppend(q.ordseq, q.ended, q.flying, q.list[k].req);
    RemoveOk(q.ordseq, q.ended, q.submitted, q.list, k);
  }

  lemma DequeueKeeps(q: Queue, k: nat)
    requires FieldsOk(q) && k < |q.list| && q.list[k].started
    ensures FieldsOk(Dequeue(q, k))
  {
    var r := q.list[k].req;
    TakenProxies(q, k);
    TakenFlies(q, k);
    CountAppend(q.flying, r);
    Reassembled(q, Remove(q.list, k), q.flying + [r], if r.Accounted() then q.inFlight + 1 else q.inFlight);
  }

  /** What RequeuePosition finds. */
  lemma {:induction false} RequeuePositionSplits(q: Queue, list: seq<Entry>, r: Req)
    requires |q.orig| == 1 && q.orig[0].Plain?
    ensures var p := RequeuePosition(q, list, r);
      && (forall i :: 0 <= i < p ==> ReqSeq(q, list[i].req).Rank() < ReqSeq(q, r).Rank())
      && (p < |list| ==> ReqSeq(q, r).Rank() <= ReqSeq(q, list[p].req).Rank())
  {
    if list != [] && ReqSeq(q, r).Rank() > ReqSeq(q, list[0].req).Rank() {
      RequeuePositionSplits(q, list[1..], r);
    }
  }

  /** While barrier number `ended` is in progress, the first request of a later epoch carries the other colour. */
  lemma OtherColourFirst(q: Queue, i: nat) returns (j: nat)
    requires FieldsOk(q) && Busy(q) && i < |q.list| && q.list[i].req.Plain? && q.list[i].req.epoch > q.ended
    ensures j <= i && q.list[j].req.Plain? && ReqSeq(q, q.list[j].req) == Done
  {
    var x := q.list[i].req;
    assert EntryOk(q.ordseq, q.ended, q.submitted, q.list[i]);
    j := i;
    if x.epoch > q.ended + 1 {
      assert Waiting(q.list, q.ended + 1);
      j := WaitingBetween(q, q.ended + 1, i);
      assert EntryOk(q.ordseq, q.ended, q.submitted, q.list[j]);
    }
  }

  /** A proxy goes back between the stages before it and everything that must wait for it. */
  lemma {:induction false} RequeueProxyPlace(q: Queue, r: Req)
    requires FieldsOk(q) && Busy(q) && r.Proxy? && r.epoch == q.ended && IsFlush(r.stage)
    requires forall i :: 0 <= i < |q.list| ==> q.list[i].req != r
    ensures var p := RequeuePosition(q, q.list, r);
      && (forall i :: 0 <= i < p ==> Precedes(q.list[i].req, r))
      && (forall i :: p <= i < |q.list| ==> Precedes(r, q.list[i].req))
  {
    var p := RequeuePosition(q, q.list, r);
    RequeuePositionSplits(q, q.list, r);
    forall i | 0 <= i < p ensures Precedes(q.list[i].req, r) {
      assert EntryOk(q.ordseq, q.ended, q.submitted, q.list[i]);
      if q.list[i].req.Plain? && q.list[i].req.epoch > q.ended {
        var j := OtherColourFirst(q, i);
        assert false;
      }
    }
    forall i | p <= i < |q.list| ensures Precedes(r, q.list[i].req) {
      assert EntryOk(q.ordseq, q.ended, q.submitted, q.list[p]);
      assert EntryOk(q.ordseq, q.ended, q.submitted, q.list[i]);
      if i > p {
        assert Precedes(q.list[p].req, q.list[i].req);
      }
    }
  }

  lemma OneProxyMoved(q: Queue, k: nat, p: nat, e: Entry)
    requires OneProxy(q.flying, q.list) && k < |q.flying| && p <= |q.list| && e.req == q.flying[k]
    ensures OneProxy(Remove(q.flying, k), Insert(q.list, p, e))
  {
  }

  lemma RequeueKeeps(q: Queue, k: nat)
    requires FieldsOk(q) && k < |q.flying|
    ensures FieldsOk(Requeue(q, k))
  {
    var r := q.flying[k];
    var e := Entry(r, false, true);
    var p := if q.ordseq == {} then 0 else RequeuePosition(q, q.list, r);
    assert FlyingOk(q.ordseq, q.ended, r);
    CountRemove(q.flying, k);
    var flying := Remove(q.flying, k);
    if r.Proxy? {
      RequeueProxyPlace(q, r);
    } else if r.Plain? {
      forall i | 0 <= i < |q.list| ensures Precedes(r, q.list[i].req) {
        assert EntryOk(q.ordseq, q.ended, q.submitted, q.list[i]);
      }
    }
    InsertOk(q.ordseq, q.ended, q.submitted, q.list, p, e);
    var list := Insert(q.list, p, e);
    OneProxyMoved(q, k, p, e);
    assert Requeue(q, k).list == list;
  }

  // ----- The sequence moves on

  ghost predicate NothingOrderedOut(q: Queue) {
    && (forall i :: 0 <= i < |q.flying| ==> !q.flying[i].Proxy?)
    && (forall i :: 0 <= i < |q.list| && q.list[i].started ==> q.list[i].req.Special?)
  }

  /** No file-system request submitted before the barrier is left. */
  ghost predicate Drained(q: Queue) {
    && (forall i :: 0 <= i < |q.flying| ==> !q.flying[i].Plain?)
    && (forall i :: 0 <= i < |q.list| && q.list[i].req.Plain? ==> q.list[i].req.epoch > q.ended)
  }

  lemma AdvanceKeeps(q: Queue, stages: set<Stage>, error: int)
    requires FieldsOk(q) && Busy(q) && NothingOrderedOut(q)
    requires stages !! q.ordseq && Done !in stages
    requires forall i :: 0 <= i < |q.list| && q.list[i].req.Proxy? ==> q.list[i].req.stage !in stages
    requires Drain in q.ordseq + stages ==> Drained(q)
    ensures FieldsOk(CompleteSeq(q, stages, error).0)
  {
    var q' := CompleteSeq(q, stages, error).0;
    var ordseq := q.ordseq + stages;
    assert q.ordseq * stages == {};
    forall i | 0 <= i < |q.list| ensures EntryOk(q'.ordseq, q'.ended, q'.submitted, q.list[i]) {
      assert EntryOk(q.ordseq, q.ended, q.submitted, q.list[i]);
    }
    forall i | 0 <= i < |q.flying| ensures FlyingOk(q'.ordseq, q'.ended, q.flying[i]) {
      assert FlyingOk(q.ordseq, q.ended, q.flying[i]);
    }
    assert BarriersWait(q.list, Busy(q'), q'.ended, q'.submitted);
  }


  /** The first ordered request of an idle queue belongs to the current epoch. */
  lemma HeadIsCurrent(q: Queue)
    requires FieldsOk(q) && !Busy(q) && q.list != [] && q.list[0].req.Plain?
    ensures q.list[0].req.epoch == q.ended
  {
    assert EntryOk(q.ordseq, q.ended, q.submitted, q.list[0]);
    if q.list[0].req.epoch > q.ended {
      assert Waiting(q.list, q.ended);
      var j := WaitingBetween(q, q.ended, 0);
      assert false;
    }
  }

  ghost predicate ProxiesOf(epoch: nat, e: Entry) {
    e.req.Proxy? && e.req.epoch == epoch && IsFlush(e.req.stage) && !e.started && e.soft
  }

  lemma ProxiesInOrder(o: Ordered, epoch: nat)
    ensures InOrder(Proxies(o, epoch))
    ensures forall i :: 0 <= i < |Proxies(o, epoch)| ==> ProxiesOf(epoch, Proxies(o, epoch)[i])
  {
  }

  /** The proxies of a barrier that was at the head fit in front of what is behind it. */
  lemma StackedListOk(ended: nat, submitted: nat, list: seq<Entry>, proxies: seq<Entry>)
    requires ListOk({}, ended, submitted, list) && list != [] && IsBarrier(list[0], ended)
    requires InOrder(proxies) && forall i :: 0 <= i < |proxies| ==> ProxiesOf(ended, proxies[i])
    ensures ListOk({Started}, ended, submitted, proxies + list[1..])
    ensures forall i :: 1 <= i < |list| ==> !list[i].req.Proxy? && (list[i].started ==> list[i].req.Special?)
    ensures forall i :: 1 <= i < |list| && list[i].req.Plain? ==> list[i].req.epoch > ended
  {
    var l := proxies + list[1..];
    var n := |proxies|;
    forall i | 1 <= i < |list|
      ensures EntryOk({Started}, ended, submitted, list[i])
      ensures !list[i].req.Proxy? && (list[i].started ==> list[i].req.Special?)
      ensures list[i].req.Plain? ==> list[i].req.epoch > ended
    {
      assert EntryOk({}, ended, submitted, list[i]);
      assert Precedes(list[0].req, list[i].req);
    }
    forall i, j | 0 <= i < j < |l| ensures Precedes(l[i].req, l[j].req) {
      if i >= n {
        assert Precedes(list[i - n + 1].req, list[j - n + 1].req);
      }
    }
    forall c: nat | ended < c < submitted ensures Waiting(l, c) {
      assert Waiting(list, c);
      var i :| 0 <= i < |list| && IsBarrier(list[i], c);
      assert l[n + i - 1] == list[i];
    }
  }

  lemma StackedOk(q: Queue)
    requires FieldsOk(q) && !Busy(q) && q.list != [] && IsBarrier(q.list[0], q.ended)
    ensures FieldsOk(Stacked(q)) && NothingOrderedOut(Stacked(q))
    ensures forall i :: 0 <= i < |Stacked(q).list| && Stacked(q).list[i].req.Plain? ==>
      Stacked(q).list[i].req.epoch > q.ended
  {
    var q' := Stacked(q);
    var proxies := Proxies(q'.ordered, q.ended);
    ProxiesInOrder(q'.ordered, q.ended);
    StackedListOk(q.ended, q.submitted, q.list, proxies);
    assert EntryOk(q.ordseq, q.ended, q.submitted, q.list[0]);
    assert q'.ordseq == {Started};
    assert forall i :: 0 <= i < |q'.list| ==>
      q'.list[i] == if i < |proxies| then proxies[i] else q.list[i - |proxies| + 1];
    forall i | 0 <= i < |q.flying| ensures FlyingOk(q'.ordseq, q.ended, q.flying[i]) && !q.flying[i].Proxy? {
      assert FlyingOk(q.ordseq, q.ended, q.flying[i]);
    }
  }

  lemma StartOrderedKeeps(q: Queue)
    requires FieldsOk(q) && !Busy(q) && q.list != [] && IsBarrier(q.list[0], q.ended)
    ensures FieldsOk(StartOrdered(q).0)
  {
    StackedOk(q);
    assert EntryOk(q.ordseq, q.ended, q.submitted, q.list[0]);
    if q.inFlight == 0 {
      NothingPlainOut(q);
    }
    SkippingKeeps(q, Skipped(Stacked(q).ordered, q.inFlight));
  }

  lemma NothingPlainOut(q: Queue)
    requires q.inFlight == CountAccounted(q.flying) == 0
    ensures forall i :: 0 <= i < |q.flying| ==> !q.flying[i].Plain?
  {
    forall i | 0 <= i < |q.flying| ensures !q.flying[i].Plain? {
      CountZero(q.flying, i);
    }
  }

  lemma SkippingKeeps(q: Queue, stages: set<Stage>)
    requires FieldsOk(q) && !Busy(q) && q.list != [] && IsBarrier(q.list[0], q.ended)
    requires stages == Skipped(Stacked(q).ordered, q.inFlight)
    requires Drain in stages ==> forall i :: 0 <= i < |q.flying| ==> !q.flying[i].Plain?
    ensures FieldsOk(CompleteSeq(Stacked(q), stages, 0).0)
  {
    StackedOk(q);
    AdvanceKeeps(Stacked(q), stages, 0);
  }

  /** A request that blk_do_ordered lets through may be started. */
  lemma StartKeeps(q: Queue)
    requires FieldsOk(q) && q.list != [] && EntryOk(q.ordseq, q.ended, q.submitted, q.list[0].(started := true))
    ensures FieldsOk(q.(list := q.list[0 := q.list[0].(started := true)]))
  {
    var list := q.list[0 := q.list[0].(started := true)];
    forall b: nat | Waiting(q.list, b) ensures Waiting(list, b) {
      var i :| 0 <= i < |q.list| && IsBarrier(q.list[i], b);
      assert IsBarrier(list[i], b);
    }
  }


  /** When start_ordered hands a proxy out, it is the stage whose turn it is. */
  lemma FirstProxyIsCurrent(o: Ordered, inFlight: int, epoch: nat)
    requires Proxies(o, epoch) != [] && !(o.byDrain && inFlight != 0)
    ensures Proxies(o, epoch)[0] == ProxyEntry(CurSeq({Started} + Skipped(o, inFlight)), epoch)
  {
  }

  lemma PeekBarrierKeeps(q: Queue)
    requires FieldsOk(q) && q.list != [] && !Busy(q) && IsBarrier(q.list[0], q.ended)
    ensures FieldsOk(Peek(q))
  {
    assert EntryOk(q.ordseq, q.ended, q.submitted, q.list[0]);
    StartOrderedKeeps(q);
    var (q1, ret, given) := StartOrdered(q);
    if ret && given {
      var o := Effective(q.next, q.list[0].req);
      FirstProxyIsCurrent(o, q.inFlight, q.ended);
      assert q1.list[0] == Proxies(o, q.ended)[0];
      assert q1.ordseq == {Started} + Skipped(o, q.inFlight);
      assert EntryOk(q1.ordseq, q1.ended, q1.submitted, q1.list[0]);
      StartKeeps(q1);
    }
  }

  lemma PeekIdleKeeps(q: Queue)
    requires FieldsOk(q) && q.list != [] && !Busy(q)
    ensures FieldsOk(Peek(q))
  {
    var e := q.list[0];
    assert EntryOk(q.ordseq, q.ended, q.submitted, e);
    if e.req.Plain? {
      HeadIsCurrent(q);
    }
    if e.req.Plain? && e.req.barrier {
      PeekBarrierKeeps(q);
    } else {
      StartKeeps(q);
    }
  }

  lemma PeekBusyKeeps(q: Queue)
    requires FieldsOk(q) && q.list != [] && Busy(q)
    ensures FieldsOk(Peek(q))
  {
    var e := q.list[0];
    assert EntryOk(q.ordseq, q.ended, q.submitted, e);
    if e.req.Special? || ReqSeq(q, e.req).Rank() <= CurSeq(q.ordseq).Rank() {
      if e.req.Plain? && e.req.epoch > q.ended {
        var j := OtherColourFirst(q, 0);
        assert false;
      }
      StartKeeps(q);
    }
  }

  lemma RemoveFlyingOk(q: Queue, k: nat)
    requires FieldsOk(q) && k < |q.flying|
    ensures var r := q.flying[k];
      FieldsOk(q.(flying := Remove(q.flying, k), inFlight := if r.Accounted() then q.inFlight - 1 else q.inFlight))
  {
    CountRemove(q.flying, k);
    FlyingRemove(q.ordseq, q.ended, q.flying, q.list, k);
    Reassembled(q, q.list, Remove(q.flying, k), if q.flying[k].Accounted() then q.inFlight - 1 else q.inFlight);
  }

  /** When elv_completed_request finds the queue drained, it is. */
  lemma DrainFound(q: Queue)
    requires FieldsOk(q) && Busy(q) && CurSeq(q.ordseq) == Drain && q.inFlight == 0
    requires q.list == [] || ReqSeq(q, q.list[0].req).Rank() > Drain.Rank()
    ensures Drained(q) && NothingOrderedOut(q)
  {
    forall i | 0 <= i < |q.flying| ensures !q.flying[i].Plain? && !q.flying[i].Proxy? {
      assert FlyingOk(q.ordseq, q.ended, q.flying[i]);
      CountZero(q.flying, i);
    }
    forall i | 0 <= i < |q.list|
      ensures q.list[i].req.Plain? ==> q.list[i].req.epoch > q.ended
      ensures q.list[i].started ==> q.list[i].req.Special?
    {
      assert EntryOk(q.ordseq, q.ended, q.submitted, q.list[0]);
      assert EntryOk(q.ordseq, q.ended, q.submitted, q.list[i]);
      if i > 0 {
        assert Precedes(q.list[0].req, q.list[i].req);
      }
    }
  }

  lemma CompletedRequestKeeps(q: Queue, r: Req)
    requires FieldsOk(q.(inFlight := if r.Accounted() then q.inFlight - 1 else q.inFlight))
    ensures FieldsOk(CompletedRequest(q, r))
  {
    var q1 := q.(inFlight := if r.Accounted() then q.inFlight - 1 else q.inFlight);
    if q1.ordseq != {} && q1.inFlight == 0 && CurSeq(q1.ordseq) == Drain
       && (q1.list == [] || ReqSeq(q1, q1.list[0].req).Rank() > Drain.Rank()) {
      DrainFound(q1);
      AdvanceKeeps(q1, {Drain}, 0);
    }
  }

  lemma CompleteKeeps(q: Queue, k: nat, error: int)
    requires FieldsOk(q) && k < |q.flying|
    ensures FieldsOk(Complete(q, k, error))
  {
    var r := q.flying[k];
    assert FlyingOk(q.ordseq, q.ended, r);
    RemoveFlyingOk(q, k);
    var q1 := q.(flying := Remove(q.flying, k), log := q.log + [Completed(r, error)]);
    CompletedRequestKeeps(q1, r);
    if r.Proxy? {
      ProxyDone(q, k);
      var q2 := CompletedRequest(q1, r);
      assert q2.ordseq == q.ordseq && q2.list == q.list && q2.flying == q1.flying && q2.ended == q.ended;
      AdvanceKeeps(q2, {r.stage}, error);
    }
  }

  lemma ProxyDone(q: Queue, k: nat)
    requires FieldsOk(q) && k < |q.flying| && q.flying[k].Proxy?
    ensures var q1 := q.(flying := Remove(q.flying, k));
      && Drained(q1) && NothingOrderedOut(q1)
      && forall i :: 0 <= i < |q.list| ==> q.list[i].req != q.flying[k]
  {
  }
}
