/**
 Barrier requests: the ordered sequence of blk-barrier.c as the dispatch queue of elevator.c runs it.
 A state holds the dispatch list, the scheduler's requests, the requests the driver has, and the
 fields ordseq, orderr, ordered, ordcolor and orig_bar_rq; `log` records what happened, for the
 theorems, and `epoch` numbers the barriers a request was submitted after. Neither is read by the code.
 */
module Barrier {

  /** The QUEUE_ORDSEQ_* bits, in increasing order. */
  datatype Stage = Started | Drain | PreFlush | Bar | PostFlush | Done {
    function Rank(): nat {
      match this case Started => 0 case Drain => 1 case PreFlush => 2 case Bar => 3 case PostFlush => 4 case Done => 5
    }
  }

  /** A queue's QUEUE_ORDERED_* flags. */
  datatype Ordered = Ordered(byDrain: bool, byTag: bool, preFlush: bool, bar: bool, postFlush: bool) {
    predicate None() {
      this == Ordered(false, false, false, false, false)
    }
  }

  /**
   Plain: a file-system request (data: hard_nr_sectors is not 0; color: REQ_ORDERED_COLOR; barrier:
   REQ_HARDBARRIER). Special: any other. Proxy: pre_flush_rq, bar_rq or post_flush_rq.
   */
  datatype Req =
    | Plain(id: nat, barrier: bool, data: bool, color: bool, epoch: nat)
    | Special(id: nat, discard: bool)
    | Proxy(stage: Stage, epoch: nat)
  {
    /** blk_account_rq of a started request. */
    predicate Accounted() {
      Plain? || (Special? && discard) || (Proxy? && stage == Bar)
    }

    predicate Hard() {
      Proxy? || (Plain? && barrier)
    }
  }

  /** A request on the dispatch list with its REQ_STARTED and REQ_SOFTBARRIER flags. */
  datatype Entry = Entry(req: Req, started: bool, soft: bool) {
    /** elv_dispatch_sort never goes ahead of such a request. */
    predicate Stop() {
      started || soft || req.Hard()
    }
  }

  datatype Event =
    | Submitted(req: Req)
    | Issued(req: Req)
    | Completed(req: Req, error: int)
    | Failed(epoch: nat, error: int)
    | Ended(req: Req, error: int)

  datatype Queue = Queue(
    next: Ordered, list: seq<Entry>, sorted: seq<Req>, flying: seq<Req>, inFlight: int,
    ordseq: set<Stage>, orderr: int, ordered: Ordered, ordcolor: bool, orig: seq<Req>,
    submitted: nat, ended: nat, bug: bool, log: seq<Event>)
  {
    predicate OrigKnown() {
      ordseq != {} ==> |orig| == 1 && orig[0].Plain?
    }
  }

  const EOPNOTSUPP: int := -95

  // ----- blk-barrier.c

  /** blk_ordered_cur_seq: the lowest stage not yet reached. */
  function CurSeq(ordseq: set<Stage>): Stage {
    if Started !in ordseq then Started
    else if Drain !in ordseq then Drain
    else if PreFlush !in ordseq then PreFlush
    else if Bar !in ordseq then Bar
    else if PostFlush !in ordseq then PostFlush
    else Done
  }

  /** blk_ordered_req_seq. */
  function ReqSeq(q: Queue, r: Req): Stage
    requires |q.orig| == 1 && q.orig[0].Plain?
  {
    match r
    case Proxy(s, _) => s
    case Special(_, _) => Drain
    case Plain(_, _, _, color, _) => if color == q.orig[0].color then Drain else Done
  }

  /** blk_ordered_complete_seq; the flag says whether the sequence is over. */
  function CompleteSeq(q: Queue, stages: set<Stage>, error: int): (r: (Queue, bool))
    requires |q.orig| == 1
    ensures r.0.next == q.next
  {
    var err := if error != 0 && q.orderr == 0 then error else q.orderr;
    var q1 := q.(orderr := err, bug := q.bug || q.ordseq * stages != {}, ordseq := q.ordseq + stages);
    if CurSeq(q1.ordseq) != Done then (q1, false)
    else (q1.(ordseq := {}, orig := [], ended := q.ended + 1, log := q.log + [Ended(q.orig[0], err)]), true)
  }

  function ProxyEntry(s: Stage, epoch: nat): Entry {
    Entry(Proxy(s, epoch), false, true)
  }

  /** The flags in force for a barrier: an empty one has no bar and no post-flush. */
  function Effective(next: Ordered, b: Req): Ordered
    requires b.Plain?
  {
    if b.data then next
    else if next.byTag && !next.preFlush then next.(bar := false, postFlush := false, byTag := false, byDrain := true)
    else next.(bar := false, postFlush := false)
  }

  function Proxies(o: Ordered, epoch: nat): seq<Entry> {
    (if o.preFlush then [ProxyEntry(PreFlush, epoch)] else [])
    + (if o.bar then [ProxyEntry(Bar, epoch)] else [])
    + (if o.postFlush then [ProxyEntry(PostFlush, epoch)] else [])
  }

  function UnusedStages(o: Ordered): set<Stage> {
    (if o.preFlush then {} else {PreFlush}) + (if o.bar then {} else {Bar}) + (if o.postFlush then {} else {PostFlush})
  }

  /** The stages a sequence starts with as reached: those not in use, and the drain if nothing is in flight. */
  function Skipped(o: Ordered, inFlight: int): set<Stage> {
    if o.byDrain && inFlight != 0 then UnusedStages(o) else UnusedStages(o) + {Drain}
  }

  /** start_ordered up to the point where it completes the skipped stages. */
  function Stacked(q: Queue): (r: Queue)
    requires q.list != [] && q.list[0].req.Plain?
    ensures r.next == q.next
  {
    var b := q.list[0].req;
    var o := Effective(q.next, b);
    q.(orderr := 0, ordered := o, ordseq := q.ordseq + {Started}, orig := [b],
       inFlight := if q.list[0].started then q.inFlight + 1 else q.inFlight, list := Proxies(o, b.epoch) + q.list[1..])
  }

  /** start_ordered on the barrier at the head; (state, returned flag, whether the head is handed out). */
  function StartOrdered(q: Queue): (r: (Queue, bool, bool))
    requires q.list != [] && q.list[0].req.Plain?
    ensures r.0.next == q.next
  {
    var q1 := Stacked(q);
    var (q2, over) := CompleteSeq(q1, Skipped(q1.ordered, q1.inFlight), 0);
    (q2, !over, Proxies(q1.ordered, q1.orig[0].epoch) != [] && !(q1.ordered.byDrain && q1.inFlight != 0))
  }

  /** blk_do_ordered on the head of the list. */
  function DoOrdered(q: Queue): (r: (Queue, bool, bool))
    requires q.list != [] && q.OrigKnown()
    ensures r.0.next == q.next
  {
    var rq := q.list[0].req;
    if q.ordseq == {} then
      if !(rq.Plain? && rq.barrier) then (q, true, true)
      else if !q.next.None() then StartOrdered(q)
      else (q.(list := q.list[1..], ended := q.ended + 1, log := q.log + [Ended(rq, EOPNOTSUPP)]), false, false)
    else if rq.Special? then (q, true, true)
    else if q.ordered.byTag then (q, true, !(rq.Plain? && rq.barrier))
    else (q, true, ReqSeq(q, rq).Rank() <= CurSeq(q.ordseq).Rank())
  }

  // ----- elevator.c

  /** One turn of elv_next_request: blk_do_ordered, and REQ_STARTED on the request that is handed out. */
  function Peek(q: Queue): (r: Queue)
    requires q.list != [] && q.OrigKnown()
    ensures r.next == q.next
  {
    var (q1, ret, given) := DoOrdered(q);
    if ret && given && q1.list != [] && !q1.list[0].started then
      q1.(list := q1.list[0 := q1.list[0].(started := true)], log := q1.log + [Issued(q1.list[0].req)])
    else q1
  }

  /** elv_dequeue_request of a request the driver was given. */
  function Dequeue(q: Queue, k: nat): Queue
    requires k < |q.list|
  {
    var e := q.list[k];
    q.(list := q.list[..k] + q.list[k + 1..], flying := q.flying + [e.req],
       inFlight := if e.started && e.req.Accounted() then q.inFlight + 1 else q.inFlight)
  }

  /** Where ELEVATOR_INSERT_REQUEUE puts r: before the first request whose stage is not below its own. */
  function RequeuePosition(q: Queue, list: seq<Entry>, r: Req): (p: nat)
    requires |q.orig| == 1 && q.orig[0].Plain?
    ensures p <= |list|
  {
    if list == [] || ReqSeq(q, r).Rank() <= ReqSeq(q, list[0].req).Rank() then 0
    else 1 + RequeuePosition(q, list[1..], r)
  }

  /** elv_requeue_request. */
  function Requeue(q: Queue, k: nat): Queue
    requires k < |q.flying| && q.OrigKnown()
  {
    var r := q.flying[k];
    var p := if q.ordseq == {} then 0 else RequeuePosition(q, q.list, r);
    q.(flying := q.flying[..k] + q.flying[k + 1..], inFlight := if r.Accounted() then q.inFlight - 1 else q.inFlight,
       list := q.list[..p] + [Entry(r, false, true)] + q.list[p..])
  }

  /** elv_completed_request. */
  function CompletedRequest(q: Queue, r: Req): (q': Queue)
    requires q.OrigKnown()
    ensures q'.next == q.next
  {
    var q1 := if r.Accounted() then q.(inFlight := q.inFlight - 1) else q;
    if q1.ordseq != {} && q1.inFlight == 0 && CurSeq(q1.ordseq) == Drain
       && (q1.list == [] || ReqSeq(q1, q1.list[0].req).Rank() > Drain.Rank())
    then CompleteSeq(q1, {Drain}, 0).0
    else q1
  }

  /** The end of a request the driver has: elv_completed_request, then the end_io of a proxy. */
  function Complete(q: Queue, k: nat, error: int): (q': Queue)
    requires k < |q.flying| && q.OrigKnown()
    ensures q'.next == q.next
  {
    var r := q.flying[k];
    var q1 := q.(flying := q.flying[..k] + q.flying[k + 1..], log := q.log + [Completed(r, error)]);
    var q2 := CompletedRequest(q1, r);
    if r.Proxy? && |q2.orig| == 1 then CompleteSeq(q2, {r.stage}, error).0 else q2
  }

  /** req_bio_endio on part of bar_rq: only the error is recorded. */
  function BarFailed(q: Queue, k: nat, error: int): Queue
    requires k < |q.flying| && q.flying[k].Proxy?
  {
    q.(orderr := if error != 0 && q.orderr == 0 then error else q.orderr,
       log := q.log + [Failed(q.flying[k].epoch, error)])
  }

  /** __elv_add_request with ELEVATOR_INSERT_SORT: the scheduler keeps the request. */
  function SubmitSort(q: Queue, id: nat, data: bool): Queue {
    var r := Plain(id, false, data, q.ordcolor, q.submitted);
    q.(sorted := q.sorted + [r], log := q.log + [Submitted(r)])
  }

  /** __elv_add_request with ELEVATOR_INSERT_BACK, once elv_drain_elevator has emptied the scheduler. */
  function SubmitBack(q: Queue, id: nat, barrier: bool, data: bool): Queue {
    var r := Plain(id, barrier, data, q.ordcolor, q.submitted);
    q.(list := q.list + [Entry(r, false, true)], log := q.log + [Submitted(r)],
       ordcolor := if barrier then !q.ordcolor else q.ordcolor,
       submitted := if barrier then q.submitted + 1 else q.submitted)
  }

  /** A request that is not the file system's, at the front or at the back. */
  function SubmitSpecial(q: Queue, id: nat, discard: bool, front: bool): Queue {
    var e := Entry(Special(id, discard), false, true);
    q.(list := if front then [e] + q.list else q.list + [e], log := q.log + [Submitted(e.req)])
  }

  /** The scheduler hands a request over; elv_dispatch_sort and elv_dispatch_add_tail put it at p. */
  function Dispatch(q: Queue, k: nat, p: nat): Queue
    requires k < |q.sorted| && p <= |q.list|
  {
    q.(sorted := q.sorted[..k] + q.sorted[k + 1..],
       list := q.list[..p] + [Entry(q.sorted[k], false, false)] + q.list[p..])
  }
}
