/**
 The request queue object whose fields blk-barrier.c and elevator.c update in drain mode. Every operation
 keeps the invariant of the fields and of the history, and no BUG_ON is reachable: it is a precondition.
 */
module BarrierQueue {
  import opened Barrier
  import opened BarrierOrder
  import opened BarrierHistory
  import opened BarrierProgress

  /** What holds between operations: order, history, and something to wait for while a sequence is in progress. */
  ghost predicate Right(q: Queue) {
    FieldsOk(q) && LogOk(q) && Moving(q)
  }

  lemma StepIsRight(q: Queue, a: Action)
    requires Right(q) && Enabled(q, a)
    ensures Right(Apply(q, a))
  {
    StepKeeps(q, a);
    StepMoves(q, a);
  }

  lemma InitialIsRight(next: Ordered)
    requires DrainMode(next)
    ensures Right(Initial(next))
  {
    InitialOk(next);
  }

  lemma RightIsKnown(q: Queue)
    requires Right(q)
    ensures q.OrigKnown() && !q.bug && (q.ordseq != {} ==> |q.orig| == 1)
  {
  }

  /** elv_next_request until a request is handed out, held back, or the list is empty. */
  ghost function NextRequest(q: Queue): Queue
    requires q.OrigKnown()
    decreases |q.list|
  {
    if q.list == [] then q
    else
      var (q1, ret, given) := Barrier.DoOrdered(q);
      if !ret && q1.OrigKnown() && |q1.list| < |q.list| then NextRequest(q1) else Peek(q)
  }

  /** The barrier at the head is taken out and its sequence begins; its stages are not stacked yet. */
  ghost function Emptied(q: Queue): Queue
    requires q.list != [] && q.list[0].req.Plain?
  {
    q.(orderr := 0, ordered := Effective(q.next, q.list[0].req), ordseq := q.ordseq + {Started},
       orig := [q.list[0].req],
       inFlight := if q.list[0].started then q.inFlight + 1 else q.inFlight, list := q.list[1..])
  }

  class RequestQueue {
    const next: Ordered
    var list: seq<Entry>
    var sorted: seq<Req>
    var flying: seq<Req>
    var inFlight: int
    var ordseq: set<Stage>
    var orderr: int
    var ordered: Ordered
    var ordcolor: bool
    var orig: seq<Req>
    /** The barriers submitted and ended so far, which number the requests; the source has no such fields. */
    var submitted: nat
    var ended: nat
    ghost var log: seq<Event>

    ghost function State(): Queue
      reads this
    {
      Queue(next, list, sorted, flying, inFlight, ordseq, orderr, ordered, ordcolor, orig, submitted, ended, false, log)
    }

    ghost predicate Valid()
      reads this
    {
      Right(State())
    }

    constructor (next: Ordered)
      requires DrainMode(next)
      ensures Valid() && State() == Initial(next)
    {
      InitialIsRight(next);
      this.next := next;
      list, sorted, flying, inFlight := [], [], [], 0;
      ordseq, orderr, ordered, ordcolor, orig := {}, 0, next, false, [];
      submitted, ended, log := 0, 0, [];
    }

    /** blk_ordered_complete_seq. */
    method CompleteSeq(stages: set<Stage>, error: int) returns (over: bool)
      requires |orig| == 1 && stages !! ordseq
      modifies this
      ensures (State(), over) == Barrier.CompleteSeq(old(State()), stages, error)
    {
      assert ordseq * stages == {};
      orderr, ordseq := if error != 0 && orderr == 0 then error else orderr, ordseq + stages;
      over := CurSeq(ordseq) == Done;
      if over {
        log, ended, ordseq, orig := log + [Ended(orig[0], orderr)], ended + 1, {}, [];
      }
    }

    /** An empty barrier has no bar and no post-flush, and is not ordered by tag alone. */
    method ChooseOrdered(rq: Req)
      requires rq.Plain?
      modifies this`ordered
      ensures ordered == Effective(next, rq)
    {
      ordered := next;
      if !rq.data {
        ordered := ordered.(bar := false, postFlush := false);
        if ordered.byTag && !ordered.preFlush {
          ordered := ordered.(byTag := false, byDrain := true);
        }
      }
    }

    /** Stacks the stages in use at the head, in reverse order; the others are skipped. */
    method StackProxies(epoch: nat) returns (skip: set<Stage>, given: bool)
      modifies this`list
      ensures list == Proxies(ordered, epoch) + old(list) && given == (Proxies(ordered, epoch) != [])
      ensures skip == UnusedStages(ordered)
    {
      skip, given := {}, false;
      if ordered.postFlush {
        list := [ProxyEntry(PostFlush, epoch)] + list;
        given := true;
      } else {
        skip := skip + {PostFlush};
      }
      if ordered.bar {
        list := [ProxyEntry(Bar, epoch)] + list;
        given := true;
      } else {
        skip := skip + {Bar};
      }
      if ordered.preFlush {
        list := [ProxyEntry(PreFlush, epoch)] + list;
        given := true;
      } else {
        skip := skip + {PreFlush};
      }
    }

    /** The part of start_ordered that replaces the barrier by its stages. */
    method Stack() returns (skip: set<Stage>, given: bool)
      requires list != [] && list[0].req.Plain?
      modifies this
      ensures State() == Stacked(old(State())) && skip == UnusedStages(ordered)
      ensures given == (Proxies(ordered, orig[0].epoch) != [])
    {
      var rq := list[0].req;
      ghost var was := State();
      orderr, ordseq := 0, ordseq + {Started};
      ChooseOrdered(rq);
      inFlight := if list[0].started then inFlight + 1 else inFlight;
      list, orig := list[1..], [rq];
      ghost var q := State();
      assert q == Emptied(was);
      skip, given := StackProxies(rq.epoch);
      assert State() == q.(list := list);
    }

    /** start_ordered; given says whether *rqp is the head of the list rather than NULL. */
    method StartOrdered() returns (ret: bool, given: bool)
      requires list != [] && list[0].req.Plain? && ordseq == {}
      modifies this
      ensures (State(), ret, given) == Barrier.StartOrdered(old(State()))
    {
      var skip;
      skip, given := Stack();
      if ordered.byDrain && inFlight != 0 {
        given := false;
      } else {
        skip := skip + {Drain};
      }
      var over := CompleteSeq(skip, 0);
      ret := !over;
    }

    /** blk_do_ordered on the head of the list. */
    method DoOrdered() returns (ret: bool, given: bool)
      requires list != [] && State().OrigKnown()
      modifies this
      ensures (State(), ret, given) == Barrier.DoOrdered(old(State()))
    {
      var rq := list[0].req;
      var isBarrier := rq.Plain? && rq.barrier;
      if ordseq == {} {
        if !isBarrier {
          return true, true;
        }
        if !next.None() {
          ret, given := StartOrdered();
          return;
        }
        list := list[1..];
        log, ended := log + [Ended(rq, EOPNOTSUPP)], ended + 1;
        return false, false;
      }
      if rq.Special? {
        return true, true;
      }
      if ordered.byTag {
        return true, !isBarrier;
      }
      var here := match rq case Proxy(s, _) => s case Special(_, _) => Drain case Plain(_, _, _, c, _) =>
        if c == orig[0].color then Drain else Done;
      return true, here.Rank() <= CurSeq(ordseq).Rank();
    }

    /** One turn of elv_next_request; ret says that the head, or nothing, is handed out. */
    method Turn() returns (ret: bool)
      requires Valid() && list != [] && State().OrigKnown()
      modifies this
      ensures Valid() && State() == Peek(old(State())) && ret == Barrier.DoOrdered(old(State())).1
    {
      StepIsRight(State(), Action.Fetch);
      var given;
      ret, given := DoOrdered();
      if ret && given && list != [] && !list[0].started {
        log := log + [Issued(list[0].req)];
        list := list[0 := list[0].(started := true)];
      }
    }

    /** elv_next_request with the loop of __elv_next_request over the list. */
    method Fetch()
      requires Valid()
      modifies this
      ensures Valid() && old(State()).OrigKnown() && State() == NextRequest(old(State()))
    {
      RightIsKnown(State());
      ghost var result := NextRequest(State());
      while list != []
        invariant Valid() && State().OrigKnown() && result == NextRequest(State())
        decreases |list|
      {
        ghost var q := State();
        var ret := Turn();
        NextTurn(q);
        if ret {
          return;
        }
      }
    }

    /** __elv_add_request: the scheduler keeps the request. */
    method SubmitSort(id: nat, data: bool)
      requires Valid() && Fresh(log, id)
      modifies this
      ensures Valid() && State() == Barrier.SubmitSort(old(State()), id, data)
    {
      RightIsKnown(State());
      StepIsRight(State(), SubmitSorted(id, data));
      var rq := Plain(id, false, data, ordcolor, submitted);
      sorted, log := sorted + [rq], log + [Submitted(rq)];
    }

    /** __elv_add_request at the back, after the forced drain; a barrier toggles the colour. */
    method SubmitBack(id: nat, barrier: bool, data: bool)
      requires Valid() && Fresh(log, id) && sorted == []
      modifies this
      ensures Valid() && State() == Barrier.SubmitBack(old(State()), id, barrier, data)
    {
      RightIsKnown(State());
      StepIsRight(State(), SubmitLast(id, barrier, data));
      ghost var q := Barrier.SubmitBack(State(), id, barrier, data);
      assert Right(q);
      var rq := Plain(id, barrier, data, ordcolor, submitted);
      if barrier {
        ordcolor, submitted := !ordcolor, submitted + 1;
      }
      list, log := list + [Entry(rq, false, true)], log + [Submitted(rq)];
      assert State() == q;
    }

    /** A request that is not the file system's. */
    method SubmitSpecial(id: nat, discard: bool, front: bool)
      requires Valid() && Fresh(log, id)
      modifies this
      ensures Valid() && State() == Barrier.SubmitSpecial(old(State()), id, discard, front)
    {
      RightIsKnown(State());
      StepIsRight(State(), SubmitOther(id, discard, front));
      var e := Entry(Special(id, discard), false, true);
      list := if front then [e] + list else list + [e];
      log := log + [Submitted(e.req)];
    }

    /** The scheduler hands request k over, to place p behind every request that may not be passed. */
    method Dispatch(k: nat, p: nat)
      requires Valid() && k < |sorted| && p <= |list| && forall i :: p <= i < |list| ==> !list[i].Stop()
      modifies this
      ensures Valid() && State() == Barrier.Dispatch(old(State()), k, p)
    {
      RightIsKnown(State());
      StepIsRight(State(), Hand(k, p));
      list := list[..p] + [Entry(sorted[k], false, false)] + list[p..];
      sorted := sorted[..k] + sorted[k + 1..];
    }

    /** elv_dequeue_request of a request the driver was given. */
    method Dequeue(k: nat)
      requires Valid() && k < |list| && list[k].started
      modifies this
      ensures Valid() && State() == Barrier.Dequeue(old(State()), k)
    {
      RightIsKnown(State());
      StepIsRight(State(), Take(k));
      var e := list[k];
      list := list[..k] + list[k + 1..];
      flying := flying + [e.req];
      if e.started && e.req.Accounted() {
        inFlight := inFlight + 1;
      }
    }

    /** The search loop of ELEVATOR_INSERT_REQUEUE. */
    method RequeuePlace(rq: Req) returns (pos: nat)
      requires |orig| == 1 && orig[0].Plain?
      ensures pos == RequeuePosition(State(), list, rq)
    {
      pos := 0;
      while pos < |list| && ReqSeq(rq).Rank() > ReqSeq(list[pos].req).Rank()
        invariant pos <= |list|
        invariant RequeuePosition(State(), list, rq) == pos + RequeuePosition(State(), list[pos..], rq)
      {
        assert list[pos..][1..] == list[pos + 1..];
        pos := pos + 1;
      }
    }

    /** elv_requeue_request. */
    method Requeue(k: nat)
      requires Valid() && k < |flying|
      modifies this
      ensures Valid() && old(State()).OrigKnown() && State() == Barrier.Requeue(old(State()), k)
    {
      RightIsKnown(State());
      StepIsRight(State(), PutBack(k));
      ghost var q := Barrier.Requeue(State(), k);
      assert Right(q);
      var rq := flying[k];
      var pos := 0;
      if ordseq != {} {
        pos := RequeuePlace(rq);
      }
      assert pos == if ordseq == {} then 0 else RequeuePosition(State(), list, rq);
      PutAt(k, pos);
      assert State() == q;
    }

    /** Request k of the driver goes back unstarted to place pos. */
    method PutAt(k: nat, pos: nat)
      requires k < |flying| && pos <= |list|
      modifies this`flying, this`inFlight, this`list
      ensures flying == old(flying[..k] + flying[k + 1..])
      ensures inFlight == old(if flying[k].Accounted() then inFlight - 1 else inFlight)
      ensures list == old(list[..pos] + [Entry(flying[k], false, true)] + list[pos..])
    {
      var rq := flying[k];
      flying := flying[..k] + flying[k + 1..];
      inFlight := if rq.Accounted() then inFlight - 1 else inFlight;
      list := list[..pos] + [Entry(rq, false, true)] + list[pos..];
    }

    /** blk_ordered_req_seq. */
    function ReqSeq(rq: Req): (s: Stage)
      requires |orig| == 1 && orig[0].Plain?
      reads this
      ensures s == Barrier.ReqSeq(State(), rq)
    {
      match rq
      case Proxy(s, _) => s
      case Special(_, _) => Drain
      case Plain(_, _, _, color, _) => if color == orig[0].color then Drain else Done
    }

    /** elv_completed_request. */
    method Completed(rq: Req)
      requires State().OrigKnown()
      modifies this
      ensures State() == Barrier.CompletedRequest(old(State()), rq)
    {
      if rq.Accounted() {
        inFlight := inFlight - 1;
      }
      if ordseq != {} {
        if inFlight == 0 && CurSeq(ordseq) == Drain
           && (list == [] || ReqSeq(list[0].req).Rank() > Drain.Rank()) {
          var over := CompleteSeq({Drain}, 0);
        }
      }
    }

    /** req_bio_endio on part of bar_rq: only the error is kept. */
    method FailPart(k: nat, error: int)
      requires Valid() && k < |flying| && flying[k].Proxy? && flying[k].stage == Bar
      modifies this
      ensures Valid() && State() == BarFailed(old(State()), k, error)
    {
      RightIsKnown(State());
      StepIsRight(State(), Action.FailPart(k, error));
      log := log + [Failed(flying[k].epoch, error)];
      if error != 0 && orderr == 0 {
        orderr := error;
      }
    }

    /** The end of request k of the driver: elv_completed_request, then a proxy's end_io. */
    method Complete(k: nat, error: int)
      requires Valid() && k < |flying|
      modifies this
      ensures Valid() && old(State()).OrigKnown() && State() == Barrier.Complete(old(State()), k, error)
    {
      RightIsKnown(State());
      StepIsRight(State(), Finish(k, error));
      FlyingIsNext(State(), k);
      var rq := flying[k];
      flying := flying[..k] + flying[k + 1..];
      log := log + [Barrier.Completed(rq, error)];
      Completed(rq);
      if rq.Proxy? && |orig| == 1 {
        var over := CompleteSeq({rq.stage}, error);
      }
    }
  }

  /** A proxy with the driver is the stage whose turn it is, so its completion sets no bit twice. */
  lemma FlyingIsNext(q: Queue, k: nat)
    requires Right(q) && k < |q.flying|
    ensures q.flying[k].Proxy? ==> q.flying[k].stage !in q.ordseq && CurSeq(q.ordseq) != Drain
  {
    assert FlyingOk(q.ordseq, q.ended, q.flying[k]);
  }

  /** Either the turn ends the search, or the search goes on from a shorter list. */
  lemma NextTurn(q: Queue)
    requires q.list != [] && q.OrigKnown()
    ensures if Barrier.DoOrdered(q).1 then NextRequest(q) == Peek(q)
      else Peek(q).OrigKnown() && |Peek(q).list| < |q.list| && NextRequest(q) == NextRequest(Peek(q))
  {
    DoneIsShorter(q);
  }

  /** When blk_do_ordered says the barrier is gone, the list is shorter. */
  lemma DoneIsShorter(q: Queue)
    requires q.list != [] && q.OrigKnown()
    ensures var (q1, ret, given) := Barrier.DoOrdered(q); !ret ==> q1.OrigKnown() && |q1.list| < |q.list|
    ensures var (q1, ret, given) := Barrier.DoOrdered(q); q1.OrigKnown()
  {
  }
}
