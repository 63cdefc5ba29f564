/** The deadline scheduler as it runs: fields changed in place, tied to the functions of Deadline. */
module DeadlineQueue {
  import opened Options
  import opened SortList
  import opened Ledger
  import opened Deadline

  class Scheduler {
    var rqs: map<nat, Rq>
    var readSide: Side
    var writeSide: Side
    var batching: nat
    var starved: nat
    var lastSector: nat
    var out: seq<nat>

    ghost function Abs(): Data
      reads this
    {
      Data(rqs, readSide, writeSide, batching, starved, lastSector, out)
    }

    function SideOf(write: bool): Side
      reads this
    {
      if write then writeSide else readSide
    }

    method SetSide(write: bool, side: Side)
      modifies this`readSide, this`writeSide
      ensures Abs() == Put(old(Abs()), write, side)
    {
      if write {
        writeSide := side;
      } else {
        readSide := side;
      }
    }

    /** deadline_del_rq_rb. */
    method DelRqRb(r: nat, write: bool)
      requires r in SideOf(write).sort
      modifies this`readSide, this`writeSide
      ensures var side := Get(old(Abs()), write);
        Abs() == Put(old(Abs()), write,
          side.(sort := Remove(side.sort, r), next := if side.next == Some(r) then Latter(side.sort, r) else side.next))
    {
      var side := SideOf(write);
      if side.next == Some(r) {
        side := side.(next := Latter(side.sort, r));
      }
      SetSide(write, side.(sort := Remove(side.sort, r)));
    }

    /** deadline_move_request with deadline_move_to_dispatch: r leaves both lists and joins the dispatch list. */
    method MoveRequest(r: nat)
      requires Listed(Abs()) && r in rqs && r in SideOf(rqs[r].write).sort
      requires Latter(SideOf(rqs[r].write).sort, r) != Some(r)
      modifies this
      ensures Abs() == Moved(old(Abs()), r)
    {
      var rq := rqs[r];
      readSide, writeSide := readSide.(next := None), writeSide.(next := None);
      var side := SideOf(rq.write);
      SetSide(rq.write, side.(next := Latter(side.sort, r)));
      lastSector := rq.sector + rq.sectors;
      side := SideOf(rq.write);
      SetSide(rq.write, side.(fifo := Remove(side.fifo, r)));
      DelRqRb(r, rq.write);
      rqs, out := rqs - {r}, out + [r];
    }

    /** deadline_add_rq_rb: the loop around elv_rb_add evicts at most one request. */
    method AddRqRb(r: nat, ghost noFifo: set<nat>)
      requires Ok(Abs(), {r}, noFifo) && noFifo <= {r} && Listed(Abs()) && r in rqs
      modifies this
      ensures Abs() == AddedRb(old(Abs()), r)
    {
      ghost var d := Abs();
      var rq := rqs[r];
      EvictedKeeps(d, rq.write, rq.sector, {r}, noFifo);
      var alias := Alias(rqs, SideOf(rq.write).sort, rq.sector);
      while alias.Some?
        invariant Abs() == if alias.Some? then d else Evicted(d, rq.write, rq.sector)
        invariant alias == Alias(rqs, SideOf(rq.write).sort, rq.sector)
        decreases |SideOf(rq.write).sort|
      {
        LatterIsOther(rqs, SideOf(rq.write).sort, alias.value);
        MoveRequest(alias.value);
        alias := Alias(rqs, SideOf(rq.write).sort, rq.sector);
      }
      var side := SideOf(rq.write);
      SetSide(rq.write, side.(sort := Insert(side.sort, Place(rqs, side.sort, rq.sector), r)));
    }

    /** deadline_add_request. */
    method AddRequest(r: nat, rq: Rq)
      requires Ok(Abs(), {}, {}) && r !in rqs
      modifies this
      ensures Listed(old(Abs())) && Abs() == Added(old(Abs()), r, rq) && Ok(Abs(), {}, {})
    {
      OkIsListed(Abs(), {}, {});
      ListedGrows(Abs(), r, rq);
      AddedKeeps(Abs(), r, rq);
      NewSideOk(rqs, readSide, false, r, rq);
      NewSideOk(rqs, writeSide, true, r, rq);
      rqs := rqs[r := rq];
      AddRqRb(r, {r});
      var side := SideOf(rq.write);
      SetSide(rq.write, side.(fifo := side.fifo + [r]));
    }

    /** deadline_merge: the queued request that starts where the bio ends. */
    method FindFront(sector: nat, write: bool, frontMerges: bool) returns (found: Option<nat>)
      requires Ok(Abs(), {}, {})
      ensures found.Some? ==> found.value in rqs && rqs[found.value].sector == sector && rqs[found.value].write == write
      ensures !frontMerges ==> found.None?
      ensures found.None? && frontMerges ==> forall r :: r in rqs && rqs[r].write == write ==> rqs[r].sector != sector
    {
      found := None;
      if frontMerges {
        AliasExact(rqs, SideOf(write).sort, sector);
        found := Alias(rqs, SideOf(write).sort, sector);
      }
    }

    /** deadline_merged_request; rq is the request as the merge has changed it. */
    method MergedRequest(r: nat, rq: Rq, front: bool)
      requires Ok(Abs(), {}, {}) && r in rqs && rq.write == rqs[r].write && (!front ==> rq.sector == rqs[r].sector)
      modifies this
      ensures Ok(Abs(), {}, {})
      ensures front ==> Listed(Unsorted(old(Abs()), r, rq)) && Abs() == AddedRb(Unsorted(old(Abs()), r, rq), r)
      ensures !front ==> Abs() == old(Abs()).(rqs := old(rqs)[r := rq])
    {
      if front {
        UnsortedKeeps(Abs(), r, rq);
        FrontMergedKeeps(Abs(), r, rq);
        rqs := rqs[r := rq];
        var side := SideOf(rq.write);
        SetSide(rq.write, side.(sort := Remove(side.sort, r)));
        AddRqRb(r, {});
      } else {
        GrownSideOk(rqs, readSide, false, r, rq);
        GrownSideOk(rqs, writeSide, true, r, rq);
        rqs := rqs[r := rq];
      }
    }

    /** deadline_merged_requests; rq is r as enlarged by the merge. */
    method MergedRequests(r: nat, next: nat, rq: Rq)
      requires r in rqs && next in rqs && r != next && rqs[r].write == rqs[next].write == rq.write
      requires next in SideOf(rq.write).sort && NoDup(SideOf(rq.write).fifo) && r in SideOf(rq.write).fifo
      requires next in SideOf(rq.write).fifo
      modifies this
      ensures Abs() == Deadline.MergedRequests(old(Abs()), r, next, rq)
    {
      var side := SideOf(rq.write);
      var urgent := rqs[next].stamp < rqs[r].stamp;
      MergedFifoKeeps(side.fifo, r, next, urgent);
      var fifo := JoinFifo(side.fifo, r, next, urgent);
      rqs := rqs[r := if urgent then rq.(stamp := rqs[next].stamp) else rq];
      SetSide(rq.write, side.(fifo := Remove(fifo, next)));
      DelRqRb(next, rq.write);
      rqs := rqs - {next};
    }

    /** The choice of deadline_dispatch_requests, with its counters. */
    method Select(t: Tunables, now: nat) returns (rq: Option<nat>)
      requires Ok(Abs(), {}, {})
      modifies this`batching, this`starved
      ensures rq == Choice(old(Abs()), t, now) && Abs() == if rq.Some? then Counted(old(Abs()), t) else old(Abs())
    {
      var hasReads, hasWrites := readSide.fifo != [], writeSide.fifo != [];
      rq := if writeSide.next.Some? then writeSide.next else readSide.next;
      if rq.None? || batching >= t.fifoBatch {
        var write;
        if hasReads {
          write := hasWrites && starved >= t.writesStarved;
          starved := if write then 0 else if hasWrites then starved + 1 else starved;
        } else if hasWrites {
          starved, write := 0, true;
        } else {
          return None;
        }
        var side := SideOf(write);
        assert side.fifo[0] in side.fifo;
        if rqs[side.fifo[0]].stamp < now || side.next.None? {
          rq := Some(side.fifo[0]);
        } else {
          rq := side.next;
        }
        batching := 0;
      }
      batching := batching + 1;
    }

    /** deadline_dispatch_requests: false when nothing is queued. */
    method DispatchRequests(t: Tunables, now: nat) returns (moved: bool)
      requires Ok(Abs(), {}, {})
      modifies this
      ensures Abs() == Dispatched(old(Abs()), t, now) && moved == Choice(old(Abs()), t, now).Some?
    {
      ghost var d := Abs();
      ChoiceExists(d, t, now);
      CountedKeeps(d, t);
      var rq := Select(t, now);
      if rq.None? {
        return false;
      }
      ReadyToMove(Counted(d, t), rq.value);
      MoveRequest(rq.value);
      moved := true;
    }

    /** elv_drain_elevator: every queued request is dispatched, each once. */
    method Drain(t: Tunables, now: nat)
      requires Ok(Abs(), {}, {})
      modifies this
      ensures rqs == map[] && Ok(Abs(), {}, {}) && Drained(old(rqs), old(out), map[], out)
    {
      var moved := true;
      while moved
        invariant Ok(Abs(), {}, {}) && Drained(old(rqs), old(out), rqs, out)
        invariant !moved ==> rqs == map[]
        decreases |rqs|, moved
      {
        ghost var d := Abs();
        DispatchedKeeps(d, t, now);
        moved := DispatchRequests(t, now);
        if moved {
          DrainStep(old(rqs), old(out), d.rqs, d.out, Choice(d, t, now).value);
        }
      }
    }
  }

  method JoinFifo(fifo: seq<nat>, r: nat, next: nat, urgent: bool) returns (fifo': seq<nat>)
    requires NoDup(fifo) && r in fifo && next in fifo && r != next
    ensures fifo' == MergedFifo(fifo, r, next, urgent)
  {
    fifo' := fifo;
    if urgent {
      var f := Remove(fifo, r);
      RemoveKeeps(fifo, r);
      var i := IndexOf(f, next);
      fifo' := f[..i + 1] + [r] + f[i + 1..];
    }
  }

  lemma ReadyToMove(d: Data, r: nat)
    requires Ok(d, {}, {}) && r in d.rqs
    ensures Listed(d) && r in Get(d, d.rqs[r].write).sort && Latter(Get(d, d.rqs[r].write).sort, r) != Some(r)
  {
  }
}
