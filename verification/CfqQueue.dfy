/**
 CFQ as it runs: fields changed in place, tied to the functions of Cfq, and the forced dispatch that must empty it.
 */
module CfqQueue {
  import opened Options
  import opened SortList
  import opened Ledger
  import opened ServiceTree
  import opened Cfq

  class Scheduler {
    var rqs: map<nat, Rq>
    var qs: map<nat, Queue>
    var ranks: map<nat, Rank>
    var order: seq<nat>
    var left: Option<nat>
    var busy: int
    var nrSorted: int
    var out: seq<nat>

    ghost function Abs(): Data
      reads this
    {
      Data(rqs, qs, ranks, order, left, busy, nrSorted, out)
    }

    /** cfq_rb_first: the first queue in service order, found through the cache or searched for. */
    method RbFirst() returns (q: Option<nat>)
      requires LeftOk(order, left)
      modifies this`left
      ensures q == (if order == [] then None else Some(order[0])) && left == q
    {
      if left.None? && order != [] {
        left := Some(order[0]);
      }
      q := left;
    }

    /** cfq_rb_erase. */
    method RbErase(q: nat)
      requires q in order
      modifies this`order, this`left
      ensures Abs() == Erased(old(Abs()), q)
    {
      if left == Some(q) {
        left := None;
      }
      order := Remove(order, q);
    }

    /** cfq_service_tree_add with its loop down the tree. */
    method ServiceTreeAdd(q: nat, rank: Rank, shape: seq<nat> -> Tree)
      modifies this`order, this`left, this`ranks
      ensures Abs() == ServiceAdded(old(Abs()), q, rank, shape)
    {
      if q in order {
        if rank.key == RankAt(ranks, q).key {
          return;
        }
        RbErase(q);
      }
      var t, leftmost := Descend(shape(order), q, rank, ranks);
      if leftmost {
        left := Some(q);
      }
      ranks, order := ranks[q := rank], InOrder(t);
    }

    /** cfq_add_cfqq_rr. */
    method AddCfqqRr(q: nat, rank: Rank, shape: seq<nat> -> Tree)
      requires q in qs && !qs[q].onRr
      modifies this
      ensures Abs() == RrAdded(old(Abs()), q, rank, shape)
    {
      qs, busy := qs[q := qs[q].(onRr := true)], busy + 1;
      ServiceTreeAdd(q, rank, shape);
    }

    /** cfq_del_cfqq_rr. */
    method DelCfqqRr(q: nat)
      requires q in qs && qs[q].onRr
      modifies this
      ensures Abs() == RrDeleted(old(Abs()), q)
    {
      qs := qs[q := qs[q].(onRr := false)];
      if q in order {
        RbErase(q);
      }
      busy := busy - 1;
    }

    /** cfq_remove_request with cfq_del_rq_rb, and elv_dispatch_sort's or elv_merge_requests' count. */
    method RemoveRequest(h: Head, r: nat)
      requires Filed(Abs(), r)
      modifies this
      ensures Abs() == Removed(old(Abs()), h, r)
    {
      var q := rqs[r].queue;
      var c := qs[q];
      if c.next == Some(r) {
        c := c.(next := NextAfter(h, rqs, c.sort, r));
      }
      c := c.(fifo := Remove(c.fifo, r), sort := Remove(c.sort, r));
      rqs, qs, nrSorted := rqs - {r}, qs[q := c], nrSorted - 1;
      if c.onRr && c.sort == [] {
        DelCfqqRr(q);
      }
    }

    /** cfq_dispatch_insert. */
    method DispatchInsert(h: Head, r: nat)
      requires Filed(Abs(), r)
      modifies this
      ensures Abs() == Dispatched(old(Abs()), h, r)
    {
      RemoveRequest(h, r);
      out := out + [r];
    }

    /** The loop of cfq_add_rq_rb around elv_rb_add: at most one request is in the way. */
    method EvictAliases(h: Head, q: nat, sector: nat, ghost noSort: set<nat>, ghost noFifo: set<nat>)
      requires Ok(Abs(), noSort, noFifo) && noFifo <= noSort && Listed(Abs()) && q in qs
      modifies this
      ensures Abs() == Evicted(old(Abs()), h, q, sector)
    {
      ghost var d := Abs();
      EvictedKeeps(d, h, q, sector, noSort, noFifo);
      var alias := Alias(rqs, qs[q].sort, sector);
      while alias.Some?
        invariant Abs() == if alias.Some? then d else Evicted(d, h, q, sector)
        invariant q in qs && alias == Alias(rqs, qs[q].sort, sector)
        decreases if alias.Some? then 1 else 0
      {
        DispatchInsert(h, alias.value);
        alias := Alias(rqs, qs[q].sort, sector);
      }
    }

    /** cfq_add_rq_rb. */
    method AddRqRb(h: Head, r: nat, rank: Rank, shape: seq<nat> -> Tree, ghost noFifo: set<nat>)
      requires Ok(Abs(), {r}, noFifo) && noFifo <= {r} && r in rqs && Shapes(shape)
      requires Listed(Abs()) && rqs[r].queue in qs
      requires var e := Evicted(Abs(), h, rqs[r].queue, rqs[r].sector);
        r in e.rqs && e.rqs[r] == rqs[r] && rqs[r].queue in e.qs
      modifies this
      ensures Abs() == AddedRb(old(Abs()), h, r, rank, shape)
    {
      var rq := rqs[r];
      EvictAliases(h, rq.queue, rq.sector, {r}, noFifo);
      LinkRequest(h, r, rank, shape);
    }

    /** The rest of cfq_add_rq_rb: the request is linked, its queue made busy, and the next request chosen. */
    method LinkRequest(h: Head, r: nat, rank: Rank, shape: seq<nat> -> Tree)
      requires r in rqs && rqs[r].queue in qs
      modifies this
      ensures Abs() == Resorted(old(Abs()), h, r, rank, shape)
    {
      var q := rqs[r].queue;
      var wasBusy := qs[q].onRr;
      qs := qs[q := Refiled(h, rqs, qs[q], r)];
      if !wasBusy {
        AddCfqqRr(q, rank, shape);
      }
    }

    /**
     cfq_dispatch_request: the oldest request if its time has come, else the next one; a busy queue always has one.
     */
    method DispatchRequest(h: Head, q: nat, marked: bool, expire: nat, now: nat) returns (r: nat)
      requires Ok(Abs(), {}, {}) && q in order
      modifies this
      ensures Ok(Abs(), {}, {}) && r in old(rqs) && old(rqs)[r].queue == q
      ensures var oldest := old(qs[q].fifo[0]);
        Some(r) == if !marked && old(rqs)[oldest].stamp + expire <= now then Some(oldest) else old(qs[q].next)
      ensures rqs == old(rqs) - {r} && out == old(out) + [r]
    {
      BusyHasNext(Abs(), q);
      r := qs[q].next.value;
      if !marked && now >= rqs[qs[q].fifo[0]].stamp + expire {
        r := qs[q].fifo[0];
      }
      DispatchedKeeps(Abs(), h, r, {}, {});
      DispatchInsert(h, r);
    }

    /** __cfq_forced_dispatch_cfqq: the queue is emptied. */
    method ForcedDispatchQueue(h: Head, q: nat, ghost rqs0: map<nat, Rq>, ghost out0: seq<nat>)
      returns (dispatched: nat)
      requires Ok(Abs(), {}, {}) && q in order && Drained(rqs0, out0, rqs, out)
      modifies this
      ensures Ok(Abs(), {}, {}) && Drained(rqs0, out0, rqs, out)
      ensures |rqs| < |old(rqs)| && dispatched == |old(rqs)| - |rqs|
      ensures q in qs && qs[q].fifo == []
    {
      dispatched := 0;
      BusyHasNext(Abs(), q);
      while q in qs && qs[q].next.Some?
        invariant Ok(Abs(), {}, {}) && Drained(rqs0, out0, rqs, out) && q in qs
        invariant dispatched + |rqs| == |old(rqs)| && (dispatched == 0 ==> qs[q].next.Some?)
        decreases |rqs|
      {
        ghost var d := Abs();
        var r := qs[q].next.value;
        NextIsQueued(d, q);
        DispatchedKeeps(d, h, r, {}, {});
        DrainStep(rqs0, out0, d.rqs, d.out, r);
        CountRemoved(rqs, r);
        SameQueues(d, h, r);
        DispatchInsert(h, r);
        dispatched := dispatched + 1;
      }
      NoNextMeansEmpty(Abs(), q);
    }

    /** cfq_forced_dispatch, up to the slice's end: every queued request is dispatched once and no queue stays busy. */
    method ForcedDispatch(h: Head) returns (dispatched: nat)
      requires Ok(Abs(), {}, {})
      modifies this
      ensures Ok(Abs(), {}, {}) && rqs == map[] && busy == 0 && nrSorted == 0
      ensures Drained(old(rqs), old(out), map[], out) && dispatched == |old(rqs)|
    {
      dispatched := 0;
      var q := First();
      while q.Some?
        invariant Ok(Abs(), {}, {}) && Drained(old(rqs), old(out), rqs, out)
        invariant dispatched + |rqs| == |old(rqs)| && q == if order == [] then None else Some(order[0])
        decreases |rqs|
      {
        var n := ForcedDispatchQueue(h, q.value, old(rqs), old(out));
        dispatched := dispatched + n;
        q := First();
      }
      NoBusyMeansEmpty(Abs());
    }

    /** cfq_rb_first in a right state. */
    method First() returns (q: Option<nat>)
      requires Ok(Abs(), {}, {})
      modifies this`left
      ensures Ok(Abs(), {}, {}) && q == if order == [] then None else Some(order[0])
    {
      q := RbFirst();
    }

    /** cfq_dispatch_requests with force. */
    method DispatchForced(h: Head) returns (dispatched: nat)
      requires Ok(Abs(), {}, {})
      modifies this
      ensures Ok(Abs(), {}, {}) && rqs == map[] && nrSorted == 0
      ensures Drained(old(rqs), old(out), map[], out) && dispatched == |old(rqs)|
    {
      if busy == 0 {
        NoBusyMeansEmpty(Abs());
        return 0;
      }
      dispatched := ForcedDispatch(h);
    }

    /** elv_drain_elevator: every queued request is dispatched once, and nr_sorted reaches 0. */
    method Drain(h: Head)
      requires Ok(Abs(), {}, {})
      modifies this
      ensures Ok(Abs(), {}, {}) && nrSorted == 0 && Drained(old(rqs), old(out), map[], out)
    {
      var dispatched := DispatchForced(h);
      while dispatched != 0
        invariant Ok(Abs(), {}, {}) && rqs == map[] && nrSorted == 0 && Drained(old(rqs), old(out), map[], out)
        decreases dispatched
      {
        ghost var before := out;
        dispatched := DispatchForced(h);
        assert out == before;
      }
    }
  }

  /**
   The descent of cfq_service_tree_add, turn by turn: the link is left of everything when no turn was to the right.
   */
  method Descend(t: Tree, q: nat, rank: Rank, ranks: map<nat, Rank>) returns (t': Tree, leftmost: bool)
    ensures (t', leftmost) == Attach(t, q, rank, ranks)
    decreases t
  {
    match t
    case Leaf =>
      t', leftmost := Node(Leaf, q, Leaf), true;
    case Node(lower, p, upper) =>
      if GoesLeft(rank, RankAt(ranks, p)) {
        var l;
        l, leftmost := Descend(lower, q, rank, ranks);
        t' := Node(l, p, upper);
      } else {
        var u, _ := Descend(upper, q, rank, ranks);
        t', leftmost := Node(lower, p, u), false;
      }
  }

  lemma BusyHasNext(d: Data, q: nat)
    requires Ok(d, {}, {}) && q in d.order
    ensures q in d.qs && d.qs[q].next.Some? && d.qs[q].next.value in d.rqs && d.rqs[d.qs[q].next.value].queue == q
    ensures d.qs[q].fifo != [] && d.qs[q].fifo[0] in d.rqs && d.rqs[d.qs[q].fifo[0]].queue == q
  {
  }

  lemma NextIsQueued(d: Data, q: nat)
    requires Ok(d, {}, {}) && q in d.qs && d.qs[q].next.Some?
    ensures d.qs[q].next.value in d.rqs
  {
  }

  lemma NoNextMeansEmpty(d: Data, q: nat)
    requires Ok(d, {}, {}) && q in d.qs && d.qs[q].next.None?
    ensures d.qs[q].fifo == []
  {
    if d.qs[q].fifo != [] {
      FifoHasNext(d, q);
      assert false;
    }
  }

  lemma FifoHasNext(d: Data, q: nat)
    requires Ok(d, {}, {}) && q in d.qs && d.qs[q].fifo != []
    ensures d.qs[q].next.Some?
  {
    assert QueueOk(d.rqs, q, d.qs[q], {}, {});
    assert d.qs[q].fifo[0] in d.qs[q].fifo;
    assert d.qs[q].fifo[0] in d.qs[q].sort;
  }

  lemma NoBusyMeansEmpty(d: Data)
    requires Ok(d, {}, {}) && d.order == []
    ensures d.rqs == map[] && d.busy == 0 && d.nrSorted == 0
  {
  }

  lemma SameQueues(d: Data, h: Head, r: nat)
    requires Ok(d, {}, {}) && Filed(d, r)
    ensures Dispatched(d, h, r).qs.Keys == d.qs.Keys
  {
    FiledIsBusy(d, r, {}, {});
    RemovedParts(d, h, r);
  }
}
