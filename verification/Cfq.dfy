/**
 The complete fair queueing scheduler: per process queue a sector-sorted list and an arrival list of
 the same requests and the next request to serve, and a service tree of the queues with requests.
 Service keys, the head position and the choice of the queue to serve are parameters.
 */
module Cfq {
  import opened Options
  import opened SortList
  import opened ServiceTree

  /** cfq_queue. */
  datatype Queue = Queue(sort: seq<nat>, fifo: seq<nat>, next: Option<nat>, onRr: bool)

  /** cfq_data, the queued requests, nr_sorted and the requests dispatched so far. */
  datatype Data = Data(
    rqs: map<nat, Rq>, qs: map<nat, Queue>, ranks: map<nat, Rank>, order: seq<nat>, left: Option<nat>,
    busy: int, nrSorted: int, out: seq<nat>)

  /** last_position, cfq_back_max and cfq_back_penalty. */
  datatype Head = Head(last: nat, backMax: nat, backPenalty: nat)

  // ----- cfq_choose_req

  /** A request lies behind the head, too far for a backward seek. */
  predicate Wraps(h: Head, sector: nat) {
    sector < h.last && sector + h.backMax * 2 < h.last
  }

  function Distance(h: Head, sector: nat): nat {
    if sector >= h.last then sector - h.last
    else if sector + h.backMax * 2 >= h.last then (h.last - sector) * h.backPenalty
    else 0
  }

  /** cfq_choose_req for two requests. */
  predicate PrefersFirst(h: Head, a: Rq, b: Rq) {
    if a.sync && !b.sync then true
    else if b.sync && !a.sync then false
    else if a.meta && !b.meta then true
    else if b.meta && !a.meta then false
    else if Wraps(h, a.sector) && Wraps(h, b.sector) then a.sector <= b.sector
    else if Wraps(h, b.sector) then true
    else if Wraps(h, a.sector) then false
    else if Distance(h, a.sector) < Distance(h, b.sector) then true
    else if Distance(h, b.sector) < Distance(h, a.sector) then false
    else a.sector >= b.sector
  }

  function Choose(h: Head, rqs: map<nat, Rq>, a: Option<nat>, b: Option<nat>): (c: Option<nat>)
    requires (a.Some? ==> a.value in rqs) && (b.Some? ==> b.value in rqs)
    ensures (c == a || c == b) && (c.None? <==> a.None? && b.None?)
  {
    if a.None? || a == b then b
    else if b.None? then a
    else if PrefersFirst(h, rqs[a.value], rqs[b.value]) then a else b
  }

  /** The choice does not depend on the order of the two requests. */
  lemma ChooseCommutes(h: Head, rqs: map<nat, Rq>, a: Option<nat>, b: Option<nat>)
    requires (a.Some? ==> a.value in rqs) && (b.Some? ==> b.value in rqs)
    requires a.Some? && b.Some? && a != b ==> rqs[a.value].sector != rqs[b.value].sector
    ensures Choose(h, rqs, a, b) == Choose(h, rqs, b, a)
  {
  }

  /**
   a is the better request: synchronous first, then metadata, then ahead of the head or within a short way back, then
   the nearer.
   */
  predicate Better(h: Head, a: Rq, b: Rq) {
    || (a.sync && !b.sync)
    || (a.sync == b.sync && a.meta && !b.meta)
    || (a.sync == b.sync && a.meta == b.meta && !Wraps(h, a.sector) && Wraps(h, b.sector))
    || (a.sync == b.sync && a.meta == b.meta && Wraps(h, a.sector) && Wraps(h, b.sector) && a.sector < b.sector)
    || (a.sync == b.sync && a.meta == b.meta && !Wraps(h, a.sector) && !Wraps(h, b.sector)
        && Distance(h, a.sector) < Distance(h, b.sector))
  }

  /** The request chosen is never worse than the other. */
  lemma ChooseIsBest(h: Head, rqs: map<nat, Rq>, a: nat, b: nat)
    requires a in rqs && b in rqs
    ensures var c := Choose(h, rqs, Some(a), Some(b));
      c.Some? && c.value in rqs && !Better(h, rqs[a], rqs[c.value]) && !Better(h, rqs[b], rqs[c.value])
  {
  }

  /** What a request costs the head: sectors ahead, or sectors back times the penalty; too far back is after all. */
  datatype Cost = Seek(sectors: nat) | Restart(sector: nat) {
    predicate Less(other: Cost) {
      match (this, other)
      case (Seek(m), Seek(n)) => m < n
      case (Seek(_), Restart(_)) => true
      case (Restart(_), Seek(_)) => false
      case (Restart(m), Restart(n)) => m < n
    }
  }

  /** A kilobyte is two sectors. */
  ghost function CostOf(h: Head, sector: nat): Cost {
    var ahead: int := sector - h.last;
    if ahead >= 0 then Seek(ahead)
    else if -ahead <= 2 * h.backMax then Seek(-ahead * h.backPenalty)
    else Restart(sector)
  }

  lemma CostIs(h: Head, sector: nat)
    ensures CostOf(h, sector) == if Wraps(h, sector) then Restart(sector) else Seek(Distance(h, sector))
  {
  }

  /**
   The choice between two requests: the synchronous one, then the one for metadata, then the cheaper one, and of two
   that cost the same the higher.
   */
  lemma ChooseExactly(h: Head, rqs: map<nat, Rq>, a: nat, b: nat)
    requires a in rqs && b in rqs && a != b
    ensures var x, y := rqs[a], rqs[b];
      Choose(h, rqs, Some(a), Some(b)) == Some(a) <==>
        || (x.sync && !y.sync)
        || (x.sync == y.sync && x.meta && !y.meta)
        || (x.sync == y.sync && x.meta == y.meta && var m, n := CostOf(h, x.sector), CostOf(h, y.sector);
            m.Less(n) || (m == n && x.sector >= y.sector))
  {
    CostIs(h, rqs[a].sector);
    CostIs(h, rqs[b].sector);
  }

  // ----- The service tree

  /** cfq_rb_erase. */
  function Erased(d: Data, q: nat): Data
    requires q in d.order
  {
    d.(order := Remove(d.order, q), left := LeftErased(d.left, q))
  }

  function Linked(d: Data, q: nat, rank: Rank, shape: Tree): Data {
    var (t, left) := Attach(shape, q, rank, d.ranks);
    d.(order := InOrder(t), left := if left then Some(q) else d.left, ranks := d.ranks[q := rank])
  }

  /** cfq_service_tree_add; shape gives the tree's shape for its order. */
  function ServiceAdded(d: Data, q: nat, rank: Rank, shape: seq<nat> -> Tree): Data {
    if q in d.order then
      if rank.key == RankAt(d.ranks, q).key then d
      else var e := Erased(d, q); Linked(e, q, rank, shape(e.order))
    else Linked(d, q, rank, shape(d.order))
  }

  /** A queue that joins the tree, or whose key has changed, is there with its new rank; the others keep theirs. */
  lemma ServiceAddedRanks(d: Data, q: nat, rank: Rank, shape: seq<nat> -> Tree)
    requires q !in d.order || rank.key != RankAt(d.ranks, q).key
    ensures var e := ServiceAdded(d, q, rank, shape);
      RankAt(e.ranks, q) == rank && forall p :: p != q ==> RankAt(e.ranks, p) == RankAt(d.ranks, p)
  {
  }

  /** cfq_add_cfqq_rr. */
  function RrAdded(d: Data, q: nat, rank: Rank, shape: seq<nat> -> Tree): Data
    requires q in d.qs
  {
    ServiceAdded(d.(qs := d.qs[q := d.qs[q].(onRr := true)], busy := d.busy + 1), q, rank, shape)
  }

  /** cfq_del_cfqq_rr. */
  function RrDeleted(d: Data, q: nat): Data
    requires q in d.qs
  {
    var e := d.(qs := d.qs[q := d.qs[q].(onRr := false)], busy := d.busy - 1);
    if q in d.order then Erased(e, q) else e
  }

  // ----- Requests

  /** cfq_find_next_rq. */
  function NextAfter(h: Head, rqs: map<nat, Rq>, s: seq<nat>, r: nat): Option<nat>
    requires r in s && forall x :: x in s ==> x in rqs
  {
    var i := IndexOf(s, r);
    var prev := if i > 0 then Some(s[i - 1]) else None;
    var next := if i + 1 < |s| then Some(s[i + 1]) else if s[0] != r then Some(s[0]) else None;
    Choose(h, rqs, next, prev)
  }

  /** y is the nearest request above r, or the nearest below, or the lowest if r is the highest. */
  ghost predicate Neighbour(rqs: map<nat, Rq>, s: seq<nat>, r: nat, y: nat)
    requires r in s && forall x :: x in s ==> x in rqs
  {
    y in s && y != r &&
    if rqs[y].sector > rqs[r].sector then
      forall x :: x in s && rqs[x].sector > rqs[r].sector ==> rqs[y].sector <= rqs[x].sector
    else
      || (forall x :: x in s && rqs[x].sector < rqs[r].sector ==> rqs[x].sector <= rqs[y].sector)
      || (forall x :: x in s ==> rqs[y].sector <= rqs[x].sector <= rqs[r].sector)
  }

  lemma NextAfterAt(h: Head, rqs: map<nat, Rq>, s: seq<nat>, i: nat)
    requires Sorted(rqs, s) && i < |s|
    ensures var prev := if i > 0 then Some(s[i - 1]) else None;
      var next := if i + 1 < |s| then Some(s[i + 1]) else if i > 0 then Some(s[0]) else None;
      NextAfter(h, rqs, s, s[i]) == Choose(h, rqs, next, prev)
  {
    FirstIs(s, s[i], i);
  }

  predicate NextTo(s: seq<nat>, i: nat, j: nat) {
    i < |s| && j < |s| && (j + 1 == i || j == i + 1 || (0 == j < i == |s| - 1))
  }

  lemma BestAt(h: Head, rqs: map<nat, Rq>, s: seq<nat>, i: nat, j: nat) returns (k: nat)
    requires Sorted(rqs, s) && NextTo(s, i, j)
    ensures NextTo(s, i, k) && NextAfter(h, rqs, s, s[i]) == Some(s[k]) && !Better(h, rqs[s[j]], rqs[s[k]])
  {
    NextAfterAt(h, rqs, s, i);
    k := if i + 1 < |s| then i + 1 else 0;
    if i > 0 {
      ChooseIsBest(h, rqs, s[k], s[i - 1]);
      if NextAfter(h, rqs, s, s[i]) == Some(s[i - 1]) {
        k := i - 1;
      }
    }
  }

  /** The next request is a neighbour, and no neighbour is better. */
  lemma NextAfterIsBest(h: Head, rqs: map<nat, Rq>, s: seq<nat>, r: nat, y: nat)
    requires Sorted(rqs, s) && r in s && Neighbour(rqs, s, r, y)
    ensures var c := NextAfter(h, rqs, s, r);
      c.Some? && Neighbour(rqs, s, r, c.value) && !Better(h, rqs[y], rqs[c.value])
  {
    var i :| 0 <= i < |s| && s[i] == r;
    var j :| 0 <= j < |s| && s[j] == y;
    NeighbourAt(rqs, s, i, j);
    var k := BestAt(h, rqs, s, i, j);
    NeighbourIs(rqs, s, i, k);
  }

  lemma NeighbourIs(rqs: map<nat, Rq>, s: seq<nat>, i: nat, j: nat)
    requires Sorted(rqs, s) && NextTo(s, i, j)
    ensures Neighbour(rqs, s, s[i], s[j])
  {
  }

  lemma NeighbourAt(rqs: map<nat, Rq>, s: seq<nat>, i: nat, j: nat)
    requires Sorted(rqs, s) && i < |s| && j < |s| && Neighbour(rqs, s, s[i], s[j])
    ensures NextTo(s, i, j)
  {
    assert s[0] in s && s[|s| - 1] in s;
    if i > 0 {
      assert s[i - 1] in s;
    }
    if i + 1 < |s| {
      assert s[i + 1] in s;
    }
  }

  /** The request is in both lists of its queue. */
  predicate Filed(d: Data, r: nat) {
    && r in d.rqs && d.rqs[r].queue in d.qs
    && r in d.qs[d.rqs[r].queue].sort && r in d.qs[d.rqs[r].queue].fifo
    && forall x :: x in d.qs[d.rqs[r].queue].sort ==> x in d.rqs
  }

  function Unfiled(h: Head, rqs: map<nat, Rq>, c: Queue, r: nat): Queue
    requires r in c.sort && r in c.fifo && forall x :: x in c.sort ==> x in rqs
  {
    Queue(Remove(c.sort, r), Remove(c.fifo, r),
      if c.next == Some(r) then NextAfter(h, rqs, c.sort, r) else c.next, c.onRr)
  }

  /** cfq_remove_request. */
  function Removed(d: Data, h: Head, r: nat): Data
    requires Filed(d, r)
  {
    var q := d.rqs[r].queue;
    var c := Unfiled(h, d.rqs, d.qs[q], r);
    var e := d.(rqs := d.rqs - {r}, qs := d.qs[q := c], nrSorted := d.nrSorted - 1);
    if c.onRr && c.sort == [] then RrDeleted(e, q) else e
  }

  /** cfq_dispatch_insert. */
  function Dispatched(d: Data, h: Head, r: nat): Data
    requires Filed(d, r)
  {
    var e := Removed(d, h, r);
    e.(out := e.out + [r])
  }

  /** Every request in a sort list is queued there and on the arrival list. */
  ghost predicate Listed(d: Data) {
    forall q, r :: q in d.qs && r in d.qs[q].sort ==> r in d.rqs && d.rqs[r].queue == q && r in d.qs[q].fifo
  }

  /** The request of this queue that starts at sector is dispatched out of the way. */
  function Evicted(d: Data, h: Head, q: nat, sector: nat): Data
    requires Listed(d) && q in d.qs
  {
    var a := Alias(d.rqs, d.qs[q].sort, sector);
    if a.Some? then Dispatched(d, h, a.value) else d
  }

  /** The queue with r in its sort list, and r considered as the next request. */
  function Refiled(h: Head, rqs: map<nat, Rq>, c: Queue, r: nat): Queue
    requires r in rqs
  {
    var next := if c.next.Some? && c.next.value in rqs then c.next else None;
    c.(sort := Insert(c.sort, Place(rqs, c.sort, rqs[r].sector), r), next := Choose(h, rqs, next, Some(r)))
  }

  /** The next request is the better of the one there was and r. */
  lemma RefiledNext(h: Head, rqs: map<nat, Rq>, c: Queue, r: nat)
    requires r in rqs && (c.next.Some? ==> c.next.value in rqs)
    ensures var next := Refiled(h, rqs, c, r).next;
      && (next == Some(r) || (next == c.next && next.Some?))
      && !Better(h, rqs[r], rqs[next.value])
      && (c.next.Some? ==> !Better(h, rqs[c.next.value], rqs[next.value]))
  {
    if c.next.Some? {
      ChooseIsBest(h, rqs, c.next.value, r);
    }
  }

  /** Another request that leaves does not change the next one. */
  lemma UnfiledNext(h: Head, rqs: map<nat, Rq>, c: Queue, r: nat)
    requires r in c.sort && r in c.fifo && forall x :: x in c.sort ==> x in rqs
    ensures Unfiled(h, rqs, c, r).next == if c.next == Some(r) then NextAfter(h, rqs, c.sort, r) else c.next
  {
  }

  /** r is put into the sort list of its queue, which joins the service tree if need be. */
  function Resorted(d: Data, h: Head, r: nat, rank: Rank, shape: seq<nat> -> Tree): Data
    requires r in d.rqs && d.rqs[r].queue in d.qs
  {
    var q := d.rqs[r].queue;
    var e := d.(qs := d.qs[q := Refiled(h, d.rqs, d.qs[q], r)]);
    if d.qs[q].onRr then e else RrAdded(e, q, rank, shape)
  }

  // ----- What must hold

  /**
   The lists of a queue hold the same requests, a next request is set whenever one is pending, and the
   queue is on the service list exactly then. Requests in noSort or noFifo are out of that list for a moment.
   */
  ghost predicate QueueOk(rqs: map<nat, Rq>, q: nat, c: Queue, noSort: set<nat>, noFifo: set<nat>) {
    match c case Queue(sort, fifo, next, onRr) =>
      && Sorted(rqs, sort) && NoDup(fifo)
      && (forall r :: r in fifo <==> r in rqs && rqs[r].queue == q && r !in noFifo)
      && (forall r :: r in sort <==> r in rqs && rqs[r].queue == q && r !in noSort)
      && (next.Some? ==> next.value in rqs && rqs[next.value].queue == q)
      && (sort != [] ==> next.Some? && onRr)
      && (onRr ==> sort != [] || exists m :: m in noSort && m in rqs && rqs[m].queue == q)
  }

  ghost predicate QueuesOk(rqs: map<nat, Rq>, qs: map<nat, Queue>, noSort: set<nat>, noFifo: set<nat>) {
    forall q :: q in qs ==> QueueOk(rqs, q, qs[q], noSort, noFifo)
  }

  /** Every request belongs to a known queue. */
  ghost predicate Homes(rqs: map<nat, Rq>, qs: map<nat, Queue>) {
    forall r :: r in rqs ==> rqs[r].queue in qs
  }

  /** The tree holds exactly the busy queues, in service order, and they are counted. */
  ghost predicate TreeOk(qs: map<nat, Queue>, ranks: map<nat, Rank>, order: seq<nat>, left: Option<nat>, busy: int) {
    && NoDup(order) && (forall q :: q in order <==> q in qs && qs[q].onRr)
    && LeftOk(order, left) && busy == |order| && Ordered(order, ranks)
  }

  ghost predicate Ok(d: Data, noSort: set<nat>, noFifo: set<nat>) {
    match d case Data(rqs, qs, ranks, order, left, busy, n, _) =>
      && QueuesOk(rqs, qs, noSort, noFifo) && Homes(rqs, qs)
      && TreeOk(qs, ranks, order, left, busy) && n == |rqs|
  }

  // ----- The tree's part

  lemma OrderedElsewhere(order: seq<nat>, ranks: map<nat, Rank>, q: nat, rank: Rank)
    requires Ordered(order, ranks) && q !in order
    ensures Ordered(order, ranks[q := rank])
  {
  }

  lemma OrderedRemoves(order: seq<nat>, ranks: map<nat, Rank>, q: nat)
    requires Ordered(order, ranks) && q in order
    ensures Ordered(Remove(order, q), ranks)
  {
  }

  lemma TreeErased(qs: map<nat, Queue>, ranks: map<nat, Rank>, order: seq<nat>, left: Option<nat>, busy: int, q: nat,
                   c: Queue)
    requires TreeOk(qs, ranks, order, left, busy) && q in order && !c.onRr
    ensures TreeOk(qs[q := c], ranks, Remove(order, q), LeftErased(left, q), busy - 1)
  {
    RemoveKeeps(order, q);
    OrderedRemoves(order, ranks, q);
    EraseKeepsLeft(order, left, q);
  }

  lemma {:induction false} TreeLinked(qs: map<nat, Queue>, ranks: map<nat, Rank>, order: seq<nat>, left: Option<nat>,
                                      busy: int, q: nat, c: Queue, rank: Rank, shape: Tree)
    requires TreeOk(qs, ranks, order, left, busy) && q !in order && q in qs && c.onRr && InOrder(shape) == order
    ensures var (t, l) := Attach(shape, q, rank, ranks);
      TreeOk(qs[q := c], ranks[q := rank], InOrder(t), if l then Some(q) else left, busy + 1)
  {
    var i := AttachInserts(shape, q, rank, ranks);
    InsertHas(order, i, q);
    InsertNoDup(order, i, q);
    AttachKeepsLeft(shape, left, q, rank, ranks);
    OrderedElsewhere(order, ranks, q, rank);
    AttachElsewhere(shape, q, rank, ranks);
    AttachOrdered(shape, q, rank, ranks[q := rank]);
  }

  lemma {:induction false} AttachElsewhere(t: Tree, q: nat, rank: Rank, ranks: map<nat, Rank>)
    requires q !in InOrder(t)
    ensures Attach(t, q, rank, ranks) == Attach(t, q, rank, ranks[q := rank])
    decreases t
  {
    match t
    case Leaf =>
    case Node(lower, p, upper) =>
      AttachElsewhere(lower, q, rank, ranks);
      AttachElsewhere(upper, q, rank, ranks);
  }

  /** A queue whose state changes otherwise stays where it is. */
  lemma TreeKeeps(qs: map<nat, Queue>, ranks: map<nat, Rank>, order: seq<nat>, left: Option<nat>, busy: int, q: nat,
                  c: Queue)
    requires TreeOk(qs, ranks, order, left, busy) && q in qs && c.onRr == qs[q].onRr
    ensures TreeOk(qs[q := c], ranks, order, left, busy)
  {
  }

  // ----- Removal

  lemma NextAfterOk(h: Head, rqs: map<nat, Rq>, s: seq<nat>, r: nat)
    requires Sorted(rqs, s) && r in s
    ensures NextAfter(h, rqs, s, r).None? <==> |s| == 1
    ensures NextAfter(h, rqs, s, r).Some? ==> NextAfter(h, rqs, s, r).value in s && NextAfter(h, rqs, s, r).value != r
  {
  }

  lemma RemoveLength(s: seq<nat>, r: nat)
    requires r in s
    ensures |Remove(s, r)| == |s| - 1
  {
  }

  lemma UnfiledKeeps(h: Head, rqs: map<nat, Rq>, q: nat, c: Queue, noSort: set<nat>, noFifo: set<nat>, r: nat)
    requires QueueOk(rqs, q, c, noSort, noFifo) && r in c.sort && r in c.fifo
    ensures var c' := Unfiled(h, rqs, c, r); QueueOk(rqs - {r}, q, c'.(onRr := c'.sort != []), noSort, noFifo)
  {
    SortedRemoves(rqs, c.sort, r);
    RemoveKeeps(c.fifo, r);
    RemoveLength(c.sort, r);
    NextAfterOk(h, rqs, c.sort, r);
  }

  lemma OtherQueueKeeps(rqs: map<nat, Rq>, q: nat, c: Queue, noSort: set<nat>, noFifo: set<nat>, r: nat)
    requires QueueOk(rqs, q, c, noSort, noFifo) && r in rqs && rqs[r].queue != q
    ensures QueueOk(rqs - {r}, q, c, noSort, noFifo)
  {
  }

  lemma AllQueuesKeep(d: Data, h: Head, r: nat, noSort: set<nat>, noFifo: set<nat>)
    requires Ok(d, noSort, noFifo) && Filed(d, r)
    ensures var q := d.rqs[r].queue;
      var c := Unfiled(h, d.rqs, d.qs[q], r);
      var qs := d.qs[q := c.(onRr := c.sort != [])];
      QueuesOk(d.rqs - {r}, qs, noSort, noFifo)
  {
    var q := d.rqs[r].queue;
    UnfiledKeeps(h, d.rqs, q, d.qs[q], noSort, noFifo, r);
    forall p | p in d.qs && p != q ensures QueueOk(d.rqs - {r}, p, d.qs[p], noSort, noFifo) {
      OtherQueueKeeps(d.rqs, p, d.qs[p], noSort, noFifo, r);
    }
  }

  /** A queue on the service list leaves it. */
  lemma RrDeletedOk(d: Data, q: nat, c: Queue)
    requires TreeOk(d.qs, d.ranks, d.order, d.left, d.busy) && q in d.qs && d.qs[q].onRr && c.onRr
    ensures var e := RrDeleted(d.(qs := d.qs[q := c]), q);
      && e.qs == d.qs[q := c.(onRr := false)] && e.rqs == d.rqs && e.nrSorted == d.nrSorted && e.out == d.out
      && TreeOk(e.qs, e.ranks, e.order, e.left, e.busy)
  {
    TreeErased(d.qs, d.ranks, d.order, d.left, d.busy, q, c.(onRr := false));
    assert d.qs[q := c][q := c.(onRr := false)] == d.qs[q := c.(onRr := false)];
  }

  /** The queues after a removal, and the tree. */
  lemma RemovedParts(d: Data, h: Head, r: nat)
    requires TreeOk(d.qs, d.ranks, d.order, d.left, d.busy) && Filed(d, r) && d.qs[d.rqs[r].queue].onRr
    ensures var q := d.rqs[r].queue;
      var c := Unfiled(h, d.rqs, d.qs[q], r);
      var e := Removed(d, h, r);
      && e.qs == d.qs[q := c.(onRr := c.sort != [])] && e.rqs == d.rqs - {r} && e.nrSorted == d.nrSorted - 1
      && e.out == d.out && TreeOk(e.qs, e.ranks, e.order, e.left, e.busy)
  {
    var q := d.rqs[r].queue;
    var c := Unfiled(h, d.rqs, d.qs[q], r);
    if c.sort == [] {
      RrDeletedOk(d.(rqs := d.rqs - {r}, nrSorted := d.nrSorted - 1), q, c);
    } else {
      TreeKeeps(d.qs, d.ranks, d.order, d.left, d.busy, q, c);
      assert c.(onRr := true) == c;
    }
  }

  lemma FiledIsBusy(d: Data, r: nat, noSort: set<nat>, noFifo: set<nat>)
    requires Ok(d, noSort, noFifo) && Filed(d, r)
    ensures d.qs[d.rqs[r].queue].onRr
  {
  }

  lemma RemovedKeeps(d: Data, h: Head, r: nat, noSort: set<nat>, noFifo: set<nat>)
    requires Ok(d, noSort, noFifo) && Filed(d, r)
    ensures Ok(Removed(d, h, r), noSort, noFifo)
  {
    FiledIsBusy(d, r, noSort, noFifo);
    RemovedParts(d, h, r);
    AllQueuesKeep(d, h, r, noSort, noFifo);
    CountRemoved(d.rqs, r);
  }

  lemma OkIsFiled(d: Data, r: nat, noSort: set<nat>, noFifo: set<nat>)
    requires Ok(d, noSort, noFifo) && r in d.rqs && r !in noSort && r !in noFifo
    ensures Filed(d, r)
  {
  }

  lemma DispatchedKeeps(d: Data, h: Head, r: nat, noSort: set<nat>, noFifo: set<nat>)
    requires Ok(d, noSort, noFifo) && r in d.rqs && r !in noSort && r !in noFifo
    ensures Filed(d, r) && Ok(Dispatched(d, h, r), noSort, noFifo)
    ensures Dispatched(d, h, r).rqs == d.rqs - {r} && Dispatched(d, h, r).out == d.out + [r]
  {
    OkIsFiled(d, r, noSort, noFifo);
    RemovedKeeps(d, h, r, noSort, noFifo);
    FiledIsBusy(d, r, noSort, noFifo);
    RemovedParts(d, h, r);
  }

  // ----- Insertion

  lemma OkIsListed(d: Data, noSort: set<nat>, noFifo: set<nat>)
    requires Ok(d, noSort, noFifo) && noFifo <= noSort
    ensures Listed(d)
  {
  }

  /** After an eviction nothing of this queue starts at sector. */
  lemma EvictedKeeps(d: Data, h: Head, q: nat, sector: nat, noSort: set<nat>, noFifo: set<nat>)
    requires Ok(d, noSort, noFifo) && noFifo <= noSort && Listed(d) && q in d.qs
    ensures var e := Evicted(d, h, q, sector);
      && Ok(e, noSort, noFifo) && q in e.qs && Alias(e.rqs, e.qs[q].sort, sector).None?
      && (forall r :: r in noSort && r in d.rqs ==> r in e.rqs && e.rqs[r] == d.rqs[r])
  {
    var s := d.qs[q].sort;
    assert QueueOk(d.rqs, q, d.qs[q], noSort, noFifo);
    AliasExact(d.rqs, s, sector);
    var a := Alias(d.rqs, s, sector);
    if a.Some? {
      DispatchedKeeps(d, h, a.value, noSort, noFifo);
      FiledIsBusy(d, a.value, noSort, noFifo);
      RemovedParts(d, h, a.value);
      EvictedOnce(d.rqs, s, a.value, sector);
    }
  }

  lemma RefiledKeeps(h: Head, rqs: map<nat, Rq>, q: nat, c: Queue, noFifo: set<nat>, r: nat)
    requires QueueOk(rqs, q, c, {r}, noFifo) && r in rqs && rqs[r].queue == q && Alias(rqs, c.sort, rqs[r].sector).None?
    ensures QueueOk(rqs, q, Refiled(h, rqs, c, r).(onRr := true), {}, noFifo)
  {
    SortedInserts(rqs, c.sort, r);
    InsertHas(c.sort, Place(rqs, c.sort, rqs[r].sector), r);
  }

  lemma OtherNotMissing(rqs: map<nat, Rq>, q: nat, c: Queue, noFifo: set<nat>, r: nat)
    requires QueueOk(rqs, q, c, {r}, noFifo) && r in rqs && rqs[r].queue != q
    ensures QueueOk(rqs, q, c, {}, noFifo)
  {
  }

  lemma AllQueuesRefiled(d: Data, h: Head, r: nat, noFifo: set<nat>)
    requires Ok(d, {r}, noFifo) && r in d.rqs && Alias(d.rqs, d.qs[d.rqs[r].queue].sort, d.rqs[r].sector).None?
    ensures var q := d.rqs[r].queue;
      var qs := d.qs[q := Refiled(h, d.rqs, d.qs[q], r).(onRr := true)];
      QueuesOk(d.rqs, qs, {}, noFifo)
  {
    var q := d.rqs[r].queue;
    RefiledKeeps(h, d.rqs, q, d.qs[q], noFifo, r);
    forall p | p in d.qs && p != q ensures QueueOk(d.rqs, p, d.qs[p], {}, noFifo) {
      OtherNotMissing(d.rqs, p, d.qs[p], noFifo, r);
    }
  }

  /** The shape function gives a tree for every service order. */
  ghost predicate Shapes(shape: seq<nat> -> Tree) {
    forall s :: InOrder(shape(s)) == s
  }

  /** A queue that was not on the service list joins it. */
  lemma RrAddedOk(d: Data, q: nat, c: Queue, rank: Rank, shape: seq<nat> -> Tree)
    requires TreeOk(d.qs, d.ranks, d.order, d.left, d.busy) && q in d.qs && !d.qs[q].onRr && !c.onRr && Shapes(shape)
    ensures var e := RrAdded(d.(qs := d.qs[q := c]), q, rank, shape);
      && e.qs == d.qs[q := c.(onRr := true)] && e.rqs == d.rqs && e.nrSorted == d.nrSorted && e.out == d.out
      && TreeOk(e.qs, e.ranks, e.order, e.left, e.busy)
  {
    TreeLinked(d.qs, d.ranks, d.order, d.left, d.busy, q, c.(onRr := true), rank, shape(d.order));
    assert d.qs[q := c][q := c.(onRr := true)] == d.qs[q := c.(onRr := true)];
  }

  lemma ResortedParts(d: Data, h: Head, r: nat, rank: Rank, shape: seq<nat> -> Tree)
    requires r in d.rqs && d.rqs[r].queue in d.qs && TreeOk(d.qs, d.ranks, d.order, d.left, d.busy) && Shapes(shape)
    ensures var q := d.rqs[r].queue;
      var e := Resorted(d, h, r, rank, shape);
      && e.qs == d.qs[q := Refiled(h, d.rqs, d.qs[q], r).(onRr := true)]
      && e.rqs == d.rqs && e.nrSorted == d.nrSorted && e.out == d.out && TreeOk(e.qs, e.ranks, e.order, e.left, e.busy)
  {
    var q := d.rqs[r].queue;
    var c := Refiled(h, d.rqs, d.qs[q], r);
    if d.qs[q].onRr {
      TreeKeeps(d.qs, d.ranks, d.order, d.left, d.busy, q, c);
    } else {
      RrAddedOk(d, q, c, rank, shape);
    }
  }

  lemma ResortedKeeps(d: Data, h: Head, r: nat, rank: Rank, shape: seq<nat> -> Tree, noFifo: set<nat>)
    requires Ok(d, {r}, noFifo) && r in d.rqs && Shapes(shape)
    requires Alias(d.rqs, d.qs[d.rqs[r].queue].sort, d.rqs[r].sector).None?
    ensures Ok(Resorted(d, h, r, rank, shape), {}, noFifo)
  {
    ResortedParts(d, h, r, rank, shape);
    AllQueuesRefiled(d, h, r, noFifo);
  }

  /** cfq_add_rq_rb. */
  function AddedRb(d: Data, h: Head, r: nat, rank: Rank, shape: seq<nat> -> Tree): Data
    requires Listed(d) && r in d.rqs && d.rqs[r].queue in d.qs
    requires r in Evicted(d, h, d.rqs[r].queue, d.rqs[r].sector).rqs
    requires Evicted(d, h, d.rqs[r].queue, d.rqs[r].sector).rqs[r].queue in
      Evicted(d, h, d.rqs[r].queue, d.rqs[r].sector).qs
  {
    Resorted(Evicted(d, h, d.rqs[r].queue, d.rqs[r].sector), h, r, rank, shape)
  }

  lemma AddedRbKeeps(d: Data, h: Head, r: nat, rank: Rank, shape: seq<nat> -> Tree, noFifo: set<nat>)
    requires Ok(d, {r}, noFifo) && noFifo <= {r} && r in d.rqs && Shapes(shape)
    ensures Listed(d)
    ensures var e := Evicted(d, h, d.rqs[r].queue, d.rqs[r].sector);
      r in e.rqs && e.rqs[r] == d.rqs[r] && d.rqs[r].queue in e.qs
    ensures Ok(AddedRb(d, h, r, rank, shape), {}, noFifo)
    ensures r in AddedRb(d, h, r, rank, shape).rqs && AddedRb(d, h, r, rank, shape).rqs[r] == d.rqs[r]
  {
    OkIsListed(d, {r}, noFifo);
    EvictedKeeps(d, h, d.rqs[r].queue, d.rqs[r].sector, {r}, noFifo);
    var e := Evicted(d, h, d.rqs[r].queue, d.rqs[r].sector);
    ResortedKeeps(e, h, r, rank, shape, noFifo);
    ResortedParts(e, h, r, rank, shape);
  }

  /** elv_insert's count and cfq_insert_request, for a new request r. */
  function Arrived(d: Data, r: nat, rq: Rq): Data {
    d.(rqs := d.rqs[r := rq], nrSorted := d.nrSorted + 1)
  }

  /** r goes to the end of the arrival list of its queue. */
  function FiledLast(d: Data, r: nat): Data
    requires r in d.rqs && d.rqs[r].queue in d.qs
  {
    var q := d.rqs[r].queue;
    d.(qs := d.qs[q := d.qs[q].(fifo := d.qs[q].fifo + [r])])
  }

  lemma ArrivedQueueOk(rqs: map<nat, Rq>, q: nat, c: Queue, r: nat, rq: Rq)
    requires QueueOk(rqs, q, c, {}, {}) && r !in rqs
    ensures QueueOk(rqs[r := rq], q, c, {r}, {r})
  {
  }

  lemma ArrivedQueuesOk(rqs: map<nat, Rq>, qs: map<nat, Queue>, r: nat, rq: Rq)
    requires QueuesOk(rqs, qs, {}, {}) && r !in rqs
    ensures QueuesOk(rqs[r := rq], qs, {r}, {r})
  {
    forall q | q in qs ensures QueueOk(rqs[r := rq], q, qs[q], {r}, {r}) {
      ArrivedQueueOk(rqs, q, qs[q], r, rq);
    }
  }

  lemma ArrivedKeeps(d: Data, r: nat, rq: Rq)
    requires Ok(d, {}, {}) && r !in d.rqs && rq.queue in d.qs
    ensures Ok(Arrived(d, r, rq), {r}, {r})
  {
    ArrivedQueuesOk(d.rqs, d.qs, r, rq);
    CountAdded(d.rqs, r, rq);
  }

  lemma FiledQueueOk(rqs: map<nat, Rq>, q: nat, c: Queue, r: nat)
    requires QueueOk(rqs, q, c, {}, {r}) && r in rqs
    ensures rqs[r].queue == q ==> QueueOk(rqs, q, c.(fifo := c.fifo + [r]), {}, {})
    ensures rqs[r].queue != q ==> QueueOk(rqs, q, c, {}, {})
  {
  }

  lemma FiledQueuesOk(rqs: map<nat, Rq>, qs: map<nat, Queue>, r: nat)
    requires QueuesOk(rqs, qs, {}, {r}) && r in rqs && rqs[r].queue in qs
    ensures var q := rqs[r].queue; QueuesOk(rqs, qs[q := qs[q].(fifo := qs[q].fifo + [r])], {}, {})
  {
    var q := rqs[r].queue;
    var qs' := qs[q := qs[q].(fifo := qs[q].fifo + [r])];
    forall p | p in qs' ensures QueueOk(rqs, p, qs'[p], {}, {}) {
      FiledQueueOk(rqs, p, qs[p], r);
    }
  }

  lemma FiledLastKeeps(d: Data, r: nat)
    requires Ok(d, {}, {r}) && r in d.rqs
    ensures Ok(FiledLast(d, r), {}, {})
  {
    var q := d.rqs[r].queue;
    TreeKeeps(d.qs, d.ranks, d.order, d.left, d.busy, q, d.qs[q].(fifo := d.qs[q].fifo + [r]));
    FiledQueuesOk(d.rqs, d.qs, r);
  }

  // ----- Front merges

  /** r with its new start, out of the sort list: the first half of cfq_reposition_rq_rb. */
  function Unsorted(d: Data, r: nat, rq: Rq): Data
    requires rq.queue in d.qs && r in d.qs[rq.queue].sort
  {
    d.(rqs := d.rqs[r := rq], qs := d.qs[rq.queue := d.qs[rq.queue].(sort := Remove(d.qs[rq.queue].sort, r))])
  }

  lemma UnsortedQueueOk(rqs: map<nat, Rq>, q: nat, c: Queue, r: nat, rq: Rq)
    requires QueueOk(rqs, q, c, {}, {}) && r in c.sort && rqs[r].queue == q && rq.queue == q
    ensures QueueOk(rqs[r := rq], q, c.(sort := Remove(c.sort, r)), {r}, {})
  {
    SortedRemoves(rqs, c.sort, r);
    SortedElsewhere(rqs, Remove(c.sort, r), r, rq);
    assert r in {r} && r in rqs[r := rq] && rqs[r := rq][r].queue == q;
  }

  lemma OtherUnsortedOk(rqs: map<nat, Rq>, q: nat, c: Queue, r: nat, rq: Rq)
    requires QueueOk(rqs, q, c, {}, {}) && r in rqs && rqs[r].queue != q && rq.queue != q
    ensures QueueOk(rqs[r := rq], q, c, {r}, {}) && QueueOk(rqs[r := rq], q, c, {}, {})
  {
  }

  lemma UnsortedQueuesOk(rqs: map<nat, Rq>, qs: map<nat, Queue>, r: nat, rq: Rq)
    requires QueuesOk(rqs, qs, {}, {}) && r in rqs && rq.queue == rqs[r].queue && rq.queue in qs
    ensures r in qs[rq.queue].sort
    ensures QueuesOk(rqs[r := rq], qs[rq.queue := qs[rq.queue].(sort := Remove(qs[rq.queue].sort, r))], {r}, {})
  {
    var q := rq.queue;
    assert QueueOk(rqs, q, qs[q], {}, {});
    UnsortedQueueOk(rqs, q, qs[q], r, rq);
    forall p | p in qs && p != q ensures QueueOk(rqs[r := rq], p, qs[p], {r}, {}) {
      OtherUnsortedOk(rqs, p, qs[p], r, rq);
    }
  }

  lemma UnsortedKeeps(d: Data, r: nat, rq: Rq)
    requires Ok(d, {}, {}) && r in d.rqs && rq.queue == d.rqs[r].queue
    ensures rq.queue in d.qs && r in d.qs[rq.queue].sort && Ok(Unsorted(d, r, rq), {r}, {})
  {
    var q := rq.queue;
    UnsortedQueuesOk(d.rqs, d.qs, r, rq);
    TreeKeeps(d.qs, d.ranks, d.order, d.left, d.busy, q, d.qs[q].(sort := Remove(d.qs[q].sort, r)));
    CountAdded(d.rqs, r, rq);
  }

  // ----- Merged requests and changed keys

  lemma ChangedQueueOk(rqs: map<nat, Rq>, q: nat, c: Queue, r: nat, rq: Rq)
    requires QueueOk(rqs, q, c, {}, {}) && r in rqs && rq.queue == rqs[r].queue && rq.sector == rqs[r].sector
    ensures QueueOk(rqs[r := rq], q, c, {}, {})
  {
  }

  lemma RefifoedOk(rqs: map<nat, Rq>, q: nat, c: Queue, fifo: seq<nat>)
    requires QueueOk(rqs, q, c, {}, {}) && NoDup(fifo) && forall x :: x in fifo <==> x in c.fifo
    ensures QueueOk(rqs, q, c.(fifo := fifo), {}, {})
  {
  }

  /**
   r as enlarged by the merge, in next's place of the arrival list if next is older: the first half of
   cfq_merged_requests.
   */
  function Enlarged(d: Data, r: nat, next: nat, rq: Rq): Data
    requires r in d.rqs && next in d.rqs && rq.queue in d.qs && r != next
    requires r in d.qs[rq.queue].fifo && next in d.qs[rq.queue].fifo
  {
    var c := d.qs[rq.queue];
    var urgent := d.rqs[next].stamp < rq.stamp;
    d.(rqs := d.rqs[r := rq], qs := d.qs[rq.queue := c.(fifo := MergedFifo(c.fifo, r, next, urgent))])
  }

  lemma EnlargedQueuesOk(rqs: map<nat, Rq>, qs: map<nat, Queue>, r: nat, next: nat, rq: Rq, urgent: bool)
    requires QueuesOk(rqs, qs, {}, {}) && r in rqs && next in rqs && r != next && rq.queue in qs
    requires rqs[r].queue == rqs[next].queue == rq.queue && rq.sector == rqs[r].sector
    ensures r in qs[rq.queue].fifo && next in qs[rq.queue].fifo
    ensures var c := qs[rq.queue];
      QueuesOk(rqs[r := rq], qs[rq.queue := c.(fifo := MergedFifo(c.fifo, r, next, urgent))], {}, {})
  {
    var q := rq.queue;
    assert QueueOk(rqs, q, qs[q], {}, {});
    MergedFifoKeeps(qs[q].fifo, r, next, urgent);
    ChangedQueueOk(rqs, q, qs[q], r, rq);
    RefifoedOk(rqs[r := rq], q, qs[q], MergedFifo(qs[q].fifo, r, next, urgent));
    forall p | p in qs && p != q ensures QueueOk(rqs[r := rq], p, qs[p], {}, {}) {
      ChangedQueueOk(rqs, p, qs[p], r, rq);
    }
  }

  lemma EnlargedKeeps(d: Data, r: nat, next: nat, rq: Rq)
    requires Ok(d, {}, {}) && r in d.rqs && next in d.rqs && r != next
    requires d.rqs[r].queue == d.rqs[next].queue == rq.queue && rq.sector == d.rqs[r].sector
    ensures rq.queue in d.qs && r in d.qs[rq.queue].fifo && next in d.qs[rq.queue].fifo
    ensures Ok(Enlarged(d, r, next, rq), {}, {})
  {
    var urgent := d.rqs[next].stamp < rq.stamp;
    EnlargedQueuesOk(d.rqs, d.qs, r, next, rq, urgent);
    var c := d.qs[rq.queue];
    TreeKeeps(d.qs, d.ranks, d.order, d.left, d.busy, rq.queue, c.(fifo := MergedFifo(c.fifo, r, next, urgent)));
    HomesKeep(d.rqs, d.qs, r, rq, c.(fifo := MergedFifo(c.fifo, r, next, urgent)));
    CountAdded(d.rqs, r, rq);
  }

  lemma HomesKeep(rqs: map<nat, Rq>, qs: map<nat, Queue>, r: nat, rq: Rq, c: Queue)
    requires Homes(rqs, qs) && rq.queue in qs
    ensures Homes(rqs[r := rq], qs[rq.queue := c])
  {
  }

  lemma PutBack(qs: map<nat, Queue>, q: nat, c: Queue)
    requires q in qs
    ensures qs[q := c][q := qs[q]] == qs
  {
  }

  /** A busy queue gets a new key: cfq_resort_rr_list and the front insertion of cfq_preempt_queue. */
  lemma ServiceAddedKeeps(d: Data, q: nat, rank: Rank, shape: seq<nat> -> Tree)
    requires Ok(d, {}, {}) && q in d.qs && d.qs[q].onRr && Shapes(shape)
    ensures Ok(ServiceAdded(d, q, rank, shape), {}, {})
  {
    if rank.key != RankAt(d.ranks, q).key {
      var c := d.qs[q];
      var order, left := Remove(d.order, q), LeftErased(d.left, q);
      TreeErased(d.qs, d.ranks, d.order, d.left, d.busy, q, c.(onRr := false));
      TreeLinked(d.qs[q := c.(onRr := false)], d.ranks, order, left, d.busy - 1, q, c, rank, shape(order));
      PutBack(d.qs, q, c.(onRr := false));
    }
  }
}
