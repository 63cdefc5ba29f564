/**
 CFQ's service tree with its cached leftmost queue. The tree is known by the queues in service order;
 an insertion descends some binary tree with that order, whatever shape rebalancing has given it.
 */
module ServiceTree {
  import opened Options
  import opened SortList

  /** What a queue is sorted by: real-time class, idle class and rb_key. */
  datatype Rank = Rank(rt: bool, idle: bool, key: nat)

  function RankAt(ranks: map<nat, Rank>, q: nat): Rank {
    if q in ranks then ranks[q] else Rank(false, false, 0)
  }

  datatype Tree = Leaf | Node(lower: Tree, queue: nat, upper: Tree)

  function InOrder(t: Tree): seq<nat> {
    match t
    case Leaf => []
    case Node(lower, q, upper) => InOrder(lower) + [q] + InOrder(upper)
  }

  /** The comparison of cfq_service_tree_add: a is put to the left of b. */
  predicate GoesLeft(a: Rank, b: Rank) {
    if a.rt && !b.rt then true
    else if !a.rt && b.rt then false
    else if !a.idle && b.idle then true
    else if a.idle && !b.idle then false
    else a.key < b.key
  }

  /** The descent of cfq_service_tree_add: the tree with q linked in, and whether every turn was to the left. */
  function Attach(t: Tree, q: nat, rank: Rank, ranks: map<nat, Rank>): (Tree, bool) {
    match t
    case Leaf => (Node(Leaf, q, Leaf), true)
    case Node(lower, p, upper) =>
      if GoesLeft(rank, RankAt(ranks, p)) then
        var (t', left) := Attach(lower, q, rank, ranks);
        (Node(t', p, upper), left)
      else
        (Node(lower, p, Attach(upper, q, rank, ranks).0), false)
  }

  /** The service order: no queue goes to the left of an earlier one. */
  ghost predicate Ordered(order: seq<nat>, ranks: map<nat, Rank>) {
    forall i, j :: 0 <= i < j < |order| ==> !GoesLeft(RankAt(ranks, order[j]), RankAt(ranks, order[i]))
  }

  /** In service order real-time queues are first, idle ones last, and queues of one class in the order of keys. */
  lemma OrderedByKey(order: seq<nat>, ranks: map<nat, Rank>, i: nat, j: nat)
    requires Ordered(order, ranks) && i < j < |order|
    ensures var a, b := RankAt(ranks, order[i]), RankAt(ranks, order[j]);
      && (b.rt ==> a.rt)
      && (a.rt == b.rt && a.idle ==> b.idle)
      && (a.rt == b.rt && a.idle == b.idle ==> a.key <= b.key)
  {
  }

  lemma InsertLower(low: seq<nat>, p: nat, up: seq<nat>, i: nat, q: nat)
    requires i <= |low|
    ensures Insert(low, i, q) + [p] + up == Insert(low + [p] + up, i, q)
  {
  }

  /** Erasing another queue leaves the cache alone. */
  lemma LeftErasedExactly(left: Option<nat>, q: nat)
    ensures LeftErased(left, q) != Some(q) && (left != Some(q) ==> LeftErased(left, q) == left)
  {
  }

  lemma InsertUpper(low: seq<nat>, p: nat, up: seq<nat>, k: nat, q: nat)
    requires k <= |up|
    ensures low + [p] + Insert(up, k, q) == Insert(low + [p] + up, |low| + 1 + k, q)
  {
  }

  /** The place of a newcomer: behind every queue it does not go to the left of. */
  lemma {:induction false} AttachInserts(t: Tree, q: nat, rank: Rank, ranks: map<nat, Rank>) returns (i: nat)
    ensures i <= |InOrder(t)| && InOrder(Attach(t, q, rank, ranks).0) == Insert(InOrder(t), i, q)
    ensures Attach(t, q, rank, ranks).1 <==> i == 0
    decreases t
  {
    match t
    case Leaf => i := 0;
    case Node(lower, p, upper) =>
      var low, up := InOrder(lower), InOrder(upper);
      if GoesLeft(rank, RankAt(ranks, p)) {
        i := AttachInserts(lower, q, rank, ranks);
        InsertLower(low, p, up, i, q);
      } else {
        var k := AttachInserts(upper, q, rank, ranks);
        i := |low| + 1 + k;
        InsertUpper(low, p, up, k, q);
      }
  }

  /** A newcomer of this rank goes to the left of exactly the queues from place i on. */
  ghost predicate SplitAt(s: seq<nat>, i: nat, rank: Rank, ranks: map<nat, Rank>) {
    i <= |s| && forall k :: 0 <= k < |s| ==> (GoesLeft(rank, RankAt(ranks, s[k])) <==> i <= k)
  }

  lemma OrderedParts(low: seq<nat>, p: nat, up: seq<nat>, ranks: map<nat, Rank>)
    requires Ordered(low + [p] + up, ranks)
    ensures Ordered(low, ranks) && Ordered(up, ranks)
  {
    var all := low + [p] + up;
    assert forall k :: 0 <= k < |low| ==> all[k] == low[k];
    assert forall k :: 0 <= k < |up| ==> all[|low| + 1 + k] == up[k];
  }

  lemma SplitLower(low: seq<nat>, p: nat, up: seq<nat>, i: nat, rank: Rank, ranks: map<nat, Rank>)
    requires Ordered(low + [p] + up, ranks) && SplitAt(low, i, rank, ranks) && GoesLeft(rank, RankAt(ranks, p))
    ensures SplitAt(low + [p] + up, i, rank, ranks)
  {
    var all := low + [p] + up;
    forall k | 0 <= k < |all| ensures GoesLeft(rank, RankAt(ranks, all[k])) <==> i <= k {
      if k < |low| {
        assert all[k] == low[k];
      } else if k > |low| {
        assert all[|low|] == p;
        LeftOfLater(rank, RankAt(ranks, p), RankAt(ranks, all[k]));
      }
    }
  }

  lemma SplitUpper(low: seq<nat>, p: nat, up: seq<nat>, m: nat, rank: Rank, ranks: map<nat, Rank>)
    requires Ordered(low + [p] + up, ranks) && SplitAt(up, m, rank, ranks) && !GoesLeft(rank, RankAt(ranks, p))
    ensures SplitAt(low + [p] + up, |low| + 1 + m, rank, ranks)
  {
    var all := low + [p] + up;
    forall k | 0 <= k < |all| ensures GoesLeft(rank, RankAt(ranks, all[k])) <==> |low| + 1 + m <= k {
      if k < |low| {
        assert all[|low|] == p;
        NotLeftOfEarlier(rank, RankAt(ranks, p), RankAt(ranks, all[k]));
      } else if k > |low| {
        assert all[k] == up[k - |low| - 1];
      }
    }
  }

  /** The newcomer is put where the order stays right. */
  lemma {:induction false} AttachSplits(t: Tree, q: nat, rank: Rank, ranks: map<nat, Rank>) returns (i: nat)
    requires Ordered(InOrder(t), ranks)
    ensures SplitAt(InOrder(t), i, rank, ranks) && InOrder(Attach(t, q, rank, ranks).0) == Insert(InOrder(t), i, q)
    decreases t
  {
    match t
    case Leaf => i := 0;
    case Node(lower, p, upper) =>
      var low, up := InOrder(lower), InOrder(upper);
      OrderedParts(low, p, up, ranks);
      if GoesLeft(rank, RankAt(ranks, p)) {
        i := AttachSplits(lower, q, rank, ranks);
        InsertLower(low, p, up, i, q);
        SplitLower(low, p, up, i, rank, ranks);
      } else {
        var m := AttachSplits(upper, q, rank, ranks);
        i := |low| + 1 + m;
        InsertUpper(low, p, up, m, q);
        SplitUpper(low, p, up, m, rank, ranks);
      }
  }

  lemma LeftOfLater(a: Rank, b: Rank, c: Rank)
    requires GoesLeft(a, b) && !GoesLeft(c, b)
    ensures GoesLeft(a, c)
  {
  }

  lemma NotLeftOfEarlier(a: Rank, b: Rank, c: Rank)
    requires !GoesLeft(a, b) && !GoesLeft(b, c)
    ensures !GoesLeft(a, c)
  {
  }

  /** Insertion keeps the service order. */
  lemma {:induction false} AttachOrdered(t: Tree, q: nat, rank: Rank, ranks: map<nat, Rank>)
    requires Ordered(InOrder(t), ranks) && RankAt(ranks, q) == rank
    ensures Ordered(InOrder(Attach(t, q, rank, ranks).0), ranks)
  {
    var i := AttachSplits(t, q, rank, ranks);
    var all := InOrder(t);
    var s := Insert(all, i, q);
    forall j, k | 0 <= j < k < |s| ensures !GoesLeft(RankAt(ranks, s[k]), RankAt(ranks, s[j])) {
      InsertAt(all, i, q, j);
      InsertAt(all, i, q, k);
    }
  }

  // ----- The cache

  /** The cached leftmost queue is the first in order, if it is set. */
  ghost predicate LeftOk(order: seq<nat>, left: Option<nat>) {
    left.Some? ==> order != [] && order[0] == left.value
  }

  /** cfq_rb_erase's cache. */
  function LeftErased(left: Option<nat>, q: nat): Option<nat> {
    if left == Some(q) then None else left
  }

  lemma EraseKeepsLeft(order: seq<nat>, left: Option<nat>, q: nat)
    requires LeftOk(order, left) && q in order
    ensures LeftOk(Remove(order, q), LeftErased(left, q))
  {
  }

  /** Setting the cache when every turn was to the left keeps it right, whatever the tree's shape. */
  lemma {:induction false} AttachKeepsLeft(t: Tree, left: Option<nat>, q: nat, rank: Rank, ranks: map<nat, Rank>)
    requires LeftOk(InOrder(t), left)
    ensures LeftOk(InOrder(Attach(t, q, rank, ranks).0), if Attach(t, q, rank, ranks).1 then Some(q) else left)
  {
    var i := AttachInserts(t, q, rank, ranks);
    InsertAt(InOrder(t), i, q, 0);
  }
}
