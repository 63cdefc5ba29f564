/** One queue's tag operations as they run, with the tag map and index changed in place. */
module TagQueue {
  import opened Options
  import opened Tags

  /** The map and the index agree with the tags the requests carry, and the busy list holds those requests. */
  ghost predicate Agree(bits: seq<bool>, index: seq<Option<nat>>, tags: map<nat, nat>, busy: seq<nat>) {
    && |bits| == |index|
    && (forall t :: 0 <= t < |bits| ==> (bits[t] <==> index[t].Some?))
    && (forall t :: 0 <= t < |index| && index[t].Some? ==> index[t].value in tags && tags[index[t].value] == t)
    && (forall r :: r in tags ==> tags[r] < |index| && index[tags[r]] == Some(r))
    && (forall i, j :: 0 <= i < j < |busy| ==> busy[i] != busy[j])
    && (forall r :: r in busy <==> r in tags)
  }

  lemma StartedAgree(bits: seq<bool>, index: seq<Option<nat>>, tags: map<nat, nat>, busy: seq<nat>, r: nat, t: nat)
    requires Agree(bits, index, tags, busy) && r !in tags && t < |bits| && !bits[t]
    ensures Agree(bits[t := true], index[t := Some(r)], tags[r := t], [r] + busy)
  {
  }

  lemma EndedAgree(bits: seq<bool>, index: seq<Option<nat>>, tags: map<nat, nat>, busy: seq<nat>, i: nat)
    requires Agree(bits, index, tags, busy) && i < |busy|
    ensures busy[i] in tags && tags[busy[i]] < |bits|
    ensures Agree(bits[tags[busy[i]] := false], index[tags[busy[i]] := None], tags - {busy[i]}, Without(busy, i))
  {
  }

  lemma GrownAgree(bits: seq<bool>, index: seq<Option<nat>>, tags: map<nat, nat>, busy: seq<nat>, depth: nat)
    requires Agree(bits, index, tags, busy) && |bits| <= depth
    ensures Agree(Kept(bits, false, depth), Kept(index, None, depth), tags, busy)
  {
  }

  /** started is busy, which is headed by the request started last, in the order of the starts. */
  ghost predicate StartOrder(busy: seq<nat>, started: seq<nat>) {
    |started| == |busy| && forall k :: 0 <= k < |busy| ==> started[k] == busy[|busy| - 1 - k]
  }

  ghost function Without(s: seq<nat>, i: nat): (r: seq<nat>)
    requires i < |s|
    ensures |r| == |s| - 1 && forall j :: 0 <= j < |r| ==> r[j] == if j < i then s[j] else s[j + 1]
  {
    s[..i] + s[i + 1..]
  }

  lemma EndedOrder(busy: seq<nat>, started: seq<nat>, i: nat)
    requires StartOrder(busy, started) && i < |busy|
    ensures StartOrder(Without(busy, i), Without(started, |busy| - 1 - i))
  {
  }

  /** find_next_zero_bit. */
  method FindNextZero(bits: array<bool>, size: nat, offset: nat) returns (t: nat)
    requires size <= bits.Length
    ensures t < size ==> offset <= t && !bits[t] && forall k :: offset <= k < t ==> bits[k]
    ensures t >= size ==> forall k :: offset <= k < size ==> bits[k]
  {
    t := offset;
    while t < size && bits[t]
      invariant offset <= t && forall k :: offset <= k < t && k < size ==> bits[k]
    {
      t := t + 1;
    }
  }

  /** The first depth entries of s, filled up to depth. */
  ghost function Kept<T>(s: seq<T>, fill: T, depth: nat): (r: seq<T>)
    ensures |r| == depth && forall i :: 0 <= i < depth ==> r[i] == if i < |s| then s[i] else fill
  {
    if |s| <= depth then s + seq(depth - |s|, _ => fill) else s[..depth]
  }

  /** init_tag_map and the copy of the old entries; a write outside the new map is an overrun and ends the copy. */
  method Replaced(bits: array<bool>, index: array<Option<nat>>, depth: nat)
    returns (bits': array<bool>, index': array<Option<nat>>, overrun: bool)
    requires bits.Length == index.Length
    ensures fresh(bits') && fresh(index') && overrun == (bits.Length > depth)
    ensures bits'[..] == Kept(bits[..], false, depth) && index'[..] == Kept(index[..], None, depth)
  {
    bits' := new bool[depth](_ => false);
    index' := new Option<nat>[depth](_ => None);
    overrun := false;
    var i := 0;
    while i < bits.Length && !overrun
      invariant i <= bits.Length && i <= depth && (overrun ==> i == depth < bits.Length)
      invariant forall t :: 0 <= t < depth ==> bits'[t] == (t < i && bits[t])
      invariant forall t :: 0 <= t < depth ==> index'[t] == if t < i then index[t] else None
      decreases bits.Length - i, !overrun
    {
      if i >= depth {
        overrun := true;
      } else {
        bits'[i], index'[i] := bits[i], index[i];
        i := i + 1;
      }
    }
  }

  /** What blk_queue_resize_tags comes to. */
  datatype Outcome = Resized | Busy | Overrun

  class Queue {
    var tagMap: array<bool>
    var tagIndex: array<Option<nat>>
    var maxDepth: nat
    /** The tag each request in flight carries. */
    var tags: map<nat, nat>
    /** tag_busy_list, the latest request first. */
    var busy: seq<nat>
    /** queue_head. */
    var queue: seq<nat>
    /** The requests in flight, in the order they were started. */
    ghost var started: seq<nat>

    ghost predicate Valid()
      reads this, tagMap, tagIndex
    {
      maxDepth <= tagMap.Length && Agree(tagMap[..], tagIndex[..], tags, busy) && StartOrder(busy, started)
    }

    /** blk_queue_init_tags with init_tag_map. */
    constructor (depth: nat)
      ensures Valid() && tags == map[] && busy == [] && maxDepth == depth && fresh(tagMap) && fresh(tagIndex)
    {
      tagMap := new bool[depth](_ => false);
      tagIndex := new Option<nat>[depth](_ => None);
      maxDepth, tags, busy, queue, started := depth, map[], [], [], [];
    }

    /** blk_queue_start_tag for the k-th request of the queue: true when no tag is free for it. */
    method StartTag(k: nat, r: nat, sync: bool) returns (fail: bool)
      requires Valid() && r !in tags && k < |queue| && queue[k] == r
      modifies this`tags, this`busy, this`queue, this`started, tagMap, tagIndex
      ensures Valid()
      ensures fail <==> forall t :: (if sync then 0 else maxDepth / 4) <= t < maxDepth ==> old(tagMap[..])[t]
      ensures fail ==>
        tags == old(tags) && queue == old(queue) && started == old(started) && tagMap[..] == old(tagMap[..])
      ensures !fail ==> started == old(started) + [r] && queue == Without(old(queue), k)
      ensures !fail ==> r in tags && tags == old(tags)[r := tags[r]]
      ensures !fail ==> (if sync then 0 else maxDepth / 4) <= tags[r] < maxDepth && !old(tagMap[..])[tags[r]]
      ensures !fail ==> forall t :: (if sync then 0 else maxDepth / 4) <= t < tags[r] ==> old(tagMap[..])[t]
    {
      var offset := if sync then 0 else maxDepth / 4;
      var tag := FindNextZero(tagMap, maxDepth, offset);
      if tag >= maxDepth {
        return true;
      }
      StartedAgree(tagMap[..], tagIndex[..], tags, busy, r, tag);
      Take(tag, r);
      queue := queue[..k] + queue[k + 1..];
      fail := false;
    }

    /** Request r gets the free tag and is the last one started. */
    method Take(tag: nat, r: nat)
      requires tag < tagMap.Length && tag < tagIndex.Length
      modifies this`tags, this`busy, this`started, tagMap, tagIndex
      ensures tags == old(tags)[r := tag] && busy == [r] + old(busy) && started == old(started) + [r]
      ensures tagMap[..] == old(tagMap[..])[tag := true] && tagIndex[..] == old(tagIndex[..])[tag := Some(r)]
    {
      tagMap[tag] := true;
      tagIndex[tag] := Some(r);
      tags, busy, started := tags[r := tag], [r] + busy, started + [r];
    }

    /** blk_queue_end_tag; the early return for a tag outside the map is never taken. */
    method EndTag(i: nat)
      requires Valid() && i < |busy|
      modifies this`tags, this`busy, this`started, tagMap, tagIndex
      ensures Valid() && old(busy)[i] in old(tags) && old(tags)[old(busy)[i]] < tagMap.Length
      ensures tags == old(tags) - {old(busy)[i]} && busy == Without(old(busy), i)
      ensures started == Without(old(started), |old(busy)| - 1 - i)
      ensures tagMap[..] == old(tagMap[..])[old(tags)[old(busy)[i]] := false]
    {
      var r := busy[i];
      EndedAgree(tagMap[..], tagIndex[..], tags, busy, i);
      var tag := tags[r];
      EndedOrder(busy, started, i);
      started := Without(started, |busy| - 1 - i);
      busy, tags := busy[..i] + busy[i + 1..], tags - {r};
      tagIndex[tag] := None;
      tagMap[tag] := false;
      assert tagMap[..] == old(tagMap[..])[tag := false] && tagIndex[..] == old(tagIndex[..])[tag := None];
    }

    /** blk_queue_invalidate_tags with blk_requeue_request while no barrier is in progress. */
    method InvalidateTags()
      requires Valid()
      modifies this`tags, this`busy, this`queue, this`started, tagMap, tagIndex
      ensures Valid() && tags == map[] && busy == [] && queue == old(started) + old(queue)
      ensures forall t :: 0 <= t < tagMap.Length ==> !tagMap[t]
    {
      while busy != []
        invariant Valid() && started + queue == old(started) + old(queue)
        decreases |busy|
      {
        var r := busy[0];
        assert started + queue == started[..|busy| - 1] + ([r] + queue);
        EndTag(0);
        queue := [r] + queue;
      }
      AllFree(tagMap[..], tagIndex[..], tags, busy);
    }

    /** blk_queue_resize_tags; nrRequests is the queue's request limit, shared tells of other users of the map. */
    method ResizeTags(newDepth: nat, nrRequests: nat, shared: bool) returns (outcome: Outcome)
      requires Valid()
      modifies this`tagMap, this`tagIndex, this`maxDepth
      ensures outcome == ResizeOutcome(old(tagMap.Length), newDepth, nrRequests, shared)
      ensures newDepth <= old(tagMap.Length) ==>
        maxDepth == newDepth && tagMap == old(tagMap) && tagIndex == old(tagIndex)
      ensures outcome == Busy ==> maxDepth == old(maxDepth) && tagMap == old(tagMap) && tagIndex == old(tagIndex)
      ensures newDepth > old(tagMap.Length) && outcome != Busy ==>
        var depth := Clamped(newDepth, nrRequests);
        && maxDepth == depth && fresh(tagMap) && fresh(tagIndex)
        && tagMap[..] == Kept(old(tagMap[..]), false, depth) && tagIndex[..] == Kept(old(tagIndex[..]), None, depth)
      ensures outcome != Overrun ==> Valid()
    {
      if newDepth <= tagMap.Length {
        maxDepth := newDepth;
        return Resized;
      }
      if shared {
        return Busy;
      }
      var depth := if newDepth > nrRequests * 2 then nrRequests * 2 else newDepth;
      var bits, index, overrun := Replaced(tagMap, tagIndex, depth);
      if !overrun {
        GrownAgree(tagMap[..], tagIndex[..], tags, busy, depth);
      }
      tagMap, tagIndex, maxDepth := bits, index, depth;
      outcome := if overrun then Overrun else Resized;
    }
  }

  /** init_tag_map's limit on the depth. */
  function Clamped(newDepth: nat, nrRequests: nat): nat {
    if newDepth > nrRequests * 2 then nrRequests * 2 else newDepth
  }

  /**
   A resize fails for a shared map, and overruns exactly when twice the request limit does not cover the old depth.
   */
  function ResizeOutcome(realMax: nat, newDepth: nat, nrRequests: nat, shared: bool): Outcome {
    if newDepth <= realMax then Resized
    else if shared then Busy
    else if 2 * nrRequests < realMax then Overrun
    else Resized
  }

  /** The new depth is the one asked for, or twice the request limit if that is less. */
  lemma ClampedIsLess(newDepth: nat, nrRequests: nat)
    ensures var depth := Clamped(newDepth, nrRequests);
      depth <= newDepth && depth <= 2 * nrRequests && (depth == newDepth || depth == 2 * nrRequests)
  {
  }

  /** When a resize fails, when it overruns the new map, and when it does neither. */
  lemma ResizeExactly(bits: seq<bool>, newDepth: nat, nrRequests: nat, shared: bool)
    ensures var outcome := ResizeOutcome(|bits|, newDepth, nrRequests, shared);
      && (newDepth <= |bits| ==> outcome == Resized)
      && (newDepth > |bits| && shared ==> outcome == Busy)
      && (newDepth > |bits| && !shared ==>
          outcome == if bits <= Kept(bits, false, Clamped(newDepth, nrRequests)) then Resized else Overrun)
  {
    var depth := Clamped(newDepth, nrRequests);
    assert |bits| <= depth ==> Kept(bits, false, depth)[..|bits|] == bits;
  }

  /** Growing the map: every old entry survives exactly if twice the request limit covers the old depth. */
  lemma EntriesSurviveExactly(bits: seq<bool>, index: seq<Option<nat>>, newDepth: nat, nrRequests: nat)
    requires newDepth > |bits| == |index|
    ensures var depth := Clamped(newDepth, nrRequests);
      bits <= Kept(bits, false, depth) && index <= Kept(index, None, depth) <==> 2 * nrRequests >= |bits|
  {
  }

  /** A request in flight keeps its entry in the new map exactly if its tag is below twice the request limit. */
  lemma ReleasableExactly(bits: seq<bool>, index: seq<Option<nat>>, tags: map<nat, nat>, busy: seq<nat>,
                          newDepth: nat, nrRequests: nat, r: nat)
    requires Agree(bits, index, tags, busy) && newDepth > |bits| && r in tags
    ensures var depth := Clamped(newDepth, nrRequests);
      Releasable(Kept(bits, false, depth), Kept(index, None, depth), tags[r], r) <==> tags[r] < 2 * nrRequests
  {
  }

  ghost predicate Releasable(bits: seq<bool>, index: seq<Option<nat>>, tag: nat, r: nat) {
    tag < |bits| == |index| && bits[tag] && index[tag] == Some(r)
  }

  /** With the smallest request limit, 4, growing a map of 64 tags to 65 loses every request with a tag from 8 on. */
  lemma CopyCanOverrun(tag: nat, r: nat)
    requires 8 <= tag < 64
    ensures var bits, index := seq(64, _ => false)[tag := true], seq(64, _ => None)[tag := Some(r)];
      && Agree(bits, index, map[r := tag], [r]) && ResizeOutcome(64, 65, 4, false) == Overrun
      && !Releasable(Kept(bits, false, Clamped(65, 4)), Kept(index, None, Clamped(65, 4)), tag, r)
  {
  }

  lemma AllFree(bits: seq<bool>, index: seq<Option<nat>>, tags: map<nat, nat>, busy: seq<nat>)
    requires Agree(bits, index, tags, busy) && busy == []
    ensures tags == map[] && forall t :: 0 <= t < |bits| ==> !bits[t]
  {
  }
}
