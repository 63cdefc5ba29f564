/**
 Physical segments: the count a request carries through merges, and the scatterlist that
 blk_rq_map_sg makes of it. A grouping cuts the request's memory vectors into runs that may each
 become one segment; the stored count always belongs to some valid grouping, and the scatterlist's
 greedy grouping is never longer than a valid one.
 */
module Segments {

  /** A bio_vec: physical address, length and page frame. */
  datatype Vec = Vec(addr: nat, len: nat, pfn: nat)

  /** A bio with data: its vectors, bi_seg_front_size, bi_seg_back_size, bi_phys_segments and BIO_SEG_VALID. */
  datatype Bio = Bio(vecs: seq<Vec>, front: nat, back: nat, segs: nat, segValid: bool, sectors: nat)

  /** The queue's limits; boundary is BIOVEC_SEG_BOUNDARY. */
  datatype Limits = Limits(
    cluster: bool, maxSize: nat, bouncePfn: nat, boundary: (Vec, Vec) -> bool,
    maxPhys: nat, maxHw: nat, maxSectors: nat)

  // ----- Groupings

  function Flatten<T>(g: seq<seq<T>>): seq<T> {
    if g == [] then [] else Flatten(g[..|g| - 1]) + g[|g| - 1]
  }

  function Size(x: seq<Vec>): nat {
    if x == [] then 0 else Size(x[..|x| - 1]) + x[|x| - 1].len
  }

  /** BIOVEC_PHYS_MERGEABLE and BIOVEC_SEG_BOUNDARY. */
  predicate Joins(l: Limits, v: Vec, w: Vec) {
    v.addr + v.len == w.addr && l.boundary(v, w)
  }

  /** The vectors of x may form one segment. */
  ghost predicate Run(l: Limits, x: seq<Vec>) {
    x != [] && (|x| > 1 ==>
      l.cluster && Size(x) <= l.maxSize && forall i :: 0 <= i < |x| - 1 ==> Joins(l, x[i], x[i + 1]))
  }

  ghost predicate Grouping(l: Limits, g: seq<seq<Vec>>, vecs: seq<Vec>) {
    Flatten(g) == vecs && forall i :: 0 <= i < |g| ==> Run(l, g[i])
  }

  lemma {:induction false} FlattenAppend<T>(g: seq<seq<T>>, x: seq<T>)
    ensures Flatten(g + [x]) == Flatten(g) + x
  {
  }

  lemma ConcatAssoc<T>(a: seq<T>, b: seq<T>, c: seq<T>)
    ensures a + (b + c) == a + b + c
  {
  }

  lemma {:induction false} FlattenConcat<T>(g: seq<seq<T>>, h: seq<seq<T>>)
    ensures Flatten(g + h) == Flatten(g) + Flatten(h)
  {
    if h == [] {
      assert g + h == g;
    } else {
      var n := |h| - 1;
      FlattenConcat(g, h[..n]);
      assert g + h == (g + h[..n]) + [h[n]];
      FlattenAppend(g + h[..n], h[n]);
      ConcatAssoc(Flatten(g), Flatten(h[..n]), h[n]);
    }
  }

  lemma {:induction false} SizeConcat(x: seq<Vec>, y: seq<Vec>)
    ensures Size(x + y) == Size(x) + Size(y)
  {
    if y == [] {
      assert x + y == x;
    } else {
      var n := |y| - 1;
      SizeConcat(x, y[..n]);
      assert (x + y)[..|x| + n] == x + y[..n];
    }
  }

  // ----- blk_rq_map_sg

  /**
   The entries blk_rq_map_sg starts for vecs, when prev is the vector before them and size the current entry's
   length.
   */
  function MapCount(l: Limits, prev: seq<Vec>, size: nat, vecs: seq<Vec>): nat
    requires |prev| <= 1
    decreases |vecs|
  {
    if vecs == [] then 0
    else
      var v := vecs[0];
      if prev != [] && l.cluster && size + v.len <= l.maxSize && Joins(l, prev[0], v)
      then MapCount(l, [v], size + v.len, vecs[1..])
      else 1 + MapCount(l, [v], v.len, vecs[1..])
  }

  lemma {:induction false} SizeSuffix(x: seq<Vec>, i: nat)
    requires i < |x|
    ensures Size(x[i..]) == x[i].len + Size(x[i + 1..]) <= Size(x)
  {
    assert x == x[..i] + x[i..];
    SizeConcat(x[..i], x[i..]);
    assert x[i..] == [x[i]] + x[i + 1..];
    SizeConcat([x[i]], x[i + 1..]);
    assert Size([x[i]]) == Size([]) + x[i].len;
  }

  /** Inside a run no new entry is started after the first. */
  lemma {:induction false} RestOfRunJoins(l: Limits, x: seq<Vec>, i: nat, size: nat, rest: seq<Vec>)
    returns (size': nat)
    requires Run(l, x) && 0 < i <= |x| && size + Size(x[i..]) <= Size(x)
    ensures MapCount(l, [x[i - 1]], size, x[i..] + rest) == MapCount(l, [x[|x| - 1]], size', rest)
    decreases |x| - i
  {
    if i == |x| {
      assert x[i..] + rest == rest;
      size' := size;
    } else {
      var v := x[i];
      SizeSuffix(x, i);
      assert (x[i..] + rest)[1..] == x[i + 1..] + rest;
      assert Joins(l, x[i - 1], x[i]);
      size' := RestOfRunJoins(l, x, i + 1, size + v.len, rest);
    }
  }

  /** From any state, a run adds at most one entry. */
  lemma {:induction false} RunAddsOne(l: Limits, prev: seq<Vec>, size: nat, x: seq<Vec>, i: nat, rest: seq<Vec>)
    returns (k: nat, size': nat)
    requires Run(l, x) && i <= |x| && |prev| <= 1 && (i == |x| ==> prev == [x[|x| - 1]])
    ensures k <= 1 && MapCount(l, prev, size, x[i..] + rest) == k + MapCount(l, [x[|x| - 1]], size', rest)
    decreases |x| - i
  {
    if i == |x| {
      assert x[i..] + rest == rest;
      k, size' := 0, size;
    } else {
      var v := x[i];
      assert (x[i..] + rest)[1..] == x[i + 1..] + rest;
      if prev != [] && l.cluster && size + v.len <= l.maxSize && Joins(l, prev[0], v) {
        k, size' := RunAddsOne(l, [v], size + v.len, x, i + 1, rest);
      } else {
        SizeSuffix(x, i);
        size' := RestOfRunJoins(l, x, i + 1, v.len, rest);
        k := 1;
      }
    }
  }

  lemma {:induction false} FlattenFirst<T>(g: seq<seq<T>>)
    requires g != []
    ensures Flatten(g) == g[0] + Flatten(g[1..])
  {
    FlattenConcat([g[0]], g[1..]);
    assert [g[0]] + g[1..] == g;
    assert Flatten([g[0]]) == Flatten([]) + g[0];
  }

  /** The greedy scatterlist is no longer than any valid grouping. */
  lemma {:induction false} GreedyIsMinimal(l: Limits, g: seq<seq<Vec>>, prev: seq<Vec>, size: nat)
    requires |prev| <= 1 && forall i :: 0 <= i < |g| ==> Run(l, g[i])
    ensures MapCount(l, prev, size, Flatten(g)) <= |g|
    decreases |g|
  {
    if g != [] {
      FlattenFirst(g);
      var x, rest := g[0], Flatten(g[1..]);
      assert x[0..] == x;
      var k, size' := RunAddsOne(l, prev, size, x, 0, rest);
      GreedyIsMinimal(l, g[1..], [x[|x| - 1]], size');
    }
  }

  /** The groups blk_rq_map_sg makes entries of: g so far, then those of vecs. */
  function MapFrom(l: Limits, g: seq<seq<Vec>>, vecs: seq<Vec>): seq<seq<Vec>>
    requires g != [] ==> Last(g) != []
    decreases |vecs|
  {
    if vecs == [] then g
    else
      var v := vecs[0];
      if g != [] && l.cluster && Size(Last(g)) + v.len <= l.maxSize && Joins(l, Last(Last(g)), v)
      then MapFrom(l, g[..|g| - 1] + [Last(g) + [v]], vecs[1..])
      else MapFrom(l, g + [[v]], vecs[1..])
  }

  lemma {:induction false} MapGroups(l: Limits, g: seq<seq<Vec>>, vecs: seq<Vec>)
    requires (g != [] ==> Last(g) != []) && forall i :: 0 <= i < |g| ==> Run(l, g[i])
    ensures Grouping(l, MapFrom(l, g, vecs), Flatten(g) + vecs)
    decreases |vecs|
  {
    if vecs == [] {
      assert Flatten(g) + vecs == Flatten(g);
    } else {
      var v := vecs[0];
      if g != [] && l.cluster && Size(Last(g)) + v.len <= l.maxSize && Joins(l, Last(Last(g)), v) {
        RegroupedLast(l, g, v);
        assert Flatten(g[..|g| - 1] + [Last(g) + [v]]) + vecs[1..] == Flatten(g) + vecs;
        MapGroups(l, g[..|g| - 1] + [Last(g) + [v]], vecs[1..]);
      } else {
        FlattenAppend(g, [v]);
        assert Flatten(g + [[v]]) + vecs[1..] == Flatten(g) + vecs;
        MapGroups(l, g + [[v]], vecs[1..]);
      }
    }
  }

  lemma {:induction false} MapCounts(l: Limits, g: seq<seq<Vec>>, vecs: seq<Vec>)
    requires g != [] ==> Last(g) != []
    ensures |MapFrom(l, g, vecs)| == |g| +
      if g == [] then MapCount(l, [], 0, vecs) else MapCount(l, [Last(Last(g))], Size(Last(g)), vecs)
    decreases |vecs|
  {
    if vecs != [] {
      var v := vecs[0];
      if g != [] && l.cluster && Size(Last(g)) + v.len <= l.maxSize && Joins(l, Last(Last(g)), v) {
        SizeConcat(Last(g), [v]);
        MapCounts(l, g[..|g| - 1] + [Last(g) + [v]], vecs[1..]);
      } else {
        MapCounts(l, g + [[v]], vecs[1..]);
      }
    }
  }

  // ----- The scatterlist

  /** A scatterlist entry: where it starts and its length. */
  datatype Entry = Entry(addr: nat, len: nat)

  /** The entry of a group; a group of no vectors has none. */
  function Entries(g: seq<seq<Vec>>): seq<Entry> {
    if g == [] then []
    else Entries(g[..|g| - 1]) + if Last(g) == [] then [] else [Entry(Last(g)[0].addr, Size(Last(g)))]
  }

  lemma EntriesAppend(g: seq<seq<Vec>>, x: seq<Vec>)
    requires x != []
    ensures Entries(g + [x]) == Entries(g) + [Entry(x[0].addr, Size(x))]
  {
    assert (g + [x])[..|g|] == g;
  }

  lemma EntriesLonger(g: seq<seq<Vec>>, v: Vec)
    requires g != [] && Last(g) != []
    ensures var sg := Entries(g);
      && sg != [] && Last(sg).len == Size(Last(g))
      && Entries(g[..|g| - 1] + [Last(g) + [v]]) == sg[..|sg| - 1] + [Last(sg).(len := Last(sg).len + v.len)]
  {
    EntriesAppend(g[..|g| - 1], Last(g));
    EntriesAppend(g[..|g| - 1], Last(g) + [v]);
    assert g[..|g| - 1] + [Last(g)] == g;
    SizeConcat(Last(g), [v]);
  }

  function Addresses(addr: nat, len: nat): seq<nat>
    decreases len
  {
    if len == 0 then [] else [addr] + Addresses(addr + 1, len - 1)
  }

  lemma {:induction false} AddressAt(addr: nat, len: nat, i: nat)
    requires i < len
    ensures |Addresses(addr, len)| == len && Addresses(addr, len)[i] == addr + i
    decreases len
  {
    if i > 0 {
      AddressAt(addr + 1, len - 1, i - 1);
    } else if len > 1 {
      AddressAt(addr + 1, len - 1, 0);
    }
  }

  /** The addresses of the vectors' bytes, in order. */
  function VecBytes(vecs: seq<Vec>): seq<nat> {
    if vecs == [] then [] else VecBytes(vecs[..|vecs| - 1]) + Addresses(Last(vecs).addr, Last(vecs).len)
  }

  /** The addresses the device transfers for a scatterlist, in order. */
  function SgBytes(sg: seq<Entry>): seq<nat> {
    if sg == [] then [] else SgBytes(sg[..|sg| - 1]) + Addresses(Last(sg).addr, Last(sg).len)
  }

  lemma {:induction false} AddressesJoin(addr: nat, m: nat, n: nat)
    ensures Addresses(addr, m + n) == Addresses(addr, m) + Addresses(addr + m, n)
    decreases m
  {
    if m > 0 {
      AddressesJoin(addr + 1, m - 1, n);
      ConcatAssoc([addr], Addresses(addr + 1, m - 1), Addresses(addr + m, n));
    }
  }

  lemma {:induction false} VecBytesConcat(x: seq<Vec>, y: seq<Vec>)
    ensures VecBytes(x + y) == VecBytes(x) + VecBytes(y)
  {
    if y == [] {
      assert x + y == x;
    } else {
      var n := |y| - 1;
      VecBytesConcat(x, y[..n]);
      assert (x + y)[..|x| + n] == x + y[..n];
      ConcatAssoc(VecBytes(x), VecBytes(y[..n]), Addresses(Last(y).addr, Last(y).len));
    }
  }

  /** The vectors lie one behind the other. */
  ghost predicate Contiguous(x: seq<Vec>) {
    forall i :: 0 <= i < |x| - 1 ==> x[i].addr + x[i].len == x[i + 1].addr
  }

  lemma {:induction false} ContiguousEnds(x: seq<Vec>)
    requires x != [] && Contiguous(x)
    ensures x[0].addr + Size(x) == Last(x).addr + Last(x).len
  {
    var n := |x| - 1;
    if n > 0 {
      ContiguousEnds(x[..n]);
      assert x[n - 1].addr + x[n - 1].len == x[n - 1 + 1].addr;
    }
  }

  /** Such vectors are one stretch of memory. */
  lemma {:induction false} ContiguousBytes(x: seq<Vec>)
    requires x != [] && Contiguous(x)
    ensures VecBytes(x) == Addresses(x[0].addr, Size(x))
  {
    var n := |x| - 1;
    var last := Addresses(x[n].addr, x[n].len);
    assert VecBytes(x) == VecBytes(x[..n]) + last && Size(x) == Size(x[..n]) + x[n].len;
    if n == 0 {
      assert VecBytes(x[..0]) + last == last;
    } else {
      ContiguousEnds(x);
      ContiguousBytes(x[..n]);
      AddressesJoin(x[0].addr, Size(x[..n]), x[n].len);
    }
  }

  lemma RunBytes(l: Limits, x: seq<Vec>)
    requires Run(l, x)
    ensures VecBytes(x) == Addresses(x[0].addr, Size(x))
  {
    forall i | 0 <= i < |x| - 1 ensures x[i].addr + x[i].len == x[i + 1].addr {
      assert Joins(l, x[i], x[i + 1]);
    }
    ContiguousBytes(x);
  }

  lemma EntryBytes(l: Limits, g: seq<seq<Vec>>, x: seq<Vec>)
    requires Run(l, x) && SgBytes(Entries(g)) == VecBytes(Flatten(g))
    ensures SgBytes(Entries(g + [x])) == VecBytes(Flatten(g + [x])) && |Entries(g + [x])| == |Entries(g)| + 1
  {
    EntriesAppend(g, x);
    FlattenAppend(g, x);
    RunBytes(l, x);
    VecBytesConcat(Flatten(g), x);
    SgBytesAppend(Entries(g), Entry(x[0].addr, Size(x)));
  }

  /** The entries of a grouping address the bytes of its data, in order. */
  lemma {:induction false} EntriesBytes(l: Limits, g: seq<seq<Vec>>)
    requires forall i :: 0 <= i < |g| ==> Run(l, g[i])
    ensures SgBytes(Entries(g)) == VecBytes(Flatten(g)) && |Entries(g)| == |g|
  {
    if g != [] {
      var n := |g| - 1;
      EntriesBytes(l, g[..n]);
      EntryBytes(l, g[..n], g[n]);
      assert g[..n] + [g[n]] == g;
    }
  }

  lemma SgBytesAppend(sg: seq<Entry>, e: Entry)
    ensures SgBytes(sg + [e]) == SgBytes(sg) + Addresses(e.addr, e.len)
  {
    assert (sg + [e])[..|sg|] == sg;
  }

  /** The scatterlist made of vecs: its entries are the groups of a valid grouping, and address its bytes in order. */
  ghost predicate Maps(l: Limits, sg: seq<Entry>, g: seq<seq<Vec>>, vecs: seq<Vec>) {
    Grouping(l, g, vecs) && sg == Entries(g) && |sg| == |g| && SgBytes(sg) == VecBytes(vecs)
  }

  lemma AllMapped(l: Limits, vecs: seq<Vec>)
    ensures var g := MapFrom(l, [], vecs); Maps(l, Entries(g), g, vecs) && |g| == MapCount(l, [], 0, vecs)
  {
    var g := MapFrom(l, [], vecs);
    MapGroups(l, [], vecs);
    assert Flatten([]) + vecs == vecs;
    EntriesBytes(l, g);
    MapCounts(l, [], vecs);
  }

  lemma Remaining<T>(s: seq<T>, i: nat)
    requires i < |s|
    ensures s[i..] != [] && s[i..][0] == s[i] && s[i..][1..] == s[i + 1..]
  {
  }

  /** The loop of blk_rq_map_sg. */
  method MapVecs(l: Limits, vecs: seq<Vec>) returns (nsegs: nat, sg: seq<Entry>, ghost g: seq<seq<Vec>>)
    ensures Maps(l, sg, g, vecs) && nsegs == |sg| == MapCount(l, [], 0, vecs)
  {
    nsegs, sg, g := 0, [], [];
    var i := 0;
    assert vecs[0..] == vecs;
    while i < |vecs|
      invariant i <= |vecs| && nsegs == |g| && sg == Entries(g) && (g != [] ==> Last(g) != [])
      invariant i > 0 ==> g != [] && Last(Last(g)) == vecs[i - 1]
      invariant i == 0 ==> g == []
      invariant MapFrom(l, [], vecs) == MapFrom(l, g, vecs[i..])
    {
      var bvec := vecs[i];
      Remaining(vecs, i);
      if i > 0 && l.cluster && sg[|sg| - 1].len + bvec.len <= l.maxSize && Joins(l, vecs[i - 1], bvec) {
        EntriesLonger(g, bvec);
        sg := sg[..|sg| - 1] + [sg[|sg| - 1].(len := sg[|sg| - 1].len + bvec.len)];
        g := g[..|g| - 1] + [Last(g) + [bvec]];
      } else {
        EntriesAppend(g, [bvec]);
        nsegs, sg, g := nsegs + 1, sg + [Entry(bvec.addr, bvec.len)], g + [[bvec]];
      }
      i := i + 1;
    }
    AllMapped(l, vecs);
  }


  // ----- __blk_recalc_rq_segments

  function Last<T>(s: seq<T>): T
    requires s != []
  {
    s[|s| - 1]
  }

  /** The groups the recount forms: g so far, and whether the last group starts with a page that may bounce. */
  function RecountFrom(l: Limits, g: seq<seq<Vec>>, highPrev: bool, vecs: seq<Vec>): seq<seq<Vec>>
    requires !highPrev ==> g != [] && Last(g) != []
    decreases |vecs|
  {
    if vecs == [] then g
    else
      var v := vecs[0];
      var high := v.pfn > l.bouncePfn;
      if !high && !highPrev && l.cluster && Size(Last(g)) + v.len <= l.maxSize && Joins(l, Last(Last(g)), v)
      then RecountFrom(l, g[..|g| - 1] + [Last(g) + [v]], highPrev, vecs[1..])
      else RecountFrom(l, g + [[v]], high, vecs[1..])
  }

  function Recount(l: Limits, vecs: seq<Vec>): seq<seq<Vec>> {
    RecountFrom(l, [], true, vecs)
  }

  lemma RegroupedLast(l: Limits, g: seq<seq<Vec>>, v: Vec)
    requires g != [] && (forall i :: 0 <= i < |g| ==> Run(l, g[i]))
    requires Last(g) != [] && l.cluster && Size(Last(g)) + v.len <= l.maxSize && Joins(l, Last(Last(g)), v)
    ensures var g' := g[..|g| - 1] + [Last(g) + [v]];
      Flatten(g') == Flatten(g) + [v] && forall i :: 0 <= i < |g'| ==> Run(l, g'[i])
  {
  }

  lemma {:induction false} RecountGroups(l: Limits, g: seq<seq<Vec>>, highPrev: bool, vecs: seq<Vec>)
    requires !highPrev ==> g != [] && Last(g) != []
    requires forall i :: 0 <= i < |g| ==> Run(l, g[i])
    ensures Grouping(l, RecountFrom(l, g, highPrev, vecs), Flatten(g) + vecs)
    ensures |RecountFrom(l, g, highPrev, vecs)| >= |g| + if g == [] && vecs != [] then 1 else 0
    decreases |vecs|
  {
    if vecs == [] {
      assert Flatten(g) + vecs == Flatten(g);
    } else {
      var v := vecs[0];
      var high := v.pfn > l.bouncePfn;
      if !high && !highPrev && l.cluster && Size(Last(g)) + v.len <= l.maxSize && Joins(l, Last(Last(g)), v) {
        RegroupedLast(l, g, v);
        assert Flatten(g[..|g| - 1] + [Last(g) + [v]]) + vecs[1..] == Flatten(g) + vecs;
        RecountGroups(l, g[..|g| - 1] + [Last(g) + [v]], highPrev, vecs[1..]);
      } else {
        FlattenAppend(g, [v]);
        assert Flatten(g + [[v]]) + vecs[1..] == Flatten(g) + vecs;
        RecountGroups(l, g + [[v]], high, vecs[1..]);
      }
    }
  }

  /** A recount is a valid grouping. */
  lemma RecountIsGrouping(l: Limits, vecs: seq<Vec>)
    ensures Grouping(l, Recount(l, vecs), vecs)
    ensures vecs != [] ==> Recount(l, vecs) != []
  {
    RecountGroups(l, [], true, vecs);
    assert Flatten([]) + vecs == vecs;
  }

  // ----- Which grouping a recount is

  predicate High(l: Limits, v: Vec) {
    v.pfn > l.bouncePfn
  }

  /** A run of two or more vectors has no page that may bounce. */
  ghost predicate LowRun(l: Limits, x: seq<Vec>) {
    |x| > 1 ==> forall i :: 0 <= i < |x| ==> !High(l, x[i])
  }

  /** The groups a recount may form. */
  ghost predicate Allowed(l: Limits, g: seq<seq<Vec>>) {
    forall i :: 0 <= i < |g| ==> Run(l, g[i]) && LowRun(l, g[i])
  }

  /** The limits under which pages that may bounce are not joined. */
  function LowLimits(l: Limits): Limits {
    l.(boundary := (v: Vec, w: Vec) => l.boundary(v, w) && !High(l, v) && !High(l, w))
  }

  lemma LowJoins(l: Limits, v: Vec, w: Vec)
    ensures Joins(LowLimits(l), v, w) <==> Joins(l, v, w) && !High(l, v) && !High(l, w)
  {
  }

  lemma LowRunExactly(l: Limits, x: seq<Vec>)
    ensures Run(LowLimits(l), x) <==> Run(l, x) && LowRun(l, x)
  {
    forall i | 0 <= i < |x| - 1
      ensures Joins(LowLimits(l), x[i], x[i + 1]) <==> Joins(l, x[i], x[i + 1]) && !High(l, x[i]) && !High(l, x[i + 1])
    {
      LowJoins(l, x[i], x[i + 1]);
    }
    if Run(LowLimits(l), x) && |x| > 1 {
      forall i | 0 <= i < |x| ensures !High(l, x[i]) {
        var k := if i == 0 then 0 else i - 1;
        assert Joins(LowLimits(l), x[k], x[k + 1]);
      }
    }
  }

  /** The scan's flag tells whether the last vector may bounce. */
  ghost predicate FlagOk(l: Limits, g: seq<seq<Vec>>, highPrev: bool) {
    if g == [] then highPrev else Last(g) != [] && (highPrev <==> High(l, Last(Last(g))))
  }

  /** A recount is the scatterlist's grouping under these limits. */
  lemma {:induction false} RecountIsMap(l: Limits, g: seq<seq<Vec>>, highPrev: bool, vecs: seq<Vec>)
    requires FlagOk(l, g, highPrev)
    ensures RecountFrom(l, g, highPrev, vecs) == MapFrom(LowLimits(l), g, vecs)
    decreases |vecs|
  {
    if vecs != [] {
      var v := vecs[0];
      if g != [] {
        LowJoins(l, Last(Last(g)), v);
      }
      if !High(l, v) && !highPrev && l.cluster && Size(Last(g)) + v.len <= l.maxSize && Joins(l, Last(Last(g)), v) {
        RecountIsMap(l, g[..|g| - 1] + [Last(g) + [v]], highPrev, vecs[1..]);
      } else {
        RecountIsMap(l, g + [[v]], High(l, v), vecs[1..]);
      }
    }
  }

  /** The recounted grouping is allowed, and no allowed one is shorter. */
  lemma RecountIsLeast(l: Limits, vecs: seq<Vec>, g: seq<seq<Vec>>)
    requires Allowed(l, g) && Flatten(g) == vecs
    ensures Flatten(Recount(l, vecs)) == vecs && Allowed(l, Recount(l, vecs)) && |Recount(l, vecs)| <= |g|
  {
    var low := LowLimits(l);
    RecountIsMap(l, [], true, vecs);
    MapGroups(low, [], vecs);
    assert Flatten([]) + vecs == vecs;
    MapCounts(low, [], vecs);
    forall i | 0 <= i < |Recount(l, vecs)| ensures Run(l, Recount(l, vecs)[i]) && LowRun(l, Recount(l, vecs)[i]) {
      LowRunExactly(l, Recount(l, vecs)[i]);
    }
    forall i | 0 <= i < |g| ensures Run(low, g[i]) {
      LowRunExactly(l, g[i]);
    }
    GreedyIsMinimal(low, g, [], 0);
  }

  lemma {:induction false} NoneHighSame(l: Limits, g: seq<seq<Vec>>, vecs: seq<Vec>)
    requires (g != [] ==> Last(g) != [] && !High(l, Last(Last(g)))) && forall i :: 0 <= i < |vecs| ==> !High(l, vecs[i])
    ensures MapFrom(LowLimits(l), g, vecs) == MapFrom(l, g, vecs)
    decreases |vecs|
  {
    if vecs != [] {
      var v := vecs[0];
      if g != [] {
        LowJoins(l, Last(Last(g)), v);
      }
      if g != [] && l.cluster && Size(Last(g)) + v.len <= l.maxSize && Joins(l, Last(Last(g)), v) {
        NoneHighSame(l, g[..|g| - 1] + [Last(g) + [v]], vecs[1..]);
      } else {
        NoneHighSame(l, g + [[v]], vecs[1..]);
      }
    }
  }

  /** Without pages that may bounce, a recount is the grouping of the scatterlist. */
  lemma RecountIsScatterlist(l: Limits, vecs: seq<Vec>)
    requires forall i :: 0 <= i < |vecs| ==> !High(l, vecs[i])
    ensures Recount(l, vecs) == MapFrom(l, [], vecs)
  {
    RecountIsMap(l, [], true, vecs);
    NoneHighSame(l, [], vecs);
  }

  // ----- Which grouping the scatterlist is

  /** No group can be continued by the first vector of the next. */
  ghost predicate Maximal(l: Limits, g: seq<seq<Vec>>) {
    forall i, j :: 0 <= i < j < |g| && j == i + 1 && g[j] != [] ==> !Run(l, g[i] + [g[j][0]])
  }

  lemma ContinuesExactly(l: Limits, x: seq<Vec>, v: Vec)
    requires Run(l, x)
    ensures Run(l, x + [v]) <==> l.cluster && Size(x) + v.len <= l.maxSize && Joins(l, Last(x), v)
  {
    var y := x + [v];
    assert y[..|x|] == x && y[|x|] == v;
    if Run(l, y) {
      assert Joins(l, y[|x| - 1], y[|x| - 1 + 1]);
    }
  }

  lemma RunBegins(l: Limits, x: seq<Vec>, y: seq<Vec>)
    requires x != [] && Run(l, x + y)
    ensures Run(l, x)
  {
    SizeConcat(x, y);
    forall i | 0 <= i < |x| - 1 ensures Joins(l, x[i], x[i + 1]) {
      assert Joins(l, (x + y)[i], (x + y)[i + 1]);
    }
  }

  lemma ScanJoins(l: Limits, a: seq<seq<Vec>>, x: seq<Vec>, v: Vec, rest: seq<Vec>)
    requires Run(l, x) && Run(l, x + [v])
    ensures MapFrom(l, a + [x], [v] + rest) == MapFrom(l, a + [x + [v]], rest)
  {
    ContinuesExactly(l, x, v);
    assert ([v] + rest)[1..] == rest;
    assert (a + [x])[..|a|] + [x + [v]] == a + [x + [v]];
  }

  lemma ScanStarts(l: Limits, a: seq<seq<Vec>>, x: seq<Vec>, v: Vec, rest: seq<Vec>)
    requires Run(l, x) && !Run(l, x + [v])
    ensures MapFrom(l, a + [x], [v] + rest) == MapFrom(l, a + [x] + [[v]], rest)
  {
    ContinuesExactly(l, x, v);
    assert ([v] + rest)[1..] == rest;
  }

  /** The scan goes through the rest of a group. */
  lemma {:induction false} ScanGroup(l: Limits, a: seq<seq<Vec>>, x: seq<Vec>, y: seq<Vec>, rest: seq<Vec>)
    requires x != [] && Run(l, x + y)
    ensures MapFrom(l, a + [x], y + rest) == MapFrom(l, a + [x + y], rest)
    decreases |y|
  {
    if y == [] {
      assert y + rest == rest && x + y == x;
    } else {
      var v := y[0];
      assert (x + [v]) + y[1..] == x + y && y + rest == [v] + (y[1..] + rest);
      RunBegins(l, x, y);
      RunBegins(l, x + [v], y[1..]);
      ScanJoins(l, a, x, v, y[1..] + rest);
      ScanGroup(l, a, x + [v], y[1..], rest);
    }
  }

  /** Then into the next group. */
  lemma ScanNext(l: Limits, a: seq<seq<Vec>>, x: seq<Vec>, w: seq<Vec>, rest: seq<Vec>)
    requires Run(l, x) && Run(l, w) && !Run(l, x + [w[0]])
    ensures MapFrom(l, a + [x], w + rest) == MapFrom(l, a + [x] + [w], rest)
  {
    var v, y := w[0], w[1..];
    assert w == [v] + y && w + rest == [v] + (y + rest);
    ScanStarts(l, a, x, v, y + rest);
    ScanGroup(l, a + [x], [v], y, rest);
  }

  lemma {:induction false} ScanGroups(l: Limits, a: seq<seq<Vec>>, x: seq<Vec>, b: seq<seq<Vec>>)
    requires Run(l, x) && (forall i :: 0 <= i < |b| ==> Run(l, b[i])) && Maximal(l, [x] + b)
    ensures MapFrom(l, a + [x], Flatten(b)) == a + [x] + b
    decreases |b|
  {
    if b == [] {
      assert a + [x] + b == a + [x];
    } else {
      FlattenFirst(b);
      FirstApart(l, x, b);
      ScanNext(l, a, x, b[0], Flatten(b[1..]));
      TailMaximal(l, [x], b);
      assert [b[0]] + b[1..] == b;
      ScanGroups(l, a + [x], b[0], b[1..]);
      assert a + [x] + [b[0]] + b[1..] == a + [x] + b;
    }
  }

  lemma FirstApart(l: Limits, x: seq<Vec>, b: seq<seq<Vec>>)
    requires Maximal(l, [x] + b) && b != [] && b[0] != []
    ensures !Run(l, x + [b[0][0]])
  {
    assert ([x] + b)[0] == x && ([x] + b)[1] == b[0];
  }

  lemma TailMaximal(l: Limits, a: seq<seq<Vec>>, b: seq<seq<Vec>>)
    requires Maximal(l, a + b)
    ensures Maximal(l, b)
  {
    forall i, j | 0 <= i < j < |b| && j == i + 1 && b[j] != [] ensures !Run(l, b[i] + [b[j][0]]) {
      assert (a + b)[|a| + i] == b[i] && (a + b)[|a| + j] == b[j];
    }
  }

  /** The scatterlist's grouping is the only valid one in which no group can be continued. */
  lemma MaximalIsMapped(l: Limits, g: seq<seq<Vec>>)
    requires (forall i :: 0 <= i < |g| ==> Run(l, g[i])) && Maximal(l, g)
    ensures MapFrom(l, [], Flatten(g)) == g
  {
    if g != [] {
      var v, y, rest := g[0][0], g[0][1..], Flatten(g[1..]);
      FlattenFirst(g);
      assert g[0] == [v] + y && Flatten(g) == [v] + (y + rest) && [g[0]] + g[1..] == g;
      assert Flatten(g)[1..] == y + rest && [] + [[v]] == [[v]] && [] + [g[0]] == [g[0]];
      ScanGroup(l, [], [v], y, rest);
      ScanGroups(l, [], g[0], g[1..]);
      assert [] + [g[0]] + g[1..] == g;
    }
  }

  lemma {:induction false} MappedIsMaximal(l: Limits, g: seq<seq<Vec>>, vecs: seq<Vec>)
    requires (forall i :: 0 <= i < |g| ==> Run(l, g[i])) && Maximal(l, g) && (g != [] ==> Last(g) != [])
    ensures Maximal(l, MapFrom(l, g, vecs))
    decreases |vecs|
  {
    if vecs != [] {
      var v := vecs[0];
      if g != [] {
        ContinuesExactly(l, Last(g), v);
      }
      if g != [] && l.cluster && Size(Last(g)) + v.len <= l.maxSize && Joins(l, Last(Last(g)), v) {
        MappedIsMaximal(l, g[..|g| - 1] + [Last(g) + [v]], vecs[1..]);
      } else {
        MappedIsMaximal(l, g + [[v]], vecs[1..]);
      }
    }
  }

  function Vecs(bios: seq<Bio>): seq<Vec> {
    if bios == [] then [] else bios[0].vecs + Vecs(bios[1..])
  }

  lemma {:induction false} VecsConcat(a: seq<Bio>, b: seq<Bio>)
    ensures Vecs(a + b) == Vecs(a) + Vecs(b)
  {
    if a == [] {
      assert a + b == b;
    } else {
      VecsConcat(a[1..], b);
      assert (a + b)[0] == a[0] && (a + b)[1..] == a[1..] + b;
      ConcatAssoc(a[0].vecs, Vecs(a[1..]), Vecs(b));
    }
  }

  lemma SingleVecs(bio: Bio)
    ensures Vecs([bio]) == bio.vecs
  {
  }

  lemma {:induction false} VecsSame(a: seq<Bio>, b: seq<Bio>)
    requires |a| == |b| && forall i :: 0 <= i < |a| ==> a[i].vecs == b[i].vecs
    ensures Vecs(a) == Vecs(b)
  {
    if a != [] {
      VecsSame(a[1..], b[1..]);
    }
  }

  function Max(a: nat, b: nat): nat {
    if a > b then a else b
  }

  /** The locals of __blk_recalc_rq_segments; front is fbio's bi_seg_front_size. */
  datatype Scan = Scan(n: nat, segSize: nat, highPrev: bool, prev: Vec, front: nat)

  /** The locals describe the groups formed so far. */
  ghost predicate ScanOk(s: Scan, g: seq<seq<Vec>>, front: nat) {
    && s.n == |g| && (!s.highPrev ==> g != []) && (g == [] ==> s.segSize == 0)
    && (g != [] ==> Last(g) != [] && s.segSize == Size(Last(g)) && s.prev == Last(Last(g)))
    && s.front == if |g| > 1 then Max(front, Size(g[0])) else front
  }

  /** The body of the loop, for one vector. */
  method RecalcVec(l: Limits, bv: Vec, s: Scan, ghost g: seq<seq<Vec>>, ghost front: nat, ghost rest: seq<Vec>)
    returns (s': Scan, ghost g': seq<seq<Vec>>)
    requires ScanOk(s, g, front)
    ensures ScanOk(s', g', front) && g' != []
    ensures RecountFrom(l, g, s.highPrev, [bv] + rest) == RecountFrom(l, g', s'.highPrev, rest)
  {
    var high := bv.pfn > l.bouncePfn;
    assert ([bv] + rest)[1..] == rest;
    if !high && !s.highPrev && l.cluster && s.segSize + bv.len <= l.maxSize && Joins(l, s.prev, bv) {
      s' := s.(segSize := s.segSize + bv.len, prev := bv);
      g' := g[..|g| - 1] + [Last(g) + [bv]];
      assert (Last(g) + [bv])[..|Last(g)|] == Last(g);
    } else {
      s' := Scan(s.n + 1, bv.len, high, bv, if s.n == 1 && s.segSize > s.front then s.segSize else s.front);
      g' := g + [[bv]];
      assert Size([bv]) == Size([]) + bv.len;
    }
  }

  method RecalcBio(l: Limits, vecs: seq<Vec>, s: Scan, ghost g: seq<seq<Vec>>, ghost front: nat, ghost later: seq<Vec>)
    returns (s': Scan, ghost g': seq<seq<Vec>>)
    requires ScanOk(s, g, front)
    ensures ScanOk(s', g', front)
    ensures RecountFrom(l, g, s.highPrev, vecs + later) == RecountFrom(l, g', s'.highPrev, later)
  {
    s', g' := s, g;
    var i := 0;
    assert vecs[0..] + later == vecs + later;
    while i < |vecs|
      invariant i <= |vecs| && ScanOk(s', g', front)
      invariant RecountFrom(l, g, s.highPrev, vecs + later) == RecountFrom(l, g', s'.highPrev, vecs[i..] + later)
    {
      assert vecs[i..] + later == [vecs[i]] + (vecs[i + 1..] + later);
      s', g' := RecalcVec(l, vecs[i], s', g', front, vecs[i + 1..] + later);
      i := i + 1;
    }
    assert vecs[i..] + later == later;
  }

  /** __blk_recalc_rq_segments over a chain of bios; the first and the last bio learn their sizes. */
  method Recalc(l: Limits, bios: seq<Bio>) returns (n: nat, front: nat, back: nat)
    ensures var g := Recount(l, Vecs(bios)); n == |g| && (Vecs(bios) != [] ==> g != [])
    ensures bios != [] ==> var g := Recount(l, Vecs(bios));
      && front == Max(bios[0].front, if g == [] then 0 else Size(g[0]))
      && back == Max(Last(bios).back, if g == [] then 0 else Size(Last(g)))
  {
    RecountIsGrouping(l, Vecs(bios));
    if bios == [] {
      return 0, 0, 0;
    }
    var s := Scan(0, 0, true, Vec(0, 0, 0), bios[0].front);
    ghost var g: seq<seq<Vec>> := [];
    var b := 0;
    assert bios[0..] == bios;
    while b < |bios|
      invariant b <= |bios| && ScanOk(s, g, bios[0].front)
      invariant Recount(l, Vecs(bios)) == RecountFrom(l, g, s.highPrev, Vecs(bios[b..]))
    {
      assert bios[b..][0] == bios[b] && bios[b..][1..] == bios[b + 1..];
      s, g := RecalcBio(l, bios[b].vecs, s, g, bios[0].front, Vecs(bios[b + 1..]));
      b := b + 1;
    }
    assert g == Recount(l, Vecs(bios));
    n := s.n;
    front := if n == 1 && s.segSize > s.front then s.segSize else s.front;
    back := if s.segSize > Last(bios).back then s.segSize else Last(bios).back;
  }

  // ----- Bios and requests

  /** The stored count and sizes of a bio agree with its recount. */
  ghost predicate Counted(l: Limits, bio: Bio) {
    var g := Recount(l, bio.vecs);
    g != [] && bio.segs == |g| && Size(g[0]) <= bio.front && Size(Last(g)) <= bio.back
  }

  ghost predicate BioOk(l: Limits, bio: Bio) {
    bio.vecs != [] && (bio.segValid ==> Counted(l, bio))
  }

  /** bio_phys_segments and the guard around blk_recount_segments. */
  method CountBio(l: Limits, bio: Bio) returns (bio': Bio)
    requires bio.vecs != []
    ensures bio' == bio.(front := bio'.front, back := bio'.back, segs := bio'.segs, segValid := true)
    ensures bio'.front >= bio.front && bio'.back >= bio.back && (BioOk(l, bio) ==> Counted(l, bio'))
  {
    bio' := bio;
    if !bio.segValid {
      SingleVecs(bio);
      var n, front, back := Recalc(l, [bio]);
      bio' := bio.(segs := n, front := front, back := back, segValid := true);
    }
  }

  /** The count n belongs to the valid grouping g of the bios, whose end runs are no longer than the stored sizes. */
  ghost predicate Described(l: Limits, bios: seq<Bio>, n: nat, g: seq<seq<Vec>>) {
    && bios != [] && (forall i :: 0 <= i < |bios| ==> bios[i].vecs != [])
    && g != [] && n == |g| && Grouping(l, g, Vecs(bios))
    && Size(g[0]) <= bios[0].front && Size(Last(g)) <= Last(bios).back
  }

  lemma GroupingConcat(l: Limits, g: seq<seq<Vec>>, u: seq<Vec>, h: seq<seq<Vec>>, v: seq<Vec>)
    requires Grouping(l, g, u) && Grouping(l, h, v)
    ensures Grouping(l, g + h, u + v)
  {
    FlattenConcat(g, h);
  }

  lemma DescribedConcat(l: Limits, a: seq<Bio>, n: nat, g: seq<seq<Vec>>, b: seq<Bio>, m: nat, h: seq<seq<Vec>>)
    requires Described(l, a, n, g) && Described(l, b, m, h)
    ensures Described(l, a + b, n + m, g + h)
  {
    GroupingConcat(l, g, Vecs(a), h, Vecs(b));
    VecsConcat(a, b);
    assert (a + b)[0] == a[0] && Last(a + b) == Last(b) && (g + h)[0] == g[0] && Last(g + h) == Last(h);
  }

  lemma DescribedBio(l: Limits, bio: Bio)
    requires bio.vecs != [] && Counted(l, bio)
    ensures Described(l, [bio], bio.segs, Recount(l, bio.vecs))
  {
    RecountIsGrouping(l, bio.vecs);
    SingleVecs(bio);
  }

  /** Larger sizes describe as well. */
  lemma {:induction false} DescribedGrows(l: Limits, a: seq<Bio>, n: nat, g: seq<seq<Vec>>, a': seq<Bio>)
    requires Described(l, a, n, g) && |a'| == |a| && forall i :: 0 <= i < |a| ==> a'[i].vecs == a[i].vecs
    requires Size(g[0]) <= a'[0].front && Size(Last(g)) <= Last(a').back
    ensures Described(l, a', n, g) && Vecs(a') == Vecs(a)
  {
    VecsSame(a, a');
  }

  /** The sizes after two requests are found contiguous. */
  function ShareFront(a: seq<Bio>, n: nat, segSize: nat): (r: seq<Bio>)
    requires a != []
    ensures |r| == |a| && forall i :: 0 <= i < |a| ==> r[i].vecs == a[i].vecs
  {
    if n == 1 then a[0 := a[0].(front := segSize)] else a
  }

  function ShareBack(b: seq<Bio>, m: nat, segSize: nat): (r: seq<Bio>)
    requires b != []
    ensures |r| == |b| && forall i :: 0 <= i < |b| ==> r[i].vecs == b[i].vecs
  {
    var z := |b| - 1;
    if m == 1 then b[z := b[z].(back := segSize)] else b
  }

  /** The ends of two glued groupings are covered by the shared sizes. */
  lemma GluedEnds(g: seq<seq<Vec>>, h: seq<seq<Vec>>, a: seq<Bio>, b: seq<Bio>, size: nat)
    requires g != [] && h != [] && a != [] && b != [] && Size(Last(g) + h[0]) <= size
    requires Size(g[0]) <= a[0].front && Size(Last(h)) <= Last(b).back
    ensures Size(Glued(g, h)[0]) <= ShareFront(a, |g|, size)[0].front
    ensures Size(Last(Glued(g, h))) <= Last(ShareBack(b, |h|, size)).back
  {
  }

  /** Two contiguous requests, with the joint size shared, are described with one segment less. */
  lemma DescribedGlued(l: Limits, a: seq<Bio>, n: nat, g: seq<seq<Vec>>, b: seq<Bio>, m: nat, h: seq<seq<Vec>>)
    requires Described(l, a, n, g) && Described(l, b, m, h) && ContigSegment(l, Last(a), b[0])
    ensures var size := Last(a).back + b[0].front;
      Described(l, ShareFront(a, n, size) + ShareBack(b, m, size), n + m - 1, Glued(g, h))
  {
    var size := Last(a).back + b[0].front;
    var a', b' := ShareFront(a, n, size), ShareBack(b, m, size);
    JoinAtEnds(l, a, g, b, h);
    GluedEnds(g, h, a, b, size);
    ConcatVecs(a, a', b, b');
    DescribedFrom(l, a' + b', n + m - 1, Glued(g, h), Vecs(a) + Vecs(b));
  }

  lemma {:induction false} ConcatVecs(a: seq<Bio>, a': seq<Bio>, b: seq<Bio>, b': seq<Bio>)
    requires |a'| == |a| > 0 && |b'| == |b| > 0
    requires (forall i :: 0 <= i < |a| ==> a'[i].vecs == a[i].vecs != [])
    requires (forall i :: 0 <= i < |b| ==> b'[i].vecs == b[i].vecs != [])
    ensures Vecs(a' + b') == Vecs(a) + Vecs(b) && (a' + b')[0] == a'[0] && Last(a' + b') == Last(b')
    ensures forall i :: 0 <= i < |a' + b'| ==> (a' + b')[i].vecs != []
  {
    VecsConcat(a', b');
    VecsSame(a, a');
    VecsSame(b, b');
  }

  lemma {:induction false} DescribedFrom(l: Limits, bios: seq<Bio>, n: nat, g: seq<seq<Vec>>, vecs: seq<Vec>)
    requires bios != [] && (forall i :: 0 <= i < |bios| ==> bios[i].vecs != []) && Vecs(bios) == vecs
    requires g != [] && n == |g| && Grouping(l, g, vecs)
    requires Size(g[0]) <= bios[0].front && Size(Last(g)) <= Last(bios).back
    ensures Described(l, bios, n, g)
  {
  }

  /** The bios a' hold the data of a and are described by the same grouping. */
  ghost predicate SameData(l: Limits, a: seq<Bio>, n: nat, g: seq<seq<Vec>>, a': seq<Bio>) {
    Described(l, a', n, g) && Vecs(a') == Vecs(a)
  }

  lemma DescribedShareFront(l: Limits, a: seq<Bio>, n: nat, g: seq<seq<Vec>>, size: nat)
    requires Described(l, a, n, g) && size >= Last(a).back
    ensures SameData(l, a, n, g, ShareFront(a, n, size))
  {
  }

  lemma DescribedShareBack(l: Limits, b: seq<Bio>, m: nat, h: seq<seq<Vec>>, size: nat)
    requires Described(l, b, m, h) && size >= b[0].front
    ensures SameData(l, b, m, h, ShareBack(b, m, size))
  {
    DescribedGrows(l, b, m, h, ShareBack(b, m, size));
  }

  /** The segments of two requests together: one less when they touch. */
  /**
   Where the sizes at the ends are those of the runs there, the test is exact: the two runs may be one segment if and
   only if it says so.
   */
  lemma ContigExactly(l: Limits, a: Bio, x: seq<Vec>, b: Bio, y: seq<Vec>)
    requires a.vecs != [] && b.vecs != [] && Run(l, x) && Run(l, y) && Last(x) == Last(a.vecs) && y[0] == b.vecs[0]
    requires a.back == Size(x) && b.front == Size(y)
    ensures ContigSegment(l, a, b) <==> Run(l, x + y)
  {
    SizeConcat(x, y);
    var z := x + y;
    assert z[|x| - 1] == Last(x) && z[|x|] == y[0];
    if Run(l, z) {
      assert Joins(l, z[|x| - 1], z[|x| - 1 + 1]);
    }
  }

  ghost function JoinedCount(l: Limits, a: seq<Bio>, n: nat, b: seq<Bio>, m: nat): int
    requires a != [] && b != [] && Last(a).vecs != [] && b[0].vecs != []
  {
    n + m - if ContigSegment(l, Last(a), b[0]) then 1 else 0
  }

  /**
   With the sizes at the ends those of the runs there, the joined count is that of the runs: one less exactly if the
   last run of the first request and the first of the second may be one.
   */
  lemma JoinedCountExactly(l: Limits, a: seq<Bio>, n: nat, g: seq<seq<Vec>>, b: seq<Bio>, m: nat, h: seq<seq<Vec>>)
    requires Described(l, a, n, g) && Described(l, b, m, h)
    requires Last(a).back == Size(Last(g)) && b[0].front == Size(h[0])
    requires Last(Last(g)) == Last(Last(a).vecs) && h[0][0] == b[0].vecs[0]
    ensures JoinedCount(l, a, n, b, m) == if Run(l, Last(g) + h[0]) then |Glued(g, h)| else |g + h|
  {
    ContigExactly(l, Last(a), Last(g), b[0], h[0]);
  }

  lemma TouchingShared(l: Limits, a: seq<Bio>, n: nat, g: seq<seq<Vec>>, b: seq<Bio>, m: nat, h: seq<seq<Vec>>)
    requires Described(l, a, n, g) && Described(l, b, m, h)
    ensures var size := Last(a).back + b[0].front;
      SameData(l, a, n, g, ShareFront(a, n, size)) && SameData(l, b, m, h, ShareBack(b, m, size))
  {
    DescribedShareFront(l, a, n, g, Last(a).back + b[0].front);
    DescribedShareBack(l, b, m, h, Last(a).back + b[0].front);
  }

  lemma ApartJoined(l: Limits, a: seq<Bio>, n: nat, g: seq<seq<Vec>>, b: seq<Bio>, m: nat, h: seq<seq<Vec>>)
    requires Described(l, a, n, g) && Described(l, b, m, h)
    ensures SameData(l, a, n, g, a) && SameData(l, b, m, h, b) && Described(l, a + b, n + m, g + h)
  {
    DescribedConcat(l, a, n, g, b, m, h);
  }

  /** The segment count of two requests together; when they touch, the joint size is noted at their far ends. */
  method JoinSegments(l: Limits, a: seq<Bio>, n: nat, ghost g: seq<seq<Vec>>, b: seq<Bio>, m: nat,
                      ghost h: seq<seq<Vec>>)
    returns (total: nat, a': seq<Bio>, b': seq<Bio>, ghost joined: seq<seq<Vec>>)
    requires Described(l, a, n, g) && Described(l, b, m, h)
    ensures SameData(l, a, n, g, a') && SameData(l, b, m, h, b') && Described(l, a' + b', total, joined)
    ensures total == JoinedCount(l, a, n, b, m)
  {
    total, a', b' := n + m, a, b;
    if ContigSegment(l, Last(a), b[0]) {
      var segSize := Last(a).back + b[0].front;
      TouchingShared(l, a, n, g, b, m, h);
      DescribedGlued(l, a, n, g, b, m, h);
      total, a', b', joined := n + m - 1, ShareFront(a, n, segSize), ShareBack(b, m, segSize), Glued(g, h);
    } else {
      ApartJoined(l, a, n, g, b, m, h);
      joined := g + h;
    }
  }

  lemma DescribedIsLonger(l: Limits, bios: seq<Bio>, n: nat, g: seq<seq<Vec>>)
    requires Described(l, bios, n, g)
    ensures MapCount(l, [], 0, Vecs(bios)) <= n
  {
    GreedyIsMinimal(l, g, [], 0);
  }

  class Request {
    var bios: seq<Bio>
    var nrPhys: nat
    var nrSectors: nat
    var noMerge: bool
    var special: bool
    ghost var groups: seq<seq<Vec>>

    ghost predicate Valid(l: Limits)
      reads this
    {
      Described(l, bios, nrPhys, groups)
    }

    /** blk_rq_bio_prep. */
    constructor FromBio(l: Limits, bio: Bio)
      requires BioOk(l, bio)
      ensures Valid(l) && Vecs(bios) == bio.vecs
    {
      var b := CountBio(l, bio);
      bios, nrPhys, nrSectors, noMerge, special := [b], b.segs, b.sectors, false, false;
      groups := Recount(l, b.vecs);
      DescribedBio(l, b);
      SingleVecs(b);
    }

    /**
     blk_rq_map_sg up to the padding and the drain buffer: the entries address the request's bytes in order, each is
     a segment the limits allow, and there are never more of them than nrPhys.
     */
    method MapSg(l: Limits) returns (nsegs: nat, sg: seq<Entry>, ghost g: seq<seq<Vec>>)
      requires Valid(l)
      ensures Maps(l, sg, g, Vecs(bios)) && nsegs == |sg|
      ensures nsegs == MapCount(l, [], 0, Vecs(bios)) && nsegs <= nrPhys
    {
      nsegs, sg, g := MapVecs(l, Vecs(bios));
      DescribedIsLonger(l, bios, nrPhys, groups);
    }

    /** ll_new_hw_segment. */
    method NewHwSegment(l: Limits, segs: nat) returns (ok: bool)
      modifies this`nrPhys, this`noMerge
      ensures ok == (old(nrPhys) + segs <= l.maxHw && old(nrPhys) + segs <= l.maxPhys)
      ensures nrPhys == (if ok then old(nrPhys) + segs else old(nrPhys)) && noMerge == (old(noMerge) || !ok)
    {
      ok := nrPhys + segs <= l.maxHw && nrPhys + segs <= l.maxPhys;
      if ok {
        nrPhys := nrPhys + segs;
      } else {
        noMerge := true;
      }
    }

    /** The back-merge arm of __make_request with ll_back_merge_fn. */
    method BackMerge(l: Limits, bio: Bio) returns (ok: bool)
      requires Valid(l) && BioOk(l, bio)
      modifies this
      ensures Valid(l)
      ensures Vecs(bios) == (if ok then old(Vecs(bios)) + bio.vecs else old(Vecs(bios)))
      ensures nrSectors == (if ok then old(nrSectors) + bio.sectors else old(nrSectors))
      ensures (!ok ==> nrPhys == old(nrPhys) && noMerge)
      ensures var n := old(nrPhys) + |Recount(l, bio.vecs)|;
        && ok == (n <= l.maxPhys && n <= l.maxHw && old(nrSectors) + bio.sectors <= l.maxSectors)
        && (ok ==> nrPhys == n)
    {
      if nrSectors + bio.sectors > l.maxSectors {
        noMerge := true;
        return false;
      }
      var z := |bios| - 1;
      var tail := CountBio(l, bios[z]);
      var b := CountBio(l, bio);
      DescribedGrows(l, bios, nrPhys, groups, bios[z := tail]);
      bios := bios[z := tail];
      ok := NewHwSegment(l, b.segs);
      if ok {
        DescribedBio(l, b);
        DescribedConcat(l, bios, old(nrPhys), groups, [b], b.segs, Recount(l, b.vecs));
        VecsConcat(bios, [b]);
        SingleVecs(b);
        bios, nrSectors, groups := bios + [b], nrSectors + b.sectors, groups + Recount(l, b.vecs);
      }
    }

    /** The front-merge arm of __make_request with ll_front_merge_fn. */
    method FrontMerge(l: Limits, bio: Bio) returns (ok: bool)
      requires Valid(l) && BioOk(l, bio)
      modifies this
      ensures Valid(l)
      ensures Vecs(bios) == (if ok then bio.vecs + old(Vecs(bios)) else old(Vecs(bios)))
      ensures nrSectors == (if ok then old(nrSectors) + bio.sectors else old(nrSectors))
      ensures (!ok ==> nrPhys == old(nrPhys) && noMerge)
      ensures var n := old(nrPhys) + |Recount(l, bio.vecs)|;
        && ok == (n <= l.maxPhys && n <= l.maxHw && old(nrSectors) + bio.sectors <= l.maxSectors)
        && (ok ==> nrPhys == n)
    {
      if nrSectors + bio.sectors > l.maxSectors {
        noMerge := true;
        return false;
      }
      var b := CountBio(l, bio);
      var head := CountBio(l, bios[0]);
      DescribedGrows(l, bios, nrPhys, groups, bios[0 := head]);
      bios := bios[0 := head];
      ok := NewHwSegment(l, b.segs);
      if ok {
        DescribedBio(l, b);
        DescribedConcat(l, [b], b.segs, Recount(l, b.vecs), bios, old(nrPhys), groups);
        VecsConcat([b], bios);
        SingleVecs(b);
        bios, nrSectors, groups := [b] + bios, nrSectors + b.sectors, Recount(l, b.vecs) + groups;
      }
    }

    /** The part of ll_merge_requests_fn that counts the segments of both requests. */
    method CountJoined(l: Limits, next: Request) returns (total: nat, ghost joined: seq<seq<Vec>>)
      requires Valid(l) && next.Valid(l) && this != next
      modifies this`bios, next`bios
      ensures Valid(l) && next.Valid(l) && Vecs(bios) == old(Vecs(bios)) && Vecs(next.bios) == old(Vecs(next.bios))
      ensures Described(l, bios + next.bios, total, joined)
      ensures total == old(JoinedCount(l, bios, nrPhys, next.bios, next.nrPhys))
    {
      var a, b;
      total, a, b, joined := JoinSegments(l, bios, nrPhys, groups, next.bios, next.nrPhys, next.groups);
      bios, next.bios := a, b;
    }

    /** ll_merge_requests_fn and the bio hand-over of attempt_merge. */
    method MergeRequest(l: Limits, next: Request) returns (ok: bool)
      requires Valid(l) && next.Valid(l) && this != next
      modifies this, next
      ensures Valid(l)
      ensures ok ==> Vecs(bios) == old(Vecs(bios)) + old(Vecs(next.bios)) && next.bios == []
      ensures ok ==> nrSectors == old(nrSectors) + old(next.nrSectors)
      ensures var n := old(JoinedCount(l, bios, nrPhys, next.bios, next.nrPhys));
        && ok == (n <= l.maxPhys && n <= l.maxHw
          && old(!special && !next.special && nrSectors + next.nrSectors <= l.maxSectors))
        && (ok ==> nrPhys == n)
      ensures !ok ==> next.Valid(l) && Vecs(bios) == old(Vecs(bios)) && nrPhys == old(nrPhys)
      ensures !ok ==> Vecs(next.bios) == old(Vecs(next.bios))
    {
      if special || next.special || nrSectors + next.nrSectors > l.maxSectors {
        return false;
      }
      var total, joined := CountJoined(l, next);
      if total > l.maxPhys || total > l.maxHw {
        return false;
      }
      VecsConcat(bios, next.bios);
      nrPhys, nrSectors, bios, groups := total, nrSectors + next.nrSectors, bios + next.bios, joined;
      next.bios := [];
      ok := true;
    }

    /** blk_recalc_rq_segments, after completion has changed the bios; a request without data has no segments. */
    method RecalcSegments(l: Limits)
      modifies this`bios, this`nrPhys, this`groups
      ensures Vecs(bios) == old(Vecs(bios)) && nrPhys == |Recount(l, Vecs(bios))| && (Vecs(bios) == [] ==> nrPhys == 0)
      ensures bios != [] && (forall i :: 0 <= i < |bios| ==> bios[i].vecs != []) ==> Valid(l)
    {
      var n, front, back := Recalc(l, bios);
      if bios == [] {
        nrPhys, groups := n, [];
        return;
      }
      ghost var was := bios;
      bios := bios[0 := bios[0].(front := front)];
      var z := |bios| - 1;
      bios := bios[z := bios[z].(back := back)];
      VecsSame(was, bios);
      nrPhys, groups := n, Recount(l, Vecs(bios));
      RecountIsGrouping(l, Vecs(bios));
    }
  }

  /** blk_phys_contig_segment, for bios with data. */
  predicate ContigSegment(l: Limits, bio: Bio, nxt: Bio)
    requires bio.vecs != [] && nxt.vecs != []
  {
    l.cluster && bio.back + nxt.front <= l.maxSize && Joins(l, Last(bio.vecs), nxt.vecs[0])
  }

  /** The last run of g and the first of h made one. */
  ghost function Glued(g: seq<seq<Vec>>, h: seq<seq<Vec>>): seq<seq<Vec>>
    requires g != [] && h != []
  {
    g[..|g| - 1] + [Last(g) + h[0]] + h[1..]
  }

  lemma {:induction false} GluedFlat(g: seq<seq<Vec>>, h: seq<seq<Vec>>)
    requires g != [] && h != []
    ensures Flatten(Glued(g, h)) == Flatten(g) + Flatten(h)
  {
    var init := g[..|g| - 1];
    FlattenConcat(init + [Last(g) + h[0]], h[1..]);
    FlattenAppend(init, Last(g) + h[0]);
    FlattenFirst(h);
    assert init + [Last(g)] == g;
    FlattenAppend(init, Last(g));
  }

  lemma {:induction false} RunsGlue(l: Limits, x: seq<Vec>, y: seq<Vec>)
    requires Run(l, x) && Run(l, y) && l.cluster && Size(x) + Size(y) <= l.maxSize && Joins(l, Last(x), y[0])
    ensures Run(l, x + y) && Size(x + y) == Size(x) + Size(y)
  {
    SizeConcat(x, y);
    forall i | 0 <= i < |x + y| - 1 ensures Joins(l, (x + y)[i], (x + y)[i + 1]) {
      if i < |x| - 1 {
        assert Joins(l, x[i], x[i + 1]);
      } else if i >= |x| {
        assert Joins(l, y[i - |x|], y[i - |x| + 1]);
      }
    }
  }

  lemma {:induction false} FlattenEnds<T>(g: seq<seq<T>>)
    requires g != [] && g[0] != [] && Last(g) != []
    ensures Flatten(g) != [] && Flatten(g)[0] == g[0][0] && Last(Flatten(g)) == Last(Last(g))
  {
    FlattenFirst(g);
  }

  lemma {:induction false} VecsEnds(bios: seq<Bio>)
    requires bios != [] && forall i :: 0 <= i < |bios| ==> bios[i].vecs != []
    ensures Vecs(bios) != [] && Vecs(bios)[0] == bios[0].vecs[0] && Last(Vecs(bios)) == Last(Last(bios).vecs)
  {
    if |bios| > 1 {
      VecsEnds(bios[1..]);
    } else {
      SingleVecs(bios[0]);
    }
  }

  /** When blk_phys_contig_segment holds, the end runs of two requests may become one. */
  lemma {:induction false} JoinAtEnds(l: Limits, a: seq<Bio>, g: seq<seq<Vec>>, b: seq<Bio>, h: seq<seq<Vec>>)
    requires a != [] && (forall i :: 0 <= i < |a| ==> a[i].vecs != []) && g != [] && Grouping(l, g, Vecs(a))
    requires b != [] && (forall i :: 0 <= i < |b| ==> b[i].vecs != []) && h != [] && Grouping(l, h, Vecs(b))
    requires Size(Last(g)) <= Last(a).back && Size(h[0]) <= b[0].front && ContigSegment(l, Last(a), b[0])
    ensures Grouping(l, Glued(g, h), Vecs(a) + Vecs(b))
    ensures Size(Last(g) + h[0]) <= Last(a).back + b[0].front
  {
    assert Run(l, g[0]) && Run(l, Last(g)) && Run(l, h[0]) && Run(l, Last(h));
    FlattenEnds(g);
    VecsEnds(a);
    FlattenEnds(h);
    VecsEnds(b);
    RunsGlue(l, Last(g), h[0]);
    GluedGrouping(l, g, Vecs(a), h, Vecs(b));
  }

  lemma GluedGrouping(l: Limits, g: seq<seq<Vec>>, u: seq<Vec>, h: seq<seq<Vec>>, v: seq<Vec>)
    requires g != [] && h != [] && Grouping(l, g, u) && Grouping(l, h, v) && Run(l, Last(g) + h[0])
    ensures Grouping(l, Glued(g, h), u + v)
  {
    GluedFlat(g, h);
  }
}
