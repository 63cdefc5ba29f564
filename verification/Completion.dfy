/**
 Completing a request in pieces: req_bio_endio and __end_that_request_first for requests other than
 the queue's barrier request. The reference is the list of bytes still to be transferred, of which
 completing n bytes drops the first n.
 */
module Completion {

  /** A bio_vec. */
  datatype Vec = Vec(page: nat, offset: nat, len: nat)

  /** What is left of a bio: the vectors from bi_idx on (of vcnt in all), bi_size, bi_sector and BIO_UPTODATE. */
  datatype Bio = Bio(id: nat, vcnt: nat, rest: seq<Vec>, size: nat, sector: nat, uptodate: bool)

  /** A call of bio_endio. */
  datatype End = End(id: nat, error: int)

  const EIO := 5

  function Sum(v: seq<Vec>): nat {
    if v == [] then 0 else v[0].len + Sum(v[1..])
  }

  /** The counts of a bio agree. */
  ghost predicate BioOk(b: Bio) {
    |b.rest| <= b.vcnt && b.size == Sum(b.rest)
  }

  ghost predicate BiosOk(bios: seq<Bio>) {
    forall i :: 0 <= i < |bios| ==> BioOk(bios[i])
  }

  /** Only the first bio may be without data. */
  ghost predicate DataInTail(bios: seq<Bio>) {
    forall i :: 0 < i < |bios| ==> bios[i].size > 0
  }

  function Total(bios: seq<Bio>): nat {
    if bios == [] then 0 else bios[0].size + Total(bios[1..])
  }

  // ----- The operations

  /** The vectors left after n bytes, fewer than there are. */
  function Rest(v: seq<Vec>, n: nat): seq<Vec>
    requires n < Sum(v) || n == 0
    decreases |v|
  {
    if n == 0 then v
    else if v[0].len > n then [v[0].(offset := v[0].offset + n, len := v[0].len - n)] + v[1..]
    else Rest(v[1..], n - v[0].len)
  }

  /** The error a bio ends with. */
  function EndError(b: Bio, error: int): int {
    if error != 0 then error else if !b.uptodate then -EIO else 0
  }

  /** Part of a bio is done; touching none of its bytes leaves it alone. */
  function Advanced(b: Bio, n: nat, error: int): Bio
    requires BioOk(b) && (n < b.size || n == 0)
  {
    if n == 0 then b
    else b.(rest := Rest(b.rest, n), size := b.size - n, sector := b.sector + n / 512,
        uptodate := b.uptodate && error == 0)
  }

  /** The bios left after n bytes, and the bios ended. */
  function Completed(bios: seq<Bio>, n: nat, error: int): (r: (seq<Bio>, seq<End>))
    requires BiosOk(bios)
    decreases |bios|
  {
    if bios == [] then ([], [])
    else
      var b := bios[0];
      if n < b.size then ([Advanced(b, n, error)] + bios[1..], [])
      else if n == b.size then (bios[1..], [End(b.id, EndError(b, error))])
      else
        var (left, ends) := Completed(bios[1..], n - b.size, error);
        (left, [End(b.id, EndError(b, error))] + ends)
  }

  /** A bio ends without an error exactly if nothing of it failed. */
  lemma EndErrorExactly(b: Bio, error: int)
    ensures EndError(b, error) == 0 <==> error == 0 && b.uptodate
    ensures error == 0 && !b.uptodate ==> EndError(b, error) == -5
    ensures error != 0 ==> EndError(b, error) == error
  {
  }

  /**
   A bio completed in two parts ends with the error of the second, or with -EIO if only the first failed; parts of no
   bytes do not count.
   */
  lemma FailureIsRemembered(b: Bio, n: nat, error: int, later: int)
    requires BioOk(b) && n < b.size && b.uptodate
    ensures var (left, ends) := Completed([b], n, error);
      |left| == 1 && ends == [] && left[0].id == b.id
      && EndError(left[0], later) == if later != 0 then later else if n > 0 && error != 0 then -5 else 0
  {
  }

  // ----- Bytes

  /** The bytes of a vector: page and offset of each. */
  ghost function VecBytes(v: Vec): seq<(nat, nat)> {
    seq(v.len, k requires k >= 0 => (v.page, v.offset + k))
  }

  ghost function RestBytes(v: seq<Vec>): (r: seq<(nat, nat)>)
    ensures |r| == Sum(v)
  {
    if v == [] then [] else VecBytes(v[0]) + RestBytes(v[1..])
  }

  ghost function Bytes(bios: seq<Bio>): (r: seq<(nat, nat)>)
    requires BiosOk(bios)
    ensures |r| == Total(bios)
  {
    if bios == [] then [] else RestBytes(bios[0].rest) + Bytes(bios[1..])
  }

  lemma {:induction false} RestDrops(v: seq<Vec>, n: nat)
    requires n < Sum(v) || n == 0
    ensures Sum(Rest(v, n)) == Sum(v) - n && |Rest(v, n)| <= |v|
    ensures RestBytes(Rest(v, n)) == RestBytes(v)[n..]
    decreases |v|
  {
    if n == 0 {
    } else if v[0].len > n {
      var w := v[0].(offset := v[0].offset + n, len := v[0].len - n);
      assert ([w] + v[1..])[1..] == v[1..];
      assert VecBytes(w) == VecBytes(v[0])[n..];
    } else {
      RestDrops(v[1..], n - v[0].len);
    }
  }

  lemma AdvancedOk(b: Bio, n: nat, error: int)
    requires BioOk(b) && (n < b.size || n == 0)
    ensures BioOk(Advanced(b, n, error)) && Advanced(b, n, error).size == b.size - n
    ensures RestBytes(Advanced(b, n, error).rest) == RestBytes(b.rest)[n..]
  {
    RestDrops(b.rest, n);
  }

  /** Completing keeps the counts right. */
  lemma {:induction false} CompletedOk(bios: seq<Bio>, n: nat, error: int)
    requires BiosOk(bios)
    ensures BiosOk(Completed(bios, n, error).0)
    decreases |bios|
  {
    if bios != [] {
      if n < bios[0].size {
        AdvancedOk(bios[0], n, error);
      } else if n > bios[0].size {
        CompletedOk(bios[1..], n - bios[0].size, error);
      }
    }
  }

  /** Completing n bytes drops the first n bytes, or all of them. */
  lemma {:induction false} CompletedDropsBytes(bios: seq<Bio>, n: nat, error: int)
    requires BiosOk(bios)
    ensures BiosOk(Completed(bios, n, error).0)
    ensures Bytes(Completed(bios, n, error).0) == if n < Total(bios) then Bytes(bios)[n..] else []
    decreases |bios|
  {
    CompletedOk(bios, n, error);
    if bios != [] {
      var b, tail := bios[0], bios[1..];
      var all := RestBytes(b.rest) + Bytes(tail);
      if n < b.size {
        AdvancedOk(b, n, error);
        assert ([Advanced(b, n, error)] + tail)[1..] == tail;
        assert all[n..] == RestBytes(b.rest)[n..] + Bytes(tail);
      } else if n == b.size {
        assert all[n..] == Bytes(tail);
      } else {
        CompletedDropsBytes(tail, n - b.size, error);
        if n < Total(bios) {
          assert all[n..] == Bytes(tail)[n - b.size..];
        }
      }
    }
  }

  // ----- Every bio ends once, in order; done exactly when all bytes are

  function Ids(bios: seq<Bio>): seq<nat> {
    if bios == [] then [] else [bios[0].id] + Ids(bios[1..])
  }

  function EndIds(ends: seq<End>): seq<nat> {
    if ends == [] then [] else [ends[0].id] + EndIds(ends[1..])
  }

  /** The bios ended and the bios left are the bios there were, in order. */
  lemma {:induction false} EndsInOrder(bios: seq<Bio>, n: nat, error: int)
    requires BiosOk(bios)
    ensures EndIds(Completed(bios, n, error).1) + Ids(Completed(bios, n, error).0) == Ids(bios)
    decreases |bios|
  {
    if bios != [] {
      var b, tail := bios[0], bios[1..];
      if n < b.size {
        assert ([Advanced(b, n, error)] + tail)[1..] == tail;
      } else if n == b.size {
        var e := [End(b.id, EndError(b, error))];
        assert EndIds(e) == [b.id] + EndIds(e[1..]);
      } else {
        EndsInOrder(tail, n - b.size, error);
        var (left, ends) := Completed(tail, n - b.size, error);
        var e := [End(b.id, EndError(b, error))] + ends;
        assert e[1..] == ends;
        assert EndIds(e) + Ids(left) == [b.id] + (EndIds(ends) + Ids(left));
      }
    }
  }

  /** The last of several bios has data. */
  predicate DataAtEnd(bios: seq<Bio>) {
    |bios| <= 1 || bios[|bios| - 1].size > 0
  }

  lemma {:induction false} LastCounts(bios: seq<Bio>)
    requires bios != []
    ensures bios[|bios| - 1].size <= Total(bios)
    decreases |bios|
  {
    if |bios| > 1 {
      LastCounts(bios[1..]);
    }
  }

  /** When nothing is left: more bytes than there are, or all of them and no empty bio at the end. */
  lemma {:induction false} DoneExactly(bios: seq<Bio>, n: nat, error: int)
    requires BiosOk(bios)
    ensures Completed(bios, n, error).0 == [] <==> n > Total(bios) || (n == Total(bios) && DataAtEnd(bios))
    decreases |bios|
  {
    if bios != [] {
      var b, tail := bios[0], bios[1..];
      if tail == [] {
        assert Total(bios) == b.size + Total([]);
      } else {
        assert bios[|bios| - 1] == tail[|tail| - 1];
        LastCounts(tail);
        if n > b.size {
          DoneExactly(tail, n - b.size, error);
          assert |tail| == 1 ==> Total(tail) == tail[0].size + Total([]);
        }
      }
    }
  }

  /**
   Nothing is left exactly when all bytes are done, for every number of bytes, if and only if no empty bio is last.
   */
  lemma DoneMeansAllBytes(bios: seq<Bio>, error: int)
    requires BiosOk(bios)
    ensures (forall n: nat :: Completed(bios, n, error).0 == [] <==> n >= Total(bios)) <==> DataAtEnd(bios)
  {
    forall n: nat
      ensures Completed(bios, n, error).0 == [] <==> n > Total(bios) || (n == Total(bios) && DataAtEnd(bios))
    {
      DoneExactly(bios, n, error);
    }
    assert Completed(bios, Total(bios), error).0 == [] <==> DataAtEnd(bios);
  }

  // ----- Additivity

  lemma {:induction false} RestAdds(v: seq<Vec>, n: nat, m: nat)
    requires n + m < Sum(v) || n + m == 0
    ensures Sum(Rest(v, n)) == Sum(v) - n && Rest(Rest(v, n), m) == Rest(v, n + m)
    decreases |v|
  {
    RestDrops(v, n);
    if n == 0 || m == 0 {
    } else if v[0].len > n {
      var w := v[0].(offset := v[0].offset + n, len := v[0].len - n);
      var v' := [w] + v[1..];
      assert Rest(v, n) == v' && v'[0] == w && v'[1..] == v[1..];
    } else {
      RestAdds(v[1..], n - v[0].len, m);
    }
  }

  /** Equal but for bi_sector. */
  predicate SameButSector(a: Bio, b: Bio) {
    a.(sector := 0) == b.(sector := 0)
  }

  ghost predicate SameLeft(a: seq<Bio>, b: seq<Bio>) {
    |a| == |b| && (forall i :: 0 <= i < |a| ==> SameButSector(a[i], b[i])) && (forall i :: 0 < i < |a| ==> a[i] == b[i])
  }

  lemma AdvancedAdds(b: Bio, n: nat, m: nat, error: int)
    requires BioOk(b) && (n + m < b.size || n + m == 0)
    ensures BioOk(Advanced(b, n, error)) && Advanced(b, n, error).size == b.size - n
    ensures SameButSector(Advanced(Advanced(b, n, error), m, error), Advanced(b, n + m, error))
    ensures Advanced(Advanced(b, n, error), m, error) == Advanced(b, n + m, error) <==> n % 512 + m % 512 < 512
  {
    AdvancedOk(b, n, error);
    RestAdds(b.rest, n, m);
    assert n / 512 + m / 512 == (n + m) / 512 <==> n % 512 + m % 512 < 512;
  }

  /** Completing n and then m bytes leaves what completing n + m bytes leaves, and ends the same bios. */
  lemma {:induction false} CompletionAdds(bios: seq<Bio>, n: nat, m: nat, error: int)
    requires BiosOk(bios) && DataInTail(bios)
    ensures BiosOk(Completed(bios, n, error).0)
    ensures var once := Completed(bios, n + m, error);
      var first := Completed(bios, n, error);
      var second := Completed(first.0, m, error);
      SameLeft(second.0, once.0) && first.1 + second.1 == once.1
    decreases |bios|
  {
    CompletedOk(bios, n, error);
    if bios == [] {
    } else {
      var b, tail := bios[0], bios[1..];
      if n < b.size {
        SplitInFirst(bios, n, m, error);
      } else if n == b.size {
        SplitAfterFirst(bios, m, error);
      } else {
        assert DataInTail(tail);
        CompletionAdds(tail, n - b.size, m, error);
        var e := [End(b.id, EndError(b, error))];
        var first := Completed(tail, n - b.size, error);
        var second := Completed(first.0, m, error);
        assert e + first.1 + second.1 == e + (first.1 + second.1);
      }
    }
  }

  lemma {:induction false} SplitInFirst(bios: seq<Bio>, n: nat, m: nat, error: int)
    requires BiosOk(bios) && bios != [] && n < bios[0].size && BiosOk(Completed(bios, n, error).0)
    ensures var once := Completed(bios, n + m, error);
      var first := Completed(bios, n, error);
      var second := Completed(first.0, m, error);
      SameLeft(second.0, once.0) && first.1 + second.1 == once.1
  {
    var b, tail := bios[0], bios[1..];
    var b' := Advanced(b, n, error);
    AdvancedOk(b, n, error);
    var left := [b'] + tail;
    assert left[0] == b' && left[1..] == tail;
    assert EndError(b', error) == EndError(b, error);
    assert Completed(bios, n, error) == (left, []);
    if n + m < b.size {
      AdvancedAdds(b, n, m, error);
    }
  }

  lemma {:induction false} SplitAfterFirst(bios: seq<Bio>, m: nat, error: int)
    requires BiosOk(bios) && bios != [] && DataInTail(bios) && BiosOk(Completed(bios, bios[0].size, error).0)
    ensures var once := Completed(bios, bios[0].size + m, error);
      var first := Completed(bios, bios[0].size, error);
      var second := Completed(first.0, m, error);
      SameLeft(second.0, once.0) && first.1 + second.1 == once.1
  {
  }

  /** With no data in a later bio, stopping just before it and then completing nothing ends it: additivity fails. */
  lemma {:induction false} EmptyTailBreaks(bios: seq<Bio>, i: nat, error: int) returns (n: nat)
    requires BiosOk(bios) && 0 < i < |bios| && bios[i].size == 0 && forall j :: 0 < j < i ==> bios[j].size > 0
    ensures BiosOk(Completed(bios, n, error).0)
    ensures Completed(bios, n, error).0 == bios[i..]
    ensures Completed(Completed(bios, n, error).0, 0, error).0 == bios[i + 1..]
    decreases i
  {
    if i == 1 {
      n := bios[0].size;
      assert bios[1..][1..] == bios[2..];
    } else {
      var tail := bios[1..];
      var k := EmptyTailBreaks(tail, i - 1, error);
      assert tail[i - 1..] == bios[i..] && tail[i..] == bios[i + 1..];
      n := bios[0].size + k;
      if k == 0 {
        assert false;
      }
    }
  }

  /** Completing in two steps and in one leave the same and end the same bios. */
  ghost predicate Adds(bios: seq<Bio>, n: nat, m: nat, error: int)
    requires BiosOk(bios)
  {
    CompletedOk(bios, n, error);
    var once, first := Completed(bios, n + m, error), Completed(bios, n, error);
    var second := Completed(first.0, m, error);
    SameLeft(second.0, once.0) && first.1 + second.1 == once.1
  }

  /** Completion is additive exactly for requests in which only the first bio may be without data. */
  lemma AdditiveExactlyWithData(bios: seq<Bio>, error: int)
    requires BiosOk(bios)
    ensures (forall n, m :: Adds(bios, n, m, error)) <==> DataInTail(bios)
  {
    if DataInTail(bios) {
      forall n, m ensures Adds(bios, n, m, error) {
        CompletionAdds(bios, n, m, error);
      }
    } else {
      var i := FirstEmpty(bios);
      var n := EmptyTailBreaks(bios, i, error);
      assert !Adds(bios, n, 0, error);
    }
  }

  lemma FirstEmpty(bios: seq<Bio>) returns (i: nat)
    requires !DataInTail(bios)
    ensures 0 < i < |bios| && bios[i].size == 0 && forall j :: 0 < j < i ==> bios[j].size > 0
  {
    i := 1;
    while bios[i].size > 0
      invariant 0 < i < |bios| && forall j :: 0 < j < i ==> bios[j].size > 0
      decreases |bios| - i
    {
      if i == |bios| - 1 {
        assert DataInTail(bios);
        assert false;
      }
      i := i + 1;
    }
  }

  // ----- The loop

  /** A bio as it is stored: all its vectors, and bi_idx. */
  datatype StoredBio = StoredBio(id: nat, vecs: seq<Vec>, idx: nat, size: nat, sector: nat, uptodate: bool)

  predicate Indexed(c: StoredBio) {
    c.idx <= |c.vecs|
  }

  ghost function View(c: StoredBio): Bio
    requires Indexed(c)
  {
    Bio(c.id, |c.vecs|, c.vecs[c.idx..], c.size, c.sector, c.uptodate)
  }

  ghost function Views(c: seq<StoredBio>): seq<Bio>
    requires forall i :: 0 <= i < |c| ==> Indexed(c[i])
  {
    seq(|c|, i requires 0 <= i < |c| => View(c[i]))
  }

  ghost predicate StoredOk(c: seq<StoredBio>) {
    forall i :: 0 <= i < |c| ==> Indexed(c[i]) && BioOk(View(c[i]))
  }

  /** Whole vectors may be skipped one by one. */
  lemma {:induction false} RestSkips(v: seq<Vec>, k: nat, n: nat, done: nat)
    requires k <= |v| && Sum(v[..k]) == done && n > 0 && done + n < Sum(v)
    ensures n < Sum(v[k..]) && Rest(v, done + n) == Rest(v[k..], n)
    decreases k
  {
    if k == 0 {
      assert v[0..] == v;
    } else {
      assert v[..k][0] == v[0] && v[..k][1..] == v[1..][..k - 1] && v[1..][k - 1..] == v[k..];
      RestSkips(v[1..], k - 1, n, done - v[0].len);
    }
  }

  lemma {:induction false} SumAppend(v: seq<Vec>, k: nat)
    requires k < |v|
    ensures Sum(v[..k + 1]) == Sum(v[..k]) + v[k].len
    decreases k
  {
    assert v[..k + 1][1..] == v[1..][..k];
    if k > 0 {
      assert v[..k][1..] == v[1..][..k - 1];
      SumAppend(v[1..], k - 1);
    }
  }

  lemma ViewsTail(c: seq<StoredBio>)
    requires c != [] && StoredOk(c)
    ensures Views(c)[0] == View(c[0]) && Views(c)[1..] == Views(c[1..]) && StoredOk(c[1..]) && BiosOk(Views(c))
  {
  }

  /** The bio after the loop has found next whole vectors and n bytes of the one after them. */
  function StoredAdvanced(c: StoredBio, next: nat, n: nat, done: nat, error: int): StoredBio
    requires c.idx + next < |c.vecs| && n <= c.vecs[c.idx + next].len && done <= c.size
  {
    var i := c.idx + next;
    var v := c.vecs[i];
    c.(vecs := c.vecs[i := v.(offset := v.offset + n, len := v.len - n)], idx := i,
       size := c.size - done, sector := c.sector + done / 512, uptodate := c.uptodate && error == 0)
  }

  /** It is the bio advanced by the bytes found, whether the last vector is done or cut. */
  lemma {:induction false} StoredAdvancedIs(c: StoredBio, next: nat, n: nat, done: nat, error: int)
    requires Indexed(c) && BioOk(View(c)) && c.idx + next < |c.vecs| && 0 < done < c.size
    requires n <= c.vecs[c.idx + next].len && Rest(c.vecs[c.idx..], done) == Cut(c.vecs[c.idx..], next, n)
    ensures View(StoredAdvanced(c, next, n, done, error)) == Advanced(View(c), done, error)
  {
    var i := c.idx + next;
    var c' := StoredAdvanced(c, next, n, done, error);
    assert c.vecs[c.idx..][next] == c.vecs[i] && c.vecs[c.idx..][next + 1..] == c.vecs[i + 1..];
    assert c'.vecs[c'.idx..] == [c'.vecs[i]] + c.vecs[i + 1..];
  }

  /** What is left of v once k whole vectors and n bytes of the next are done. */
  function Cut(v: seq<Vec>, k: nat, n: nat): seq<Vec>
    requires k < |v| && n <= v[k].len
  {
    [v[k].(offset := v[k].offset + n, len := v[k].len - n)] + v[k + 1..]
  }

  // ----- The state of the loop

  /**
   At the head of the loop: n bytes remain to be done, next vectors of the first bio, part bytes in all,
   are found done but not yet taken off, and the bios in done have ended.
   */
  ghost predicate Head(goal: (seq<Bio>, seq<End>), left: seq<StoredBio>, done: seq<End>, next: nat, part: nat, n: nat,
                       error: int) {
    match goal case (_, _) =>
    && StoredOk(left)
    && goal == (Completed(Views(left), part + n, error).0, done + Completed(Views(left), part + n, error).1)
    && (next > 0 ==> left != [] && part + n < left[0].size && n > 0)
    && (left != [] ==> next <= |left[0].vecs| - left[0].idx && Sum(left[0].vecs[left[0].idx..][..next]) == part)
    && (left == [] ==> part == 0)
  }

  /** After the loop: what remains is to take part bytes off the first bio. */
  ghost predicate Stopped(goal: (seq<Bio>, seq<End>), left: seq<StoredBio>, done: seq<End>, next: nat, part: nat,
                          n: nat, error: int) {
    match goal case (_, _) =>
    && StoredOk(left)
    && (part == 0 ==> goal == (Views(left), done))
    && (part > 0 ==>
      && left != [] && part < left[0].size && left[0].idx + next < |left[0].vecs|
      && n <= left[0].vecs[left[0].idx + next].len
      && Rest(left[0].vecs[left[0].idx..], part) == Cut(left[0].vecs[left[0].idx..], next, n)
      && goal == ([Advanced(View(left[0]), part, error)] + Views(left[1..]), done))
  }

  lemma BioDone(goal: (seq<Bio>, seq<End>), left: seq<StoredBio>, done: seq<End>, next: nat, part: nat, n: nat,
                error: int)
    requires Head(goal, left, done, next, part, n, error) && left != [] && n >= left[0].size
    ensures var done' := done + [End(left[0].id, EndError(View(left[0]), error))];
      && (n > left[0].size ==> Head(goal, left[1..], done', 0, 0, n - left[0].size, error))
      && (n == left[0].size ==> Stopped(goal, left[1..], done', 0, 0, 0, error))
      && (n == left[0].size && left[1..] == [] ==> Head(goal, left[1..], done', 0, 0, 0, error))
  {
    ViewsTail(left);
    assert left[0].vecs[left[0].idx..][..0] == [];
    var e := [End(left[0].id, EndError(View(left[0]), error))];
    assert done + e + [] == done + e;
    if n > left[0].size {
      var ends := Completed(Views(left[1..]), n - left[0].size, error).1;
      assert done + (e + ends) == done + e + ends;
      if left[1..] != [] {
        assert left[1].vecs[left[1].idx..][..0] == [];
      }
    }
  }

  /** A bio that is not done has a vector left to look at. */
  lemma RoomForMore(goal: (seq<Bio>, seq<End>), left: seq<StoredBio>, done: seq<End>, next: nat, part: nat, n: nat,
                    error: int)
    requires Head(goal, left, done, next, part, n, error) && left != [] && n < left[0].size
    ensures part + n < left[0].size && left[0].idx + next < |left[0].vecs|
  {
    var v := left[0].vecs[left[0].idx..];
    ViewsTail(left);
    assert v[..0] == [] && v[..|v|] == v;
  }

  lemma {:induction false} InFirst(left: seq<StoredBio>, m: nat, error: int)
    requires StoredOk(left) && left != [] && m < left[0].size
    ensures BiosOk(Views(left))
    ensures Completed(Views(left), m, error) == ([Advanced(View(left[0]), m, error)] + Views(left[1..]), [])
    ensures m == 0 ==> Completed(Views(left), m, error) == (Views(left), [])
  {
    ViewsTail(left);
    assert [View(left[0])] + Views(left[1..]) == Views(left);
  }

  lemma VecDone(goal: (seq<Bio>, seq<End>), left: seq<StoredBio>, done: seq<End>, next: nat, part: nat, n: nat,
                error: int)
    requires Head(goal, left, done, next, part, n, error) && left != [] && n < left[0].size && part + n < left[0].size
    requires left[0].idx + next < |left[0].vecs| && left[0].vecs[left[0].idx + next].len <= n
    ensures var len := left[0].vecs[left[0].idx + next].len;
      && (n > len ==> Head(goal, left, done, next + 1, part + len, n - len, error))
      && (n == len ==> Stopped(goal, left, done, next + 1, part + len, 0, error))
  {
    var v := left[0].vecs[left[0].idx..];
    InFirst(left, part + n, error);
    assert done + [] == done;
    SumAppend(v, next);
    assert v[next] == left[0].vecs[left[0].idx + next];
    if n == v[next].len {
      if n == 0 {
        assert v[..0] == [];
      } else {
        RestSkips(v, next, n, part);
        assert v[next..][1..] == v[next + 1..] && v[next..][0] == v[next];
        assert Rest(v, part + n) == v[next + 1..];
        assert Sum(v[next + 1..]) > 0;
        assert Cut(v, next + 1, 0) == v[next + 1..];
      }
    }
  }

  lemma VecCut(goal: (seq<Bio>, seq<End>), left: seq<StoredBio>, done: seq<End>, next: nat, part: nat, n: nat,
               error: int)
    requires Head(goal, left, done, next, part, n, error) && left != [] && n < left[0].size && part + n < left[0].size
    requires left[0].idx + next < |left[0].vecs| && left[0].vecs[left[0].idx + next].len > n
    ensures Stopped(goal, left, done, next, part + n, n, error)
  {
    var v := left[0].vecs[left[0].idx..];
    InFirst(left, part + n, error);
    assert done + [] == done;
    assert v[next] == left[0].vecs[left[0].idx + next];
    if n == 0 {
      assert v[..0] == [];
    } else {
      RestSkips(v, next, n, part);
      assert v[next..][1..] == v[next + 1..] && v[next..][0] == v[next];
    }
  }

  lemma TakenOff(goal: (seq<Bio>, seq<End>), left: seq<StoredBio>, done: seq<End>, next: nat, part: nat, n: nat,
                 error: int)
    requires Stopped(goal, left, done, next, part, n, error) && part > 0
    ensures var left' := left[0 := StoredAdvanced(left[0], next, n, part, error)];
      StoredOk(left') && goal == (Views(left'), done)
  {
    StoredAdvancedIs(left[0], next, n, part, error);
    AdvancedOk(View(left[0]), part, error);
    var left' := left[0 := StoredAdvanced(left[0], next, n, part, error)];
    assert left'[1..] == left[1..];
    ViewsTail(left');
    assert Views(left') == [View(left'[0])] + Views(left[1..]);
  }

  lemma {:induction false} Begin(left: seq<StoredBio>, n: nat, error: int)
    requires StoredOk(left)
    ensures BiosOk(Views(left)) && Head(Completed(Views(left), n, error), left, [], 0, 0, n, error)
  {
    assert left != [] ==> left[0].vecs[left[0].idx..][..0] == [];
    var goal := Completed(Views(left), n, error);
    assert [] + goal.1 == goal.1;
  }

  lemma AllDone(goal: (seq<Bio>, seq<End>), left: seq<StoredBio>, done: seq<End>, next: nat, part: nat, n: nat,
                error: int)
    requires Head(goal, left, done, next, part, n, error) && left == []
    ensures Stopped(goal, left, done, next, part, n, error)
  {
    assert done + [] == done;
  }

  lemma AllStopped(goal: (seq<Bio>, seq<End>), left: seq<StoredBio>, done: seq<End>, next: nat, part: nat, n: nat,
                   error: int)
    requires Stopped(goal, left, done, next, part, n, error) && left == []
    ensures goal == (Views(left), done)
  {
  }

  /** The loop's step inside a bio: a vector is cut, or done. */
  method StepVec(left: seq<StoredBio>, next: nat, part: nat, n: nat, error: int, ghost goal: (seq<Bio>, seq<End>),
                 ghost done: seq<End>)
    returns (stop: bool, taken: nat, next': nat, part': nat, n': nat)
    requires Head(goal, left, done, next, part, n, error) && left != [] && n < left[0].size
    ensures stop ==> taken == n && Stopped(goal, left, done, next', part', n', error)
    ensures !stop ==>
      taken + n' == n && next < next' <= |left[0].vecs| && Head(goal, left, done, next', part', n', error)
  {
    var bio := left[0];
    var idx := bio.idx + next;
    RoomForMore(goal, left, done, next, part, n, error);
    if idx >= |bio.vecs| {
      assert false;
    }
    var nbytes := bio.vecs[idx].len;
    if nbytes > n {
      VecCut(goal, left, done, next, part, n, error);
      return true, n, next, part + n, n;
    }
    VecDone(goal, left, done, next, part, n, error);
    return n <= nbytes, nbytes, next + 1, part + nbytes, n - nbytes;
  }

  class Request {
    var bios: seq<StoredBio>
    var hardSector: nat
    var hardNrSectors: int
    /** The calls of bio_endio so far. */
    var ended: seq<End>

    ghost predicate Valid()
      reads this
    {
      StoredOk(bios)
    }

    /** req_bio_endio, for a request that is not the queue's bar_rq. */
    method BioEndio(bio: StoredBio, nbytes: nat, error: int) returns (bio': StoredBio)
      requires nbytes <= bio.size
      modifies this`ended
      ensures bio' == bio.(size := bio.size - nbytes, sector := bio.sector + nbytes / 512,
        uptodate := bio.uptodate && error == 0)
      ensures ended == if nbytes < bio.size then old(ended) else
        old(ended) + [End(bio.id, if error != 0 then error else if !bio.uptodate then -EIO else 0)]
    {
      var err := error;
      bio' := bio;
      if error != 0 {
        bio' := bio'.(uptodate := false);
      } else if !bio.uptodate {
        err := -EIO;
      }
      bio' := bio'.(size := bio'.size - nbytes, sector := bio'.sector + nbytes / 512);
      if bio'.size == 0 {
        ended := ended + [End(bio.id, err)];
      }
    }

    /** The first bio is done in full. */
    method EndBio(error: int, next: nat, part: nat, n: nat, ghost goal: (seq<Bio>, seq<End>), ghost was: seq<End>,
                  ghost done: seq<End>)
      returns (ghost done': seq<End>)
      requires Head(goal, bios, done, next, part, n, error) && bios != [] && n >= bios[0].size && ended == was + done
      modifies this`bios, this`ended
      ensures bios == old(bios)[1..] && ended == was + done'
      ensures n > old(bios)[0].size || bios == [] ==> Head(goal, bios, done', 0, 0, n - old(bios)[0].size, error)
      ensures n == old(bios)[0].size ==> Stopped(goal, bios, done', 0, 0, 0, error)
    {
      BioDone(goal, bios, done, next, part, n, error);
      var bio := bios[0];
      bios := bios[1..];
      var _ := BioEndio(bio, bio.size, error);
      done' := done + [End(bio.id, EndError(View(bio), error))];
    }

    /** The loop of __end_that_request_first; done lists the bios it ends. */
    method EndLoop(error: int, nrBytes: nat, ghost goal: (seq<Bio>, seq<End>))
      returns (next: nat, part: nat, n: nat, total: nat, ghost done: seq<End>)
      requires Head(goal, bios, [], 0, 0, nrBytes, error)
      modifies this`bios, this`ended
      ensures Stopped(goal, bios, done, next, part, n, error)
      ensures ended == old(ended) + done && (bios != [] ==> total == nrBytes)
    {
      next, part, n, total, done := 0, 0, nrBytes, 0, [];
      while bios != []
        invariant ended == old(ended) + done && total + n == nrBytes
        invariant Head(goal, bios, done, next, part, n, error)
        decreases |bios|, n, if bios != [] then |bios[0].vecs| - next else 0
      {
        if n >= bios[0].size {
          var size := bios[0].size;
          done := EndBio(error, next, part, n, goal, old(ended), done);
          next, part, total, n := 0, 0, total + size, n - size;
          if bios != [] && n <= 0 {
            return;
          }
        } else {
          var taken, stop;
          stop, taken, next, part, n := StepVec(bios, next, part, n, error, goal, done);
          total := total + taken;
          if stop {
            return;
          }
        }
      }
      AllDone(goal, bios, done, next, part, n, error);
    }

    /** The first bio's state is updated for the part of it that is done. */
    method TakeOff(next: nat, part: nat, n: nat, error: int, ghost goal: (seq<Bio>, seq<End>), ghost done: seq<End>)
      requires Stopped(goal, bios, done, next, part, n, error)
      modifies this`bios, this`ended
      ensures StoredOk(bios) && goal == (Views(bios), done) && ended == old(ended) && |bios| == old(|bios|)
    {
      if part > 0 {
        TakenOff(goal, bios, done, next, part, n, error);
        var bio := BioEndio(bios[0], part, error);
        var i := bio.idx + next;
        var v := bio.vecs[i];
        bios := bios[0 := bio.(idx := i, vecs := bio.vecs[i := v.(offset := v.offset + n, len := v.len - n)])];
      }
    }

    /** __end_that_request_first: false when the whole request is done. */
    method EndFirst(error: int, nrBytes: nat) returns (pending: bool)
      requires Valid()
      modifies this
      ensures Valid() && BiosOk(old(Views(bios)))
      ensures var c := Completed(old(Views(bios)), nrBytes, error); Views(bios) == c.0 && ended == old(ended) + c.1
      ensures pending == (bios != [])
      ensures pending ==>
        hardSector == old(hardSector) + nrBytes / 512 && hardNrSectors == old(hardNrSectors) - nrBytes / 512
    {
      ghost var goal := Completed(Views(bios), nrBytes, error);
      Begin(bios, nrBytes, error);
      var next, part, n, total, done := EndLoop(error, nrBytes, goal);
      if bios == [] {
        AllStopped(goal, bios, done, next, part, n, error);
        return false;
      }
      TakeOff(next, part, n, error, goal, done);
      hardSector, hardNrSectors := hardSector + total / 512, hardNrSectors - total / 512;
      pending := true;
    }
  }
}
