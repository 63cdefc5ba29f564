/**
 camellia_setup_tail, which rewrites the subkey arrays in place, proved to leave the final table of
 module Camellia. The element sub[i] is the pair (subL[i], subR[i]) of the source, and subkey[i] the
 pair (SUBKEY_L(i), SUBKEY_R(i)).
 */
module CamelliaSetup {
  import opened Camellia

  /** k added to the three round keys at i, i + 2 and i + 4. */
  function Added<W>(o: Ops<W>, s: seq<Half<W>>, i: nat, k: Half<W>): (r: seq<Half<W>>)
    requires i + 4 < |s|
    ensures |r| == |s|
  {
    s[i := Xor(o, s[i], k)][i + 2 := Xor(o, s[i + 2], k)][i + 4 := Xor(o, s[i + 4], k)]
  }

  /** Absorbs kw2 into the groups based at i and above, and into kw3. */
  function Kw2Pass<W>(o: Ops<W>, s: seq<Half<W>>, max: nat, i: nat): (r: seq<Half<W>>)
    requires |s| == max + 2 && i + 8 <= max
    ensures |r| == |s|
    decreases max - i
  {
    var s1 := Added(o, s, i + 3, s[1]);
    if i + 16 > max then s1[max := Xor(o, s1[max], s1[1])]
    else Kw2Pass(o, s1[1 := Through(o, s1[1], s1[i + 9])], max, i + 8)
  }

  /** Absorbs kw4 into the groups based at i and below, and into kw1. */
  function Kw4Pass<W>(o: Ops<W>, s: seq<Half<W>>, kw4: Half<W>, i: nat): (r: seq<Half<W>>)
    requires i + 8 <= |s|
    ensures |r| == |s|
    decreases i
  {
    var s1 := Added(o, s, i + 2, kw4);
    if i < 8 then s1[0 := Xor(o, s1[0], kw4)]
    else Kw4Pass(o, s1, Through(o, kw4, s1[i]), i - 8)
  }

  /** The keys of the group based at i, written from the absorbed table s. */
  function GroupWritten<W>(o: Ops<W>, key: seq<Half<W>>, s: seq<Half<W>>, max: nat, i: nat): (r: seq<Half<W>>)
    requires max < |key| && |s| == max + 2 && i + 8 <= max
    ensures |r| == |key|
  {
    var first := if i < 8 then s[i + 3] else Xor(o, Through(o, s[i - 1], s[i + 1]), s[i + 3]);
    var last := if i + 16 > max then s[i + 6] else Xor(o, s[i + 6], Through(o, s[i + 10], s[i + 8]));
    var r := key[i + 2 := first][i + 3 := Xor(o, s[i + 2], s[i + 4])][i + 4 := Xor(o, s[i + 3], s[i + 5])]
                [i + 5 := Xor(o, s[i + 4], s[i + 6])][i + 6 := Xor(o, s[i + 5], s[i + 7])][i + 7 := last];
    if i < 8 then r else r[i := s[i]][i + 1 := s[i + 1]]
  }

  function GroupUndone<W>(o: Ops<W>, key: seq<Half<W>>, i: nat): (r: seq<Half<W>>)
    requires i + 8 <= |key|
    ensures |r| == |key|
  {
    key[i + 2 := UndoP(o, key[i + 2])][i + 3 := UndoP(o, key[i + 3])][i + 4 := UndoP(o, key[i + 4])]
       [i + 5 := UndoP(o, key[i + 5])][i + 6 := UndoP(o, key[i + 6])][i + 7 := UndoP(o, key[i + 7])]
  }

  method AddKey<W>(o: Ops<W>, sub: array<Half<W>>, i: nat, k: Half<W>)
    requires i + 4 < sub.Length
    modifies sub
    ensures sub[..] == Added(o, old(sub[..]), i, k)
  {
    sub[i] := Xor(o, sub[i], k);
    sub[i + 2] := Xor(o, sub[i + 2], k);
    sub[i + 4] := Xor(o, sub[i + 4], k);
  }

  method AbsorbKw2<W>(o: Ops<W>, sub: array<Half<W>>, max: nat)
    requires IsMax(max) && sub.Length == max + 2
    modifies sub
    ensures sub[..] == Kw2Pass(o, old(sub[..]), max, 0)
  {
    ghost var result := Kw2Pass(o, sub[..], max, 0);
    AddKey(o, sub, 3, sub[1]);
    sub[1] := Through(o, sub[1], sub[9]);
    assert result == Kw2Pass(o, sub[..], max, 8);
    AddKey(o, sub, 11, sub[1]);
    sub[1] := Through(o, sub[1], sub[17]);
    assert result == Kw2Pass(o, sub[..], max, 16);
    AddKey(o, sub, 19, sub[1]);
    if max == 24 {
      sub[24] := Xor(o, sub[24], sub[1]);
    } else {
      sub[1] := Through(o, sub[1], sub[25]);
      assert result == Kw2Pass(o, sub[..], max, 24);
      AddKey(o, sub, 27, sub[1]);
      sub[32] := Xor(o, sub[32], sub[1]);
    }
  }

  method AbsorbKw4<W>(o: Ops<W>, sub: array<Half<W>>, max: nat)
    requires IsMax(max) && sub.Length == max + 2
    modifies sub
    ensures sub[..] == Kw4Pass(o, old(sub[..]), old(sub[max + 1]), max - 8)
  {
    ghost var result := Kw4Pass(o, sub[..], sub[max + 1], max - 8);
    var kw4 := sub[max + 1];
    if max == 32 {
      AddKey(o, sub, 26, kw4);
      kw4 := Through(o, kw4, sub[24]);
    }
    assert result == Kw4Pass(o, sub[..], kw4, 16);
    AddKey(o, sub, 18, kw4);
    kw4 := Through(o, kw4, sub[16]);
    assert result == Kw4Pass(o, sub[..], kw4, 8);
    AddKey(o, sub, 10, kw4);
    kw4 := Through(o, kw4, sub[8]);
    AddKey(o, sub, 2, kw4);
    sub[0] := Xor(o, sub[0], kw4);
  }

  method WriteGroup<W>(o: Ops<W>, subkey: array<Half<W>>, sub: array<Half<W>>, max: nat, i: nat)
    requires max < subkey.Length && sub.Length == max + 2 && i + 8 <= max && subkey != sub
    modifies subkey
    ensures subkey[..] == GroupWritten(o, old(subkey[..]), sub[..], max, i)
  {
    if i < 8 {
      subkey[i + 2] := sub[i + 3];
    } else {
      subkey[i + 2] := Xor(o, Through(o, sub[i - 1], sub[i + 1]), sub[i + 3]);
    }
    subkey[i + 3] := Xor(o, sub[i + 2], sub[i + 4]);
    subkey[i + 4] := Xor(o, sub[i + 3], sub[i + 5]);
    subkey[i + 5] := Xor(o, sub[i + 4], sub[i + 6]);
    subkey[i + 6] := Xor(o, sub[i + 5], sub[i + 7]);
    if i + 16 > max {
      subkey[i + 7] := sub[i + 6];
    } else {
      subkey[i + 7] := Xor(o, sub[i + 6], Through(o, sub[i + 10], sub[i + 8]));
    }
    if i >= 8 {
      subkey[i] := sub[i];
      subkey[i + 1] := sub[i + 1];
    }
  }

  method UndoGroup<W>(o: Ops<W>, subkey: array<Half<W>>, i: nat)
    requires i + 8 <= subkey.Length
    modifies subkey
    ensures subkey[..] == GroupUndone(o, old(subkey[..]), i)
  {
    subkey[i + 2] := UndoP(o, subkey[i + 2]);
    subkey[i + 3] := UndoP(o, subkey[i + 3]);
    subkey[i + 4] := UndoP(o, subkey[i + 4]);
    subkey[i + 5] := UndoP(o, subkey[i + 5]);
    subkey[i + 6] := UndoP(o, subkey[i + 6]);
    subkey[i + 7] := UndoP(o, subkey[i + 7]);
  }

  /** The inverse of the last half of P, group by group. */
  method UndoLastHalfOfP<W>(o: Ops<W>, subkey: array<Half<W>>, max: nat, ghost was: seq<Half<W>>)
    requires IsMax(max) && max < subkey.Length && |was| == max + 2 && MovedBelow(o, was, max, subkey[..], max)
    modifies subkey
    ensures DoneBelow(o, was, max, subkey[..], max)
    ensures subkey[0] == old(subkey[0]) && subkey[max] == old(subkey[max])
  {
    var i := 2;
    while i < max
      invariant 2 <= i && (Aligned(i - 2, max) || i == max + 2)
      invariant DoneBelow(o, was, max, subkey[..], i - 2) && MovedAbove(o, was, max, subkey[..], i - 2)
      invariant subkey[0] == old(subkey[0]) && subkey[max] == old(subkey[max])
    {
      UndoneGoesOn(o, was, max, subkey[..], i - 2);
      UndoGroup(o, subkey, i - 2);
      i := i + 8;
    }
  }

  /** Moves the key additions behind the S-boxes; was is the table before the whitening keys were absorbed. */
  method WriteKeys<W>(o: Ops<W>, subkey: array<Half<W>>, sub: array<Half<W>>, max: nat, ghost was: seq<Half<W>>)
    requires IsMax(max) && max < subkey.Length && sub.Length == max + 2 && subkey != sub
    requires |was| == max + 2 && AbsorbedFrom(o, was, max, sub[..], 0)
    modifies subkey
    ensures MovedBelow(o, was, max, subkey[..], max)
    ensures subkey[0] == Xor(o, sub[0], sub[2]) && subkey[max] == Xor(o, sub[max], sub[max - 1])
  {
    subkey[0] := Xor(o, sub[0], sub[2]);
    WriteNext(o, subkey, sub, max, 0, was);
    WriteNext(o, subkey, sub, max, 8, was);
    WriteNext(o, subkey, sub, max, 16, was);
    if max == 32 {
      WriteNext(o, subkey, sub, max, 24, was);
    }
    MovedElsewhere(o, was, max, subkey[..], subkey[..][max := Xor(o, sub[max], sub[max - 1])]);
    subkey[max] := Xor(o, sub[max], sub[max - 1]);
  }

  /** One more group is written. */
  method WriteNext<W>(o: Ops<W>, subkey: array<Half<W>>, sub: array<Half<W>>, max: nat, i: nat, ghost was: seq<Half<W>>)
    requires IsMax(max) && max < subkey.Length && sub.Length == max + 2 && subkey != sub && Aligned(i, max)
    requires |was| == max + 2 && AbsorbedFrom(o, was, max, sub[..], 0) && MovedBelow(o, was, max, subkey[..], i)
    modifies subkey
    ensures MovedBelow(o, was, max, subkey[..], i + 8) && subkey[0] == old(subkey[0])
  {
    WrittenGoesOn(o, was, max, sub[..], subkey[..], i);
    WriteGroup(o, subkey, sub, max, i);
  }

  /** camellia_setup_tail. */
  method SetupTail<W>(o: Ops<W>, subkey: array<Half<W>>, sub: array<Half<W>>, max: nat)
    requires IsMax(max) && max < subkey.Length && sub.Length == max + 2 && subkey != sub
    modifies subkey, sub
    ensures IsFinalTable(o, old(sub[..]), max, subkey[..])
  {
    ghost var was := sub[..];
    AbsorbKw2(o, sub, max);
    AbsorbKw4(o, sub, max);
    PassesAbsorb(o, was, max);
    AbsorbedLast(o, was, max, sub[..], 0);
    WriteKeys(o, subkey, sub, max, was);
    UndoLastHalfOfP(o, subkey, max, was);
    FinalTable(o, was, max, subkey[..]);
  }

  // ----- What the passes leave behind

  /** A group of rounds is based at i: the groups of a table end exactly at max. */
  ghost predicate Aligned(i: nat, max: nat) {
    i + 8 == max || i + 16 == max || i + 24 == max || i + 32 == max
  }

  /** In s the odd-numbered round keys of the group based at i hold kw2; the rest of the group is as in sub. */
  ghost predicate Kw2Group<W>(o: Ops<W>, sub: seq<Half<W>>, max: nat, s: seq<Half<W>>, i: nat)
    requires |sub| == |s| == max + 2 && i + 8 <= max
  {
    && s[i + 3] == Odd(o, sub, max, i, 3) && s[i + 5] == Odd(o, sub, max, i, 5) && s[i + 7] == Odd(o, sub, max, i, 7)
    && s[i + 2] == sub[i + 2] && s[i + 4] == sub[i + 4] && s[i + 6] == sub[i + 6]
    && (i >= 8 ==> s[i] == sub[i] && s[i + 1] == sub[i + 1])
  }

  /** In s the even-numbered round keys of the group based at i hold kw4; the rest of the group is as in sub. */
  ghost predicate Kw4Group<W>(o: Ops<W>, sub: seq<Half<W>>, max: nat, s: seq<Half<W>>, i: nat)
    requires |sub| == |s| == max + 2 && i + 8 <= max
  {
    && s[i + 2] == Even(o, sub, max, i, 2) && s[i + 4] == Even(o, sub, max, i, 4) && s[i + 6] == Even(o, sub, max, i, 6)
    && s[i + 3] == sub[i + 3] && s[i + 5] == sub[i + 5] && s[i + 7] == sub[i + 7]
    && (i >= 8 ==> s[i] == sub[i] && s[i + 1] == sub[i + 1])
  }

  /** Kw2Group for the groups based at i and above. */
  ghost predicate Kw2From<W>(o: Ops<W>, sub: seq<Half<W>>, max: nat, s: seq<Half<W>>, i: nat)
    requires |sub| == |s| == max + 2 && i + 8 <= max
    decreases max - i
  {
    Kw2Group(o, sub, max, s, i) && (i + 16 <= max ==> Kw2From(o, sub, max, s, i + 8))
  }

  /** Kw4Group for the groups based at i and below. */
  ghost predicate Kw4Below<W>(o: Ops<W>, sub: seq<Half<W>>, max: nat, s: seq<Half<W>>, i: nat)
    requires |sub| == |s| == max + 2 && i + 8 <= max
    decreases i
  {
    Kw4Group(o, sub, max, s, i) && (i >= 8 ==> Kw4Below(o, sub, max, s, i - 8))
  }

  lemma {:induction false} Kw2Step<W>(o: Ops<W>, sub: seq<Half<W>>, max: nat, s: seq<Half<W>>, r: seq<Half<W>>, i: nat)
    requires |sub| == |s| == |r| == max + 2 && i + 8 <= max
    requires forall j :: i <= j < |s| && j != 1 ==> s[j] == sub[j]
    requires forall j :: i <= j < i + 8 && j != 1 ==> r[j] == Added(o, s, i + 3, Kw2(o, sub, i))[j]
    ensures Kw2Group(o, sub, max, r, i)
  {
  }

  /** The table Kw2Pass goes on with after the group based at i. */
  function Kw2Carried<W>(o: Ops<W>, s: seq<Half<W>>, i: nat): (r: seq<Half<W>>)
    requires i + 9 < |s|
    ensures |r| == |s|
  {
    var s1 := Added(o, s, i + 3, s[1]);
    s1[1 := Through(o, s1[1], s1[i + 9])]
  }

  lemma Kw2CarriedOk<W>(o: Ops<W>, sub: seq<Half<W>>, max: nat, s: seq<Half<W>>, i: nat)
    requires |sub| == |s| == max + 2 && i + 16 <= max && s[1] == Kw2(o, sub, i)
    requires forall j :: i <= j < |s| && j != 1 ==> s[j] == sub[j]
    ensures var s2 := Kw2Carried(o, s, i);
      && s2[1] == Kw2(o, sub, i + 8)
      && (forall j :: i + 8 <= j < |s| ==> s2[j] == sub[j])
      && (forall j :: 0 <= j < i + 8 && j != 1 ==> s2[j] == Added(o, s, i + 3, s[1])[j])
  {
  }

  lemma {:induction false} Kw2PassAbsorbs<W>(o: Ops<W>, sub: seq<Half<W>>, max: nat, s: seq<Half<W>>, i: nat)
    requires |sub| == |s| == max + 2 && Aligned(i, max) && s[1] == Kw2(o, sub, i)
    requires forall j :: i <= j < |s| && j != 1 ==> s[j] == sub[j]
    ensures var r := Kw2Pass(o, s, max, i);
      && (forall j :: 0 <= j < i + 2 && j != 1 ==> r[j] == s[j])
      && Kw2From(o, sub, max, r, i)
      && r[max] == Xor(o, sub[max], Kw2(o, sub, max - 8)) && r[max + 1] == sub[max + 1]
    decreases max - i
  {
    var r := Kw2Pass(o, s, max, i);
    if i + 16 <= max {
      var s2 := Kw2Carried(o, s, i);
      Kw2CarriedOk(o, sub, max, s, i);
      Kw2PassAbsorbs(o, sub, max, s2, i + 8);
      assert r == Kw2Pass(o, s2, max, i + 8);
    }
    Kw2Step(o, sub, max, s, r, i);
  }

  lemma {:induction false} Kw4Step<W>(o: Ops<W>, sub: seq<Half<W>>, max: nat, s: seq<Half<W>>, r: seq<Half<W>>, i: nat)
    requires |sub| == |s| == |r| == max + 2 && i + 8 <= max
    requires forall j :: 0 <= j < i + 8 ==> s[j] == sub[j]
    requires forall j :: i <= j < i + 8 && j != 0 ==> r[j] == Added(o, s, i + 2, Kw4(o, sub, max, i))[j]
    ensures Kw4Group(o, sub, max, r, i)
  {
  }

  lemma {:induction false} Kw4PassAbsorbs<W>(o: Ops<W>, sub: seq<Half<W>>, max: nat, s: seq<Half<W>>, i: nat)
    requires i in {0, 8, 16, 24} && i + 8 <= max && |sub| == |s| == max + 2
    requires forall j :: 0 <= j < i + 8 ==> s[j] == sub[j]
    ensures var r := Kw4Pass(o, s, Kw4(o, sub, max, i), i);
      && (forall j :: i + 8 <= j < |s| ==> r[j] == s[j])
      && Kw4Below(o, sub, max, r, i)
      && r[0] == Xor(o, sub[0], Kw4(o, sub, max, 0))
    decreases i
  {
    var kw4 := Kw4(o, sub, max, i);
    var s1 := Added(o, s, i + 2, kw4);
    var r := Kw4Pass(o, s, kw4, i);
    if i >= 8 {
      assert Kw4(o, sub, max, i - 8) == Through(o, kw4, s1[i]);
      Kw4PassAbsorbs(o, sub, max, s1, i - 8);
      assert r == Kw4Pass(o, s1, Through(o, kw4, s1[i]), i - 8);
    }
    Kw4Step(o, sub, max, s, r, i);
  }

  /** Absorbing kw2 leaves everything kw4's way back depends on. */
  lemma {:induction false} Kw4Unchanged<W>(o: Ops<W>, sub: seq<Half<W>>, max: nat, s: seq<Half<W>>, i: nat)
    requires |sub| == |s| == max + 2 && i + 8 <= max && s[max + 1] == sub[max + 1] && Kw2From(o, sub, max, s, i)
    ensures Kw4(o, s, max, i) == Kw4(o, sub, max, i)
    decreases max - i
  {
    if i + 16 <= max {
      Kw4Unchanged(o, sub, max, s, i + 8);
    }
  }

  ghost predicate AbsorbedGroup<W>(o: Ops<W>, sub: seq<Half<W>>, max: nat, s: seq<Half<W>>, i: nat)
    requires |sub| == |s| == max + 2 && i + 8 <= max
  {
    && s[i + 2] == Even(o, sub, max, i, 2) && s[i + 4] == Even(o, sub, max, i, 4)
    && s[i + 6] == Even(o, sub, max, i, 6)
    && s[i + 3] == Odd(o, sub, max, i, 3) && s[i + 5] == Odd(o, sub, max, i, 5) && s[i + 7] == Odd(o, sub, max, i, 7)
    && (i >= 8 ==> s[i] == sub[i] && s[i + 1] == sub[i + 1])
  }

  /** In s both kw2 and kw4 are absorbed in the groups based at i and above. */
  ghost predicate AbsorbedFrom<W>(o: Ops<W>, sub: seq<Half<W>>, max: nat, s: seq<Half<W>>, i: nat)
    requires |sub| == |s| == max + 2 && i + 8 <= max
    decreases max - i
  {
    AbsorbedGroup(o, sub, max, s, i) && (i + 16 <= max ==> AbsorbedFrom(o, sub, max, s, i + 8))
  }

  lemma {:induction false} BothAbsorbed<W>(o: Ops<W>, sub: seq<Half<W>>, max: nat, s: seq<Half<W>>, r: seq<Half<W>>,
                                           i: nat)
    requires |sub| == |s| == |r| == max + 2 && Aligned(i, max) && s[max + 1] == sub[max + 1]
    requires Kw2From(o, sub, max, s, i)
    requires forall j: nat :: Aligned(j, max) ==> Kw4Group(o, s, max, r, j)
    ensures AbsorbedFrom(o, sub, max, r, i)
    decreases max - i
  {
    Kw4Unchanged(o, sub, max, s, i);
    assert Aligned(i, max);
    if i + 16 <= max {
      BothAbsorbed(o, sub, max, s, r, i + 8);
    }
  }

  lemma Kw4EveryGroup<W>(o: Ops<W>, sub: seq<Half<W>>, max: nat, r: seq<Half<W>>)
    requires IsMax(max) && |sub| == |r| == max + 2 && Kw4Below(o, sub, max, r, max - 8)
    ensures forall j: nat :: Aligned(j, max) ==> Kw4Group(o, sub, max, r, j)
  {
  }

  lemma {:induction false} Kw4AfterKw2<W>(o: Ops<W>, sub: seq<Half<W>>, max: nat, s: seq<Half<W>>, r: seq<Half<W>>)
    requires IsMax(max) && |sub| == |s| == |r| == max + 2 && Kw2From(o, sub, max, s, 0)
    requires s[0] == sub[0] && s[max + 1] == sub[max + 1]
    requires Kw4Below(o, s, max, r, max - 8) && r[0] == Xor(o, s[0], Kw4(o, s, max, 0))
    ensures AbsorbedFrom(o, sub, max, r, 0)
    ensures r[0] == Xor(o, sub[0], Kw4(o, sub, max, 0))
  {
    Kw4EveryGroup(o, s, max, r);
    BothAbsorbed(o, sub, max, s, r, 0);
    Kw4Unchanged(o, sub, max, s, 0);
  }

  /** The table after both absorbing passes. */
  lemma {:induction false} PassesAbsorb<W>(o: Ops<W>, sub: seq<Half<W>>, max: nat)
    requires IsMax(max) && |sub| == max + 2
    ensures var s := Kw2Pass(o, sub, max, 0); var r := Kw4Pass(o, s, s[max + 1], max - 8);
      && AbsorbedFrom(o, sub, max, r, 0)
      && r[0] == Xor(o, sub[0], Kw4(o, sub, max, 0)) && r[max] == Xor(o, sub[max], Kw2(o, sub, max - 8))
  {
    var s := Kw2Pass(o, sub, max, 0);
    Kw2PassAbsorbs(o, sub, max, sub, 0);
    Kw4PassAbsorbs(o, s, max, s, max - 8);
    assert s[max + 1] == Kw4(o, s, max, max - 8);
    Kw4AfterKw2(o, sub, max, s, Kw4Pass(o, s, s[max + 1], max - 8));
  }

  /** GroupDone before the inverse of the last half of P is applied. */
  ghost predicate GroupMoved<W>(o: Ops<W>, sub: seq<Half<W>>, max: nat, key: seq<Half<W>>, i: nat)
    requires max < |key| && |sub| == max + 2 && i + 8 <= max
  {
    && key[i + 2] == Moved(o, sub, max, i, 2)
    && key[i + 3] == Moved(o, sub, max, i, 3)
    && key[i + 4] == Moved(o, sub, max, i, 4)
    && key[i + 5] == Moved(o, sub, max, i, 5)
    && key[i + 6] == Moved(o, sub, max, i, 6)
    && key[i + 7] == Moved(o, sub, max, i, 7)
    && (i >= 8 ==> key[i] == sub[i] && key[i + 1] == sub[i + 1])
  }

  /** Every group based below end has its keys moved. */
  ghost predicate MovedBelow<W>(o: Ops<W>, sub: seq<Half<W>>, max: nat, key: seq<Half<W>>, end: nat)
    requires max < |key| && |sub| == max + 2
  {
    forall j: nat :: Aligned(j, max) && j < end ==> GroupMoved(o, sub, max, key, j)
  }

  ghost predicate MovedAbove<W>(o: Ops<W>, sub: seq<Half<W>>, max: nat, key: seq<Half<W>>, first: nat)
    requires max < |key| && |sub| == max + 2
  {
    forall j: nat :: Aligned(j, max) && first <= j ==> GroupMoved(o, sub, max, key, j)
  }

  ghost predicate DoneBelow<W>(o: Ops<W>, sub: seq<Half<W>>, max: nat, key: seq<Half<W>>, end: nat)
    requires max < |key| && |sub| == max + 2
  {
    forall j: nat :: Aligned(j, max) && j < end ==> GroupDone(o, sub, max, key, j)
  }

  /** The group based at i, as written from the absorbed table. */
  lemma {:induction false} WriteStep<W>(o: Ops<W>, sub: seq<Half<W>>, max: nat, s: seq<Half<W>>, key: seq<Half<W>>,
                                        i: nat)
    requires max < |key| && |sub| == |s| == max + 2 && i + 8 <= max && AbsorbedFrom(o, sub, max, s, i)
    requires i >= 8 ==> s[i - 1] == Odd(o, sub, max, i - 8, 7)
    ensures GroupMoved(o, sub, max, GroupWritten(o, key, s, max, i), i)
  {
    if i + 16 <= max {
      assert AbsorbedGroup(o, sub, max, s, i + 8);
      assert s[i + 10] == Even(o, sub, max, i + 8, 2);
    }
  }

  lemma {:induction false} AbsorbedAt<W>(o: Ops<W>, sub: seq<Half<W>>, max: nat, s: seq<Half<W>>, i: nat, j: nat)
    requires |sub| == |s| == max + 2 && Aligned(i, max) && Aligned(j, max) && i <= j && AbsorbedFrom(o, sub, max, s, i)
    ensures AbsorbedFrom(o, sub, max, s, j) && (j > i ==> s[j - 1] == Odd(o, sub, max, j - 8, 7))
    decreases j - i
  {
    if j > i {
      AbsorbedAt(o, sub, max, s, i + 8, j);
    }
  }

  /** Writing the group based at i touches nothing below it. */
  lemma WrittenAround<W>(o: Ops<W>, key: seq<Half<W>>, s: seq<Half<W>>, max: nat, i: nat)
    requires max < |key| && |s| == max + 2 && i + 8 <= max
    ensures forall j :: 0 <= j < i || j == 0 ==> GroupWritten(o, key, s, max, i)[j] == key[j]
  {
  }

  lemma {:induction false} WrittenGoesOn<W>(o: Ops<W>, sub: seq<Half<W>>, max: nat, s: seq<Half<W>>,
                                            key: seq<Half<W>>, i: nat)
    requires IsMax(max) && max < |key| && |sub| == |s| == max + 2 && Aligned(i, max)
    requires AbsorbedFrom(o, sub, max, s, 0) && MovedBelow(o, sub, max, key, i)
    ensures MovedBelow(o, sub, max, GroupWritten(o, key, s, max, i), i + 8)
    ensures GroupWritten(o, key, s, max, i)[0] == key[0]
  {
    var r := GroupWritten(o, key, s, max, i);
    AbsorbedAt(o, sub, max, s, 0, i);
    WriteStep(o, sub, max, s, key, i);
    WrittenAround(o, key, s, max, i);
    forall j: nat | Aligned(j, max) && j < i + 8 ensures GroupMoved(o, sub, max, r, j) {
      if j < i {
        GroupMovedFrame(o, sub, max, key, r, j);
      }
    }
  }

  lemma MovedElsewhere<W>(o: Ops<W>, sub: seq<Half<W>>, max: nat, key: seq<Half<W>>, r: seq<Half<W>>)
    requires max < |key| && |r| == |key| && |sub| == max + 2 && MovedBelow(o, sub, max, key, max)
    requires forall j :: 0 <= j < max ==> r[j] == key[j]
    ensures MovedBelow(o, sub, max, r, max)
  {
  }

  lemma UndoStep<W>(o: Ops<W>, sub: seq<Half<W>>, max: nat, key: seq<Half<W>>, i: nat)
    requires max < |key| && |sub| == max + 2 && i + 8 <= max && GroupMoved(o, sub, max, key, i)
    ensures GroupDone(o, sub, max, GroupUndone(o, key, i), i)
  {
  }

  lemma UndoneAround<W>(o: Ops<W>, key: seq<Half<W>>, i: nat)
    requires i + 8 <= |key|
    ensures forall j :: 0 <= j < i + 2 || i + 8 <= j < |key| ==> GroupUndone(o, key, i)[j] == key[j]
  {
  }

  lemma GroupMovedFrame<W>(o: Ops<W>, sub: seq<Half<W>>, max: nat, key: seq<Half<W>>, r: seq<Half<W>>, i: nat)
    requires max < |key| && |r| == |key| && |sub| == max + 2 && i + 8 <= max && GroupMoved(o, sub, max, key, i)
    requires forall j :: i <= j < i + 8 ==> r[j] == key[j]
    ensures GroupMoved(o, sub, max, r, i)
  {
  }

  lemma GroupDoneFrame<W>(o: Ops<W>, sub: seq<Half<W>>, max: nat, key: seq<Half<W>>, r: seq<Half<W>>, i: nat)
    requires max < |key| && |r| == |key| && |sub| == max + 2 && i + 8 <= max && GroupDone(o, sub, max, key, i)
    requires forall j :: i <= j < i + 8 ==> r[j] == key[j]
    ensures GroupDone(o, sub, max, r, i)
  {
  }

  lemma UndoneGoesOn<W>(o: Ops<W>, sub: seq<Half<W>>, max: nat, key: seq<Half<W>>, i: nat)
    requires IsMax(max) && max < |key| && |sub| == max + 2 && Aligned(i, max)
    requires DoneBelow(o, sub, max, key, i) && MovedAbove(o, sub, max, key, i)
    ensures var r := GroupUndone(o, key, i); DoneBelow(o, sub, max, r, i + 8) && MovedAbove(o, sub, max, r, i + 8)
    ensures GroupUndone(o, key, i)[0] == key[0] && GroupUndone(o, key, i)[max] == key[max]
  {
    var r := GroupUndone(o, key, i);
    UndoStep(o, sub, max, key, i);
    UndoneAround(o, key, i);
    forall j: nat | Aligned(j, max) && j < i + 8 ensures GroupDone(o, sub, max, r, j) {
      if j < i {
        GroupDoneFrame(o, sub, max, key, r, j);
      }
    }
    forall j: nat | Aligned(j, max) && i + 8 <= j ensures GroupMoved(o, sub, max, r, j) {
      GroupMovedFrame(o, sub, max, key, r, j);
    }
  }

  lemma {:induction false} AllGroupsDone<W>(o: Ops<W>, sub: seq<Half<W>>, max: nat, key: seq<Half<W>>)
    requires IsMax(max) && max < |key| && |sub| == max + 2 && DoneBelow(o, sub, max, key, max)
    ensures GroupsDone(o, sub, max, key, max)
  {
    assert GroupDone(o, sub, max, key, 0) && GroupDone(o, sub, max, key, 8) && GroupDone(o, sub, max, key, 16);
    assert GroupsDone(o, sub, max, key, 8);
    assert GroupsDone(o, sub, max, key, 16);
    assert GroupsDone(o, sub, max, key, 24);
  }

  /** The ends and the groups together are the final table. */
  lemma {:induction false} FinalTable<W>(o: Ops<W>, sub: seq<Half<W>>, max: nat, key: seq<Half<W>>)
    requires IsMax(max) && max < |key| && |sub| == max + 2 && DoneBelow(o, sub, max, key, max)
    requires key[0] == Xor(o, Xor(o, sub[0], Kw4(o, sub, max, 0)), Even(o, sub, max, 0, 2))
    requires key[max] == Xor(o, Xor(o, sub[max], Kw2(o, sub, max - 8)), Odd(o, sub, max, max - 8, 7))
    ensures IsFinalTable(o, sub, max, key)
  {
    AllGroupsDone(o, sub, max, key);
  }

  lemma {:induction false} AbsorbedLast<W>(o: Ops<W>, sub: seq<Half<W>>, max: nat, s: seq<Half<W>>, i: nat)
    requires |sub| == |s| == max + 2 && Aligned(i, max) && AbsorbedFrom(o, sub, max, s, i)
    ensures s[max - 1] == Odd(o, sub, max, max - 8, 7)
    decreases max - i
  {
    if i + 16 <= max {
      AbsorbedLast(o, sub, max, s, i + 8);
    }
  }
}
