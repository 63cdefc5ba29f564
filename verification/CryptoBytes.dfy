/** crypto_inc and crypto_xor: the word-at-a-time loops against the byte loops and against their meaning. */
module CryptoBytes {

  type Byte = b: nat | b < 256

  // ----- Big-endian numbers

  function Power(n: nat): (p: nat)
    ensures p > 0
  {
    if n == 0 then 1 else 256 * Power(n - 1)
  }

  /** The number a buffer stands for, most significant byte first. */
  function Value(s: seq<Byte>): nat {
    if s == [] then 0 else Value(s[..|s| - 1]) * 256 + s[|s| - 1]
  }

  lemma {:induction false} ValueBelow(s: seq<Byte>)
    ensures Value(s) < Power(|s|)
    decreases |s|
  {
    if s != [] {
      ValueBelow(s[..|s| - 1]);
    }
  }

  // ----- crypto_inc_byte

  /** The byte loop: bytes of 255 at the end become 0, and the byte before them is incremented. */
  function Incremented(s: seq<Byte>): (r: seq<Byte>)
    ensures |r| == |s|
  {
    if s == [] then []
    else
      var n := |s| - 1;
      if s[n] == 255 then Incremented(s[..n]) + [0] else s[..n] + [s[n] + 1]
  }

  /** Incrementing adds one, and wraps to zero at 256 to the length. */
  lemma {:induction false} IncrementedValue(s: seq<Byte>)
    ensures Value(Incremented(s)) == if Value(s) + 1 == Power(|s|) then 0 else Value(s) + 1
    decreases |s|
  {
    if s != [] {
      var n := |s| - 1;
      var a := s[..n];
      ValueBelow(a);
      if s[n] == 255 {
        var r := Incremented(a) + [0];
        assert r[..n] == Incremented(a);
        IncrementedValue(a);
      } else {
        var r := a + [s[n] + 1];
        assert r[..n] == a;
      }
    }
  }

  /** crypto_inc_byte on the first size bytes of a buffer. */
  method IncByte(a: array<Byte>, size: nat)
    requires size <= a.Length
    modifies a
    ensures a[..size] == Incremented(old(a[..size])) && a[size..] == old(a[size..])
  {
    var i: nat := size;
    while i > 0
      invariant 0 <= i <= size && a[..i] == old(a[..i]) && a[size..] == old(a[size..])
      invariant Incremented(old(a[..size])) == Incremented(a[..i]) + a[i..size]
    {
      i := i - 1;
      var c: Byte := if a[i] == 255 then 0 else a[i] + 1;
      assert a[..i + 1][..i] == a[..i];
      ghost var before := a[..i];
      ghost var tail := a[i + 1..size];
      a[i] := c;
      assert a[..i] == before && a[i..size] == [c] + tail;
      if c != 0 {
        assert a[..size] == a[..i] + a[i..size];
        return;
      }
    }
    assert a[..size] == a[0..size];
  }

  // ----- crypto_inc

  /** A buffer whose last four bytes are a word: the word is incremented, and only a carry goes on. */
  lemma {:induction false} WordIncrement(a: seq<Byte>, w: seq<Byte>)
    requires |w| == 4
    ensures Incremented(a + w) ==
      if w == [255, 255, 255, 255] then Incremented(a) + [0, 0, 0, 0] else a + Incremented(w)
  {
    TailIncrement(a, w);
    if w == [255, 255, 255, 255] {
      AllOnes(a, w, |w|);
      assert w[..|w|] == w;
      assert seq(|w|, _ => 0) == [0 as Byte, 0, 0, 0];
    }
  }

  lemma {:induction false} TailIncrement(a: seq<Byte>, w: seq<Byte>)
    ensures (exists i :: 0 <= i < |w| && w[i] != 255) ==> Incremented(a + w) == a + Incremented(w)
    decreases |w|
  {
    if w != [] {
      var n := |w| - 1;
      assert (a + w)[..|a + w| - 1] == a + w[..n] && (a + w)[|a + w| - 1] == w[n];
      if w[n] == 255 {
        TailIncrement(a, w[..n]);
        assert forall i :: 0 <= i < n ==> w[..n][i] == w[i];
        assert a + Incremented(w[..n]) + [0] == a + (Incremented(w[..n]) + [0]);
      } else {
        assert a + w[..n] + [w[n] + 1] == a + (w[..n] + [w[n] + 1]);
      }
    }
  }

  lemma {:induction false} AllOnes(a: seq<Byte>, w: seq<Byte>, k: nat)
    requires k <= |w| && forall i :: 0 <= i < |w| ==> w[i] == 255
    ensures Incremented(a + w[..k]) == Incremented(a) + seq(k, _ => 0)
    decreases k
  {
    if k == 0 {
      assert a + w[..0] == a && Incremented(a) + [] == Incremented(a);
    } else {
      var s := a + w[..k];
      assert s[..|s| - 1] == a + w[..k - 1] && s[|s| - 1] == 255;
      AllOnes(a, w, k - 1);
      assert seq(k, _ => 0) == seq(k - 1, _ => 0) + [0 as Byte];
    }
  }

  /** The n bytes of a number, most significant first: cpu_to_be32 for n = 4. */
  function Bytes(c: nat, n: nat): (w: seq<Byte>)
    requires c < Power(n)
    ensures |w| == n
  {
    if n == 0 then [] else Bytes(c / 256, n - 1) + [c % 256]
  }

  lemma {:induction false} BytesValue(c: nat, n: nat)
    requires c < Power(n)
    ensures Value(Bytes(c, n)) == c
    decreases n
  {
    if n > 0 {
      BytesValue(c / 256, n - 1);
      var w := Bytes(c, n);
      assert w[..n - 1] == Bytes(c / 256, n - 1);
    }
  }

  lemma {:induction false} ValueInjective(s: seq<Byte>, t: seq<Byte>)
    requires |s| == |t| && Value(s) == Value(t)
    ensures s == t
    decreases |s|
  {
    if s != [] {
      var n := |s| - 1;
      ValueInjective(s[..n], t[..n]);
      assert s == s[..n] + [s[n]] && t == t[..n] + [t[n]];
    }
  }

  /** A word holds the numbers below 2 to the 32. */
  lemma WordSize()
    ensures Power(4) == 0x1_0000_0000
  {
  }

  /** The number after v in a word of n bytes. */
  function Next(v: nat, n: nat): (c: nat)
    requires v < Power(n)
    ensures c < Power(n)
  {
    if v + 1 == Power(n) then 0 else v + 1
  }

  /** Incrementing a word as a number and through its bytes is the same; it carries exactly when it becomes zero. */
  lemma {:induction false} WordStep(w: seq<Byte>)
    ensures Value(w) < Power(|w|) && Incremented(w) == Bytes(Next(Value(w), |w|), |w|)
    ensures w != [] ==> (Next(Value(w), |w|) == 0 <==> forall i :: 0 <= i < |w| ==> w[i] == 255)
  {
    ValueBelow(w);
    IncrementedValue(w);
    BytesValue(Next(Value(w), |w|), |w|);
    ValueInjective(Incremented(w), Bytes(Next(Value(w), |w|), |w|));
    LargestIsAllOnes(w);
  }

  lemma {:induction false} LargestIsAllOnes(w: seq<Byte>)
    ensures Value(w) + 1 == Power(|w|) <==> forall i :: 0 <= i < |w| ==> w[i] == 255
    decreases |w|
  {
    if w != [] {
      var n := |w| - 1;
      ValueBelow(w[..n]);
      LargestIsAllOnes(w[..n]);
      assert forall i :: 0 <= i < n ==> w[..n][i] == w[i];
    }
  }

  /** One word of crypto_inc's loop: the word before at is incremented. */
  method IncWord(a: array<Byte>, at: nat) returns (c: nat)
    requires at + 4 <= a.Length
    modifies a
    ensures c == 0 <==> old(a[at..at + 4]) == [255, 255, 255, 255]
    ensures a[..] == old(a[..at]) + Incremented(old(a[at..at + 4])) + old(a[at + 4..])
  {
    var w := a[at..at + 4];
    WordStep(w);
    c := Next(Value(w), 4);
    var bytes := Bytes(c, 4);
    ghost var was := a[..];
    a[at], a[at + 1], a[at + 2], a[at + 3] := bytes[0], bytes[1], bytes[2], bytes[3];
    assert a[..] == was[..at] + bytes + was[at + 4..];
    assert bytes == Incremented(w);
  }

  /** The words from size on are done, and the carry goes on to the bytes before. */
  ghost predicate CarriesAt(was: seq<Byte>, now: seq<Byte>, size: nat) {
    && size <= |now| == |was| && now[..size] == was[..size]
    && Incremented(was) == Incremented(now[..size]) + now[size..]
  }

  lemma {:induction false} CarryStep(was: seq<Byte>, s: seq<Byte>, t: seq<Byte>, size: nat)
    requires CarriesAt(was, s, size) && size >= 4
    requires t == s[..size - 4] + Incremented(s[size - 4..size]) + s[size..]
    ensures if s[size - 4..size] == [255, 255, 255, 255] then CarriesAt(was, t, size - 4) else t == Incremented(was)
  {
    var head, word, tail := s[..size - 4], s[size - 4..size], s[size..];
    assert s[..size] == head + word;
    WordIncrement(head, word);
    Split(t, head, Incremented(word), tail);
    if word == [255, 255, 255, 255] {
      ZeroWord(word);
      assert was[..size - 4] == was[..size][..size - 4] == s[..size][..size - 4] == head;
      Regroup(Incremented(head), Incremented(word), tail);
    }
  }

  lemma Regroup(a: seq<Byte>, b: seq<Byte>, c: seq<Byte>)
    ensures a + b + c == a + (b + c)
  {
  }

  lemma {:induction false} ZeroWord(w: seq<Byte>)
    requires w == [255, 255, 255, 255]
    ensures Incremented(w) == [0, 0, 0, 0]
  {
    WordIncrement([], w);
    assert [] + w == w && Incremented([]) + [0 as Byte, 0, 0, 0] == [0, 0, 0, 0];
  }

  lemma Split(s: seq<Byte>, head: seq<Byte>, word: seq<Byte>, tail: seq<Byte>)
    requires s == head + word + tail
    ensures s[..|head|] == head && s[|head|..] == word + tail && head + (word + tail) == s
  {
  }

  lemma CarryStart(was: seq<Byte>)
    ensures CarriesAt(was, was, |was|)
  {
    assert was[..|was|] == was && was[|was|..] == [] && Incremented(was) + [] == Incremented(was);
  }

  /** crypto_inc: whole words from the end, then the bytes left over. */
  method Inc(a: array<Byte>)
    modifies a
    ensures a[..] == Incremented(old(a[..]))
  {
    var size: nat := a.Length;
    CarryStart(a[..]);
    while size >= 4
      invariant size <= a.Length && CarriesAt(old(a[..]), a[..], size)
    {
      ghost var s := a[..];
      assert a[..size - 4] == s[..size - 4] && a[size - 4..size] == s[size - 4..size] && a[size..] == s[size..];
      var c := IncWord(a, size - 4);
      CarryStep(old(a[..]), s, a[..], size);
      if c != 0 {
        return;
      }
      size := size - 4;
    }
    assert a[..size] == a[..][..size] && a[size..] == a[..][size..];
    IncByte(a, size);
    assert a[..] == a[..size] + a[size..];
  }
}
