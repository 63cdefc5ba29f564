/** crypto_xor: the word-at-a-time loop is byte-wise exclusive or, and undoes itself. */
module CryptoXor {

  /** Exclusive or of bytes, and of machine words given by their four bytes. */
  datatype Ops<!B> = Ops(byte: (B, B) -> B, word: (seq<B>, seq<B>) -> seq<B>)

  /** Byte-wise exclusive or of the first n bytes of src into dst. */
  function Xored<B>(o: Ops<B>, dst: seq<B>, src: seq<B>, n: nat): (r: seq<B>)
    requires n <= |dst| && n <= |src|
    ensures |r| == |dst|
  {
    seq(|dst|, i requires 0 <= i < |dst| => if i < n then o.byte(dst[i], src[i]) else dst[i])
  }

  /** A word operation works on the four bytes one by one. */
  ghost predicate Laws<B(!new)>(o: Ops<B>) {
    && (forall a, b :: |a| == 4 && |b| == 4 ==>
      o.word(a, b) == [o.byte(a[0], b[0]), o.byte(a[1], b[1]), o.byte(a[2], b[2]), o.byte(a[3], b[3])])
    && (forall a, b :: o.byte(o.byte(a, b), b) == a)
  }

  /** crypto_xor_byte, from the byte at from on. */
  method XorBytes<B(!new)>(o: Ops<B>, dst: array<B>, src: seq<B>, from: nat, ghost was: seq<B>)
    requires |src| == dst.Length == |was| && from <= dst.Length && dst[..] == Xored(o, was, src, from)
    modifies dst
    ensures dst[..] == Xored(o, was, src, |src|)
  {
    var i := from;
    while i < |src|
      invariant from <= i <= |src| && dst[..] == Xored(o, was, src, i)
    {
      assert dst[i] == dst[..][i];
      XoredStep(o, was, src, i, 1);
      dst[i] := o.byte(dst[i], src[i]);
      i := i + 1;
    }
  }

  /** The next k bytes are done. */
  lemma XoredStep<B>(o: Ops<B>, was: seq<B>, src: seq<B>, n: nat, k: nat)
    requires |was| == |src| && n + k <= |src|
    ensures forall i :: 0 <= i < |was| ==>
      Xored(o, was, src, n + k)[i] ==
        if n <= i < n + k then o.byte(Xored(o, was, src, n)[i], src[i]) else Xored(o, was, src, n)[i]
  {
  }

  /** crypto_xor. */
  method Xor<B(!new)>(o: Ops<B>, dst: array<B>, src: seq<B>)
    requires Laws(o) && |src| == dst.Length
    modifies dst
    ensures dst[..] == Xored(o, old(dst[..]), src, |src|)
  {
    var i: nat := 0;
    ghost var was := dst[..];
    while |src| - i >= 4
      invariant i <= |src| && dst[..] == Xored(o, was, src, i)
    {
      XoredStep(o, was, src, i, 4);
      var w := o.word(dst[i..i + 4], src[i..i + 4]);
      ghost var s := dst[..];
      assert dst[i] == s[i] && dst[i + 1] == s[i + 1] && dst[i + 2] == s[i + 2] && dst[i + 3] == s[i + 3];
      dst[i], dst[i + 1], dst[i + 2], dst[i + 3] := w[0], w[1], w[2], w[3];
      i := i + 4;
    }
    XorBytes(o, dst, src, i, was);
  }

  /** Doing it twice gives the buffer back. */
  lemma XorUndoesItself<B(!new)>(o: Ops<B>, dst: seq<B>, src: seq<B>)
    requires Laws(o) && |src| == |dst|
    ensures Xored(o, Xored(o, dst, src, |src|), src, |src|) == dst
  {
  }
}

/** The exclusive or of a 32-bit word is that of its bytes. */
module CryptoXor32 {
  import opened CryptoXor

  function Join(a: bv8, b: bv8, c: bv8, d: bv8): bv32 {
    (a as bv32) | ((b as bv32) << 8) | ((c as bv32) << 16) | ((d as bv32) << 24)
  }

  function Byte0(w: bv32): bv8 {
    (w & 0xFF) as bv8
  }

  function Byte1(w: bv32): bv8 {
    ((w >> 8) & 0xFF) as bv8
  }

  function Byte2(w: bv32): bv8 {
    ((w >> 16) & 0xFF) as bv8
  }

  function Byte3(w: bv32): bv8 {
    ((w >> 24) & 0xFF) as bv8
  }

  function XorByte(a: bv8, b: bv8): bv8 {
    a ^ b
  }

  /** Two words of four bytes, read, combined and written back. */
  function XorWord(a: seq<bv8>, b: seq<bv8>): seq<bv8> {
    if |a| == 4 && |b| == 4 then
      var w := Join(a[0], a[1], a[2], a[3]) ^ Join(b[0], b[1], b[2], b[3]);
      [Byte0(w), Byte1(w), Byte2(w), Byte3(w)]
    else a
  }

  lemma BytesOfXor(a: bv8, b: bv8, c: bv8, d: bv8, e: bv8, f: bv8, g: bv8, h: bv8)
    ensures var w := Join(a, b, c, d) ^ Join(e, f, g, h);
      Byte0(w) == XorByte(a, e) && Byte1(w) == XorByte(b, f) && Byte2(w) == XorByte(c, g) && Byte3(w) == XorByte(d, h)
  {
  }

  lemma XorTwice(a: bv8, b: bv8)
    ensures XorByte(XorByte(a, b), b) == a
  {
  }

  lemma WordByBytes(a: seq<bv8>, b: seq<bv8>)
    requires |a| == 4 && |b| == 4
    ensures XorWord(a, b) == [XorByte(a[0], b[0]), XorByte(a[1], b[1]), XorByte(a[2], b[2]), XorByte(a[3], b[3])]
  {
    BytesOfXor(a[0], a[1], a[2], a[3], b[0], b[1], b[2], b[3]);
  }

  function Machine(): Ops<bv8> {
    Ops(XorByte, XorWord)
  }

  lemma AppliedByte(a: bv8, b: bv8)
    ensures Machine().byte(a, b) == XorByte(a, b)
  {
  }

  lemma AppliedWord(a: seq<bv8>, b: seq<bv8>)
    ensures Machine().word(a, b) == XorWord(a, b)
  {
  }

  lemma MachineWord(a: seq<bv8>, b: seq<bv8>)
    requires |a| == 4 && |b| == 4
    ensures var o := Machine();
      o.word(a, b) == [o.byte(a[0], b[0]), o.byte(a[1], b[1]), o.byte(a[2], b[2]), o.byte(a[3], b[3])]
  {
    AppliedWord(a, b);
    WordByBytes(a, b);
    AppliedByte(a[0], b[0]);
    AppliedByte(a[1], b[1]);
    AppliedByte(a[2], b[2]);
    AppliedByte(a[3], b[3]);
  }

  lemma MachineTwice(a: bv8, b: bv8)
    ensures Machine().byte(Machine().byte(a, b), b) == a
  {
    AppliedByte(Machine().byte(a, b), b);
    AppliedByte(a, b);
    XorTwice(a, b);
  }

  /** Bytes and words of the machine obey the laws. */
  lemma MachineLaws()
    ensures Laws(Machine())
  {
    var o := Machine();
    forall a, b | |a| == 4 && |b| == 4
      ensures o.word(a, b) == [o.byte(a[0], b[0]), o.byte(a[1], b[1]), o.byte(a[2], b[2]), o.byte(a[3], b[3])]
    {
      MachineWord(a, b);
    }
    forall a, b ensures o.byte(o.byte(a, b), b) == a {
      MachineTwice(a, b);
    }
  }
}
