/**
 The frame CRC on 16-bit words: the polynomial 0x8408 of the reflected CRC (appendix C.2 of RFC 1662)
 and the table of CRC16.cpp satisfy the laws of the CRC algebra.
 */
module Crc {
  import opened CrcAlgebra
  import opened CrcBits
  import opened CrcTable

  function Xor(a: bv16, b: bv16): bv16 {
    a ^ b
  }

  function Low(c: bv16): bv16 {
    c & 0x00FF
  }

  function Up(c: bv16): bv16 {
    c & 0xFF00
  }

  function Down(c: bv16): bv16 {
    c >> 8
  }

  function Lift(b: bv16): bv16 {
    b << 8
  }

  /** CRC16's operations. */
  function Itut(): Ops<bv16> {
    Ops(Xor, Bit, Low, Up, Down, Lift, Table)
  }

  // ----- The laws

  lemma BitXor(x: bv16, y: bv16)
    ensures Bit(x ^ y) == Bit(x) ^ Bit(y)
  {
    ShiftXor(x, y);
    LowXor(x, y);
    Regroup(x >> 1, y >> 1, 0x8408);
  }

  lemma ShiftXor(x: bv16, y: bv16)
    ensures (x ^ y) >> 1 == (x >> 1) ^ (y >> 1)
  {
  }

  lemma LowXor(x: bv16, y: bv16)
    ensures (x ^ y) & 1 == 1 <==> (x & 1 == 1 <==> y & 1 != 1)
  {
  }

  lemma Regroup(a: bv16, b: bv16, p: bv16)
    ensures (a ^ b) ^ p == (a ^ p) ^ b == a ^ (b ^ p) && (a ^ p) ^ (b ^ p) == a ^ b
  {
  }

  lemma AppliedBit(a: bv16)
    ensures Itut().bit(a) == Bit(a)
  {
  }

  lemma AppliedXor(a: bv16, b: bv16)
    ensures Itut().xor(a, b) == a ^ b
  {
  }

  lemma ItutLinear(x: bv16, y: bv16)
    ensures Itut().bit(Itut().xor(x, y)) == Itut().xor(Itut().bit(x), Itut().bit(y))
  {
    AppliedXor(x, y);
    AppliedBit(x ^ y);
    AppliedBit(x);
    AppliedBit(y);
    AppliedXor(Bit(x), Bit(y));
    BitXor(x, y);
  }

  lemma ItutInjective(x: bv16, y: bv16)
    requires Itut().bit(x) == Itut().bit(y)
    ensures x == y
  {
  }

  lemma ItutSteps()
    ensures StepLaws(Itut())
  {
    var o := Itut();
    forall x, y {:trigger At(x, y)} | At(x, y) ensures o.bit(o.xor(x, y)) == o.xor(o.bit(x), o.bit(y)) {
      ItutLinear(x, y);
    }
    forall x, y {:trigger At(x, y)} | At(x, y) && o.bit(x) == o.bit(y) ensures x == y {
      ItutInjective(x, y);
    }
  }

  /** A table entry is eight steps of its index. */
  lemma TableIsEight(i: bv16)
    requires i & 0xFF00 == 0
    ensures Table(i) == Eight(Itut(), i)
  {
    if i & 0x0080 == 0 {
      LowerHalf(i);
    } else if i & 0x0040 == 0 {
      ThirdQuarter(i);
    } else {
      FourthQuarter(i);
    }
  }

  // ----- Words

  lemma LowIsSmall(x: bv16)
    ensures (x & 0x00FF) & 0xFF00 == 0
  {
  }

  lemma AppliedParts(a: bv16)
    ensures Itut().low(a) == a & 0x00FF && Itut().up(a) == a & 0xFF00
    ensures Itut().down(a) == a >> 8
  {
  }

  lemma AppliedTable(a: bv16)
    ensures Itut().table(a) == Table(a)
  {
  }

  lemma ItutWord(c: bv16, d: bv16)
    requires IsByte(Itut(), d)
    ensures var o := Itut();
      var x := o.xor(c, d); x == o.xor(o.low(x), o.up(x)) && Eight(o, o.up(x)) == o.down(c)
  {
  }

  lemma ItutTable(c: bv16, d: bv16)
    ensures var o := Itut(); o.table(o.low(o.xor(c, d))) == Eight(o, o.low(o.xor(c, d)))
  {
    AppliedXor(c, d);
    AppliedParts(c ^ d);
    AppliedTable((c ^ d) & 0x00FF);
    LowIsSmall(c ^ d);
    TableIsEight((c ^ d) & 0x00FF);
  }

  /** CRC16's table and words obey the laws, so its loop computes the reference CRC. */
  lemma ItutLaws()
    ensures Laws(Itut())
  {
    ItutSteps();
    var o := Itut();
    forall c, d {:trigger At(c, d)} | At(c, d) && IsByte(o, d)
      ensures var x := o.xor(c, d); x == o.xor(o.low(x), o.up(x)) && Eight(o, o.up(x)) == o.down(c)
    {
      ItutWord(c, d);
    }
    forall c, d {:trigger At(c, d)} | At(c, d) ensures o.table(o.low(o.xor(c, d))) == Eight(o, o.low(o.xor(c, d))) {
      ItutTable(c, d);
    }
  }

  lemma WordsDiffer(c: bv16, a: bv16, b: bv16, a': bv16, b': bv16)
    requires a & 0x00FF == a && b & 0x00FF == b && a' & 0x00FF == a' && b' & 0x00FF == b'
    requires (c ^ a) ^ (b << 8) == (c ^ a') ^ (b' << 8)
    ensures a == a' && b == b'
  {
  }

  lemma ItutCancel(x: bv16, y: bv16, z: bv16)
    requires Itut().xor(x, z) == Itut().xor(y, z)
    ensures x == y
  {
  }

  lemma ItutLift(b: bv16)
    requires IsByte(Itut(), b)
    ensures Eight(Itut(), Itut().lift(b)) == b
  {
  }

  lemma ItutPair(c: bv16, a: bv16, b: bv16, a': bv16, b': bv16)
    requires Itut().low(a) == a && Itut().low(b) == b && Itut().low(a') == a' && Itut().low(b') == b'
    requires Itut().xor(Itut().xor(c, a), Itut().lift(b)) == Itut().xor(Itut().xor(c, a'), Itut().lift(b'))
    ensures a == a' && b == b'
  {
    AppliedLow(a);
    AppliedLow(b);
    AppliedLow(a');
    AppliedLow(b');
    AppliedWord(c, a, b);
    AppliedWord(c, a', b');
    WordsDiffer(c, a, b, a', b');
  }

  lemma AppliedLow(a: bv16)
    ensures Itut().low(a) == a & 0x00FF
  {
  }

  lemma AppliedWord(c: bv16, a: bv16, b: bv16)
    ensures Itut().xor(Itut().xor(c, a), Itut().lift(b)) == (c ^ a) ^ (b << 8)
  {
  }

  lemma ItutPairLaws()
    ensures PairLaws(Itut())
  {
    var o := Itut();
    forall x, y, z {:trigger At(x, y), At(y, z)} | At(x, y) && At(y, z) && o.xor(x, z) == o.xor(y, z) ensures x == y {
      ItutCancel(x, y, z);
    }
    forall c, b {:trigger At(c, b)} | At(c, b) && IsByte(o, b) ensures Eight(o, o.lift(b)) == b {
      ItutLift(b);
    }
    forall c, a, b, a', b' {:trigger At(c, a), At(a, b), At(a', b')} |
      At(c, a) && At(a, b) && At(a', b') && IsByte(o, a) && IsByte(o, b) && IsByte(o, a') && IsByte(o, b')
      && o.xor(o.xor(c, a), o.lift(b)) == o.xor(o.xor(c, a'), o.lift(b'))
      ensures a == a' && b == b'
    {
      ItutPair(c, a, b, a', b');
    }
  }

  // ----- Bursts

  lemma XorAssoc(a: bv16, b: bv16, c: bv16)
    ensures (a ^ b) ^ c == a ^ (b ^ c)
  {
  }

  lemma ItutAssoc(a: bv16, b: bv16, c: bv16)
    ensures var o := Itut(); o.xor(o.xor(a, b), c) == o.xor(a, o.xor(b, c))
  {
    XorAssoc(a, b, c);
    AppliedXor(a, b);
    AppliedXor(b, c);
    AppliedXor(a ^ b, c);
    AppliedXor(a, b ^ c);
  }

  lemma ItutOwnInverse(a: bv16, b: bv16)
    ensures var o := Itut(); o.xor(a, b) == o.xor(b, a) && o.xor(a, o.xor(a, b)) == b
  {
  }

  lemma ItutXorLaws()
    ensures XorLaws(Itut())
  {
    var o := Itut();
    forall a, b, c {:trigger At(a, b), At(b, c)} | At(a, b) && At(b, c)
      ensures o.xor(o.xor(a, b), c) == o.xor(a, o.xor(b, c))
    {
      ItutAssoc(a, b, c);
    }
    forall a, b {:trigger At(a, b)} | At(a, b) ensures o.xor(a, b) == o.xor(b, a) && o.xor(a, o.xor(a, b)) == b {
      ItutOwnInverse(a, b);
    }
  }

  lemma EightIsBits(c: bv16)
    ensures Eight(Itut(), c) == Bits8(c)
  {
  }

  lemma ItutBurst(a: bv16, b: bv16, d: bv16, a': bv16, b': bv16, d': bv16)
    requires Itut().low(a) == a && Itut().low(b) == b && Itut().low(d) == d
    requires Itut().low(a') == a' && Itut().low(b') == b' && Itut().low(d') == d'
    requires SpansSixteen(Itut().xor(a, a'), Itut().xor(d, d'))
    requires Eight(Itut(), Itut().xor(Eight(Itut(), Itut().xor(a, a')), Itut().xor(b, b'))) == Itut().xor(d, d')
    ensures a == a' && b == b' && d == d'
  {
    AppliedLow(a);
    AppliedLow(b);
    AppliedLow(d);
    AppliedLow(a');
    AppliedLow(b');
    AppliedLow(d');
    AppliedXor(a, a');
    AppliedXor(b, b');
    AppliedXor(d, d');
    EightIsBits(a ^ a');
    AppliedXor(Bits8(a ^ a'), b ^ b');
    EightIsBits(Bits8(a ^ a') ^ (b ^ b'));
    BurstOfBytes(a, b, d, a', b', d');
  }

  /** No change of up to sixteen bits in a row cancels out. */
  lemma ItutBurstLaws()
    ensures BurstLaws(Itut(), SpansSixteen)
  {
    var o := Itut();
    forall a, b, d, a', b', d' {:trigger At(a, a'), At(b, b'), At(d, d')} |
      && At(a, a') && At(b, b') && At(d, d') && Bytes(o, [a, b, d]) && Bytes(o, [a', b', d'])
      && SpansSixteen(o.xor(a, a'), o.xor(d, d'))
      && Eight(o, o.xor(Eight(o, o.xor(a, a')), o.xor(b, b'))) == o.xor(d, d')
      ensures a == a' && b == b' && d == d'
    {
      BytesAre(a, b, d);
      BytesAre(a', b', d');
      ItutBurst(a, b, d, a', b', d');
    }
  }

  lemma BytesAre(a: bv16, b: bv16, d: bv16)
    requires Bytes(Itut(), [a, b, d])
    ensures Itut().low(a) == a && Itut().low(b) == b && Itut().low(d) == d
  {
    var s := [a, b, d];
    assert IsByte(Itut(), s[0]) && IsByte(Itut(), s[1]) && IsByte(Itut(), s[2]);
  }
}
