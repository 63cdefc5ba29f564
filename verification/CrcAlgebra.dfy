/**
 The algebra of a reflected 16-bit CRC over any words with an exclusive or and a one-bit step: why a
 table of byte steps computes it, and why it detects every change of two adjacent bytes. Nothing here
 depends on the polynomial or on the representation of words.
 */
module CrcAlgebra {

  /**
   The operations of a CRC on words: exclusive or, the one-bit step, the low and high byte in place, the
   high byte moved down, a byte moved up, and the table.
   */
  datatype Ops<!W> = Ops(
    xor: (W, W) -> W, bit: W -> W, low: W -> W, up: W -> W, down: W -> W, lift: W -> W, table: W -> W)

  /** Where a law is used. */
  predicate At<W>(x: W, y: W) {
    true
  }

  function Eight<W>(o: Ops<W>, c: W): W {
    o.bit(o.bit(o.bit(o.bit(o.bit(o.bit(o.bit(o.bit(c))))))))
  }

  /** The reference: the byte is added to the low bits and shifted out bit by bit. */
  function BitStep<W>(o: Ops<W>, d: W, c: W): W {
    Eight(o, o.xor(c, d))
  }

  /** crc16_byte. */
  function TableStep<W>(o: Ops<W>, d: W, c: W): W {
    o.xor(o.table(o.low(o.xor(c, d))), o.down(c))
  }

  predicate IsByte<W(==)>(o: Ops<W>, d: W) {
    o.low(d) == d
  }

  /** The one-bit step is linear and loses nothing. */
  ghost predicate StepLaws<W(!new)>(o: Ops<W>) {
    && (forall x, y {:trigger At(x, y)} :: At(x, y) ==> o.bit(o.xor(x, y)) == o.xor(o.bit(x), o.bit(y)))
    && (forall x, y {:trigger At(x, y)} :: At(x, y) && o.bit(x) == o.bit(y) ==> x == y)
  }

  /** A word is its two bytes; adding a byte leaves the high byte alone, which falls through eight steps. */
  ghost predicate WordLaws<W(!new)>(o: Ops<W>) {
    && (forall c, d {:trigger At(c, d)} :: At(c, d) && IsByte(o, d) ==>
      var x := o.xor(c, d); x == o.xor(o.low(x), o.up(x)) && Eight(o, o.up(x)) == o.down(c))
    && (forall c, d {:trigger At(c, d)} :: At(c, d) ==> o.table(o.low(o.xor(c, d))) == Eight(o, o.low(o.xor(c, d))))
  }

  ghost predicate Laws<W(!new)>(o: Ops<W>) {
    StepLaws(o) && WordLaws(o)
  }

  lemma EightXor<W(!new)>(o: Ops<W>, x: W, y: W)
    requires StepLaws(o)
    ensures Eight(o, o.xor(x, y)) == o.xor(Eight(o, x), Eight(o, y))
  {
    var x1, y1 := o.bit(x), o.bit(y);
    var x2, y2 := o.bit(x1), o.bit(y1);
    var x3, y3 := o.bit(x2), o.bit(y2);
    var x4, y4 := o.bit(x3), o.bit(y3);
    var x5, y5 := o.bit(x4), o.bit(y4);
    var x6, y6 := o.bit(x5), o.bit(y5);
    var x7, y7 := o.bit(x6), o.bit(y6);
    assert At(x, y) && At(x1, y1) && At(x2, y2) && At(x3, y3) && At(x4, y4) && At(x5, y5) && At(x6, y6) && At(x7, y7);
  }

  lemma EightInjective<W(!new)>(o: Ops<W>, x: W, y: W)
    requires StepLaws(o) && Eight(o, x) == Eight(o, y)
    ensures x == y
  {
    var x1, y1 := o.bit(x), o.bit(y);
    var x2, y2 := o.bit(x1), o.bit(y1);
    var x3, y3 := o.bit(x2), o.bit(y2);
    var x4, y4 := o.bit(x3), o.bit(y3);
    var x5, y5 := o.bit(x4), o.bit(y4);
    var x6, y6 := o.bit(x5), o.bit(y5);
    var x7, y7 := o.bit(x6), o.bit(y6);
    assert At(x, y) && At(x1, y1) && At(x2, y2) && At(x3, y3) && At(x4, y4) && At(x5, y5) && At(x6, y6) && At(x7, y7);
  }

  /** The table step is the bit-at-a-time step. */
  lemma TableStepIsBitStep<W(!new)>(o: Ops<W>, d: W, c: W)
    requires Laws(o) && IsByte(o, d)
    ensures TableStep(o, d, c) == BitStep(o, d, c)
  {
    var x := o.xor(c, d);
    assert At(c, d);
    EightXor(o, o.low(x), o.up(x));
  }

  // ----- Messages

  ghost predicate Bytes<W>(o: Ops<W>, data: seq<W>) {
    forall i :: 0 <= i < |data| ==> IsByte(o, data[i])
  }

  /** The reference CRC of a message, from a starting value. */
  function Bitwise<W>(o: Ops<W>, c: W, data: seq<W>): W
    decreases |data|
  {
    if data == [] then c else Bitwise(o, BitStep(o, data[0], c), data[1..])
  }

  /** crc16 with three arguments: the loop over the table computes the reference CRC. */
  method Crc16<W(!new)>(o: Ops<W>, start: W, data: seq<W>) returns (crc: W)
    requires Laws(o) && Bytes(o, data)
    ensures crc == Bitwise(o, start, data)
  {
    crc := start;
    var i := 0;
    assert data[0..] == data;
    while i < |data|
      invariant i <= |data| && Bitwise(o, start, data) == Bitwise(o, crc, data[i..])
    {
      TableStepIsBitStep(o, data[i], crc);
      assert data[i..][0] == data[i] && data[i..][1..] == data[i + 1..];
      crc := TableStep(o, data[i], crc);
      i := i + 1;
    }
  }

  lemma {:induction false} BitwiseConcat<W>(o: Ops<W>, c: W, a: seq<W>, b: seq<W>)
    ensures Bitwise(o, c, a + b) == Bitwise(o, Bitwise(o, c, a), b)
    decreases |a|
  {
    if a == [] {
      assert a + b == b;
    } else {
      assert (a + b)[0] == a[0] && (a + b)[1..] == a[1..] + b;
      BitwiseConcat(o, BitStep(o, a[0], c), a[1..], b);
    }
  }

  // ----- What it detects

  /** Exclusive or cancels, and a word takes in two bytes without mixing them. */
  ghost predicate PairLaws<W(!new)>(o: Ops<W>) {
    && (forall x, y, z {:trigger At(x, y), At(y, z)} :: At(x, y) && At(y, z) && o.xor(x, z) == o.xor(y, z) ==> x == y)
    && (forall c, b {:trigger At(c, b)} :: At(c, b) && IsByte(o, b) ==> Eight(o, o.lift(b)) == b)
    && (forall c, a, b, a', b' {:trigger At(c, a), At(a, b), At(a', b')} ::
      (At(c, a) && At(a, b) && At(a', b') && IsByte(o, a) && IsByte(o, b) && IsByte(o, a') && IsByte(o, b')
        && o.xor(o.xor(c, a), o.lift(b)) == o.xor(o.xor(c, a'), o.lift(b'))) ==> a == a' && b == b')
  }

  /** Two CRC states that differ stay different over the same bytes. */
  lemma {:induction false} DifferenceStays<W(!new)>(o: Ops<W>, c: W, d: W, data: seq<W>)
    requires Laws(o) && PairLaws(o) && c != d
    ensures Bitwise(o, c, data) != Bitwise(o, d, data)
    decreases |data|
  {
    if data != [] {
      StepsDiffer(o, data[0], c, d);
      DifferenceStays(o, BitStep(o, data[0], c), BitStep(o, data[0], d), data[1..]);
    }
  }

  lemma StepsDiffer<W(!new)>(o: Ops<W>, x: W, c: W, d: W)
    requires Laws(o) && PairLaws(o) && c != d
    ensures BitStep(o, x, c) != BitStep(o, x, d)
  {
    if BitStep(o, x, c) == BitStep(o, x, d) {
      StepCancels(o, x, c, d);
      assert false;
    }
  }

  lemma StepCancels<W(!new)>(o: Ops<W>, x: W, c: W, d: W)
    requires Laws(o) && PairLaws(o) && BitStep(o, x, c) == BitStep(o, x, d)
    ensures c == d
  {
    EightInjective(o, o.xor(c, x), o.xor(d, x));
    assert At(c, d) && At(d, x);
  }

  /** Two bytes are taken in as one word. */
  lemma TwoBytes<W(!new)>(o: Ops<W>, c: W, a: W, b: W)
    requires Laws(o) && PairLaws(o) && IsByte(o, b)
    ensures BitStep(o, b, BitStep(o, a, c)) == Eight(o, Eight(o, o.xor(o.xor(c, a), o.lift(b))))
  {
    assert At(c, b);
    EightXor(o, o.xor(c, a), o.lift(b));
  }

  lemma TwoBytesCancel<W(!new)>(o: Ops<W>, c: W, a: W, b: W, a': W, b': W)
    requires Laws(o) && PairLaws(o) && IsByte(o, a) && IsByte(o, b) && IsByte(o, a') && IsByte(o, b')
    requires BitStep(o, b, BitStep(o, a, c)) == BitStep(o, b', BitStep(o, a', c))
    ensures a == a' && b == b'
  {
    TwoBytes(o, c, a, b);
    TwoBytes(o, c, a', b');
    var x, y := o.xor(o.xor(c, a), o.lift(b)), o.xor(o.xor(c, a'), o.lift(b'));
    EightInjective(o, Eight(o, x), Eight(o, y));
    EightInjective(o, x, y);
    assert At(c, a) && At(a, b) && At(a', b');
  }

  /** Messages whose middle leaves different states have different CRCs. */
  lemma {:induction false} MiddleIsDetected<W(!new)>(o: Ops<W>, c: W, pre: seq<W>, mid: seq<W>, mid': seq<W>,
                                              post: seq<W>)
    requires Laws(o) && PairLaws(o) && Bitwise(o, Bitwise(o, c, pre), mid) != Bitwise(o, Bitwise(o, c, pre), mid')
    ensures Bitwise(o, c, pre + mid + post) != Bitwise(o, c, pre + mid' + post)
  {
    BitwiseConcat(o, c, pre + mid, post);
    BitwiseConcat(o, c, pre, mid);
    BitwiseConcat(o, c, pre + mid', post);
    BitwiseConcat(o, c, pre, mid');
    DifferenceStays(o, Bitwise(o, Bitwise(o, c, pre), mid), Bitwise(o, Bitwise(o, c, pre), mid'), post);
  }

  lemma {:induction false} TwoSteps<W>(o: Ops<W>, s: W, a: W, b: W)
    ensures Bitwise(o, s, [a, b]) == BitStep(o, b, BitStep(o, a, s))
  {
    assert [a, b][1..] == [b] && [b][1..] == [];
    assert Bitwise(o, s, [a, b]) == Bitwise(o, BitStep(o, a, s), [b]);
    assert Bitwise(o, BitStep(o, a, s), [b]) == Bitwise(o, BitStep(o, b, BitStep(o, a, s)), []);
  }

  lemma {:induction false} ThreeSteps<W>(o: Ops<W>, s: W, a: W, b: W, d: W)
    ensures Bitwise(o, s, [a, b, d]) == BitStep(o, d, BitStep(o, b, BitStep(o, a, s)))
  {
    assert [a, b, d][1..] == [b, d];
    TwoSteps(o, BitStep(o, a, s), b, d);
  }

  /** Changing two adjacent bytes, or one of them, changes the CRC. */
  lemma {:induction false} PairIsDetected<W(!new)>(o: Ops<W>, c: W, pre: seq<W>, a: W, b: W, a': W, b': W, post: seq<W>)
    requires Laws(o) && PairLaws(o) && IsByte(o, a) && IsByte(o, b) && IsByte(o, a') && IsByte(o, b')
    requires a != a' || b != b'
    ensures Bitwise(o, c, pre + [a, b] + post) != Bitwise(o, c, pre + [a', b'] + post)
  {
    var s := Bitwise(o, c, pre);
    TwoSteps(o, s, a, b);
    TwoSteps(o, s, a', b');
    if BitStep(o, b, BitStep(o, a, s)) == BitStep(o, b', BitStep(o, a', s)) {
      TwoBytesCancel(o, s, a, b, a', b');
      assert false;
    }
    MiddleIsDetected(o, c, pre, [a, b], [a', b'], post);
  }

  // ----- Bursts

  /** Exclusive or is that of a group in which every element is its own inverse. */
  ghost predicate XorLaws<W(!new)>(o: Ops<W>) {
    && (forall a, b, c {:trigger At(a, b), At(b, c)} :: At(a, b) && At(b, c) ==>
      o.xor(o.xor(a, b), c) == o.xor(a, o.xor(b, c)))
    && (forall a, b {:trigger At(a, b)} :: At(a, b) ==> o.xor(a, b) == o.xor(b, a))
    && (forall a, b {:trigger At(a, b)} :: At(a, b) ==> o.xor(a, o.xor(a, b)) == b)
  }

  lemma Interchange<W(!new)>(o: Ops<W>, a: W, b: W, c: W, d: W)
    requires XorLaws(o)
    ensures o.xor(o.xor(a, b), o.xor(c, d)) == o.xor(o.xor(a, c), o.xor(b, d))
  {
    var cd, bd := o.xor(c, d), o.xor(b, d);
    assert At(a, b) && At(b, cd);
    assert At(b, c) && At(c, d);
    assert At(c, b) && At(b, d);
    assert At(a, c) && At(c, bd);
  }

  /** c + a and c + b differ as a and b do. */
  lemma Common<W(!new)>(o: Ops<W>, a: W, b: W, c: W)
    requires XorLaws(o)
    ensures o.xor(o.xor(c, a), o.xor(c, b)) == o.xor(a, b)
  {
    var cb := o.xor(c, b);
    assert At(c, a) && At(a, c);
    assert At(a, c) && At(c, cb);
    assert At(c, b);
  }

  lemma Transposes<W(!new)>(o: Ops<W>, a: W, b: W, c: W, d: W)
    requires XorLaws(o) && o.xor(a, b) == o.xor(c, d)
    ensures o.xor(a, c) == o.xor(b, d)
  {
    Interchange(o, a, b, c, d);
    var x, y, z := o.xor(a, b), o.xor(a, c), o.xor(b, d);
    assert At(x, x) && At(y, z) && At(y, y);
    SelfIsNeutral(o, x, y, z);
  }

  /** x + x == y + z makes y and z equal. */
  lemma SelfIsNeutral<W(!new)>(o: Ops<W>, x: W, y: W, z: W)
    requires XorLaws(o) && o.xor(x, x) == o.xor(y, z)
    ensures y == z
  {
    var e := o.xor(x, x);
    assert At(y, z);
    assert At(x, x) && At(x, y) && At(e, y);
    assert At(y, e);
  }

  /** A change x, y, z of three bytes within the span does not cancel out. */
  ghost predicate BurstLaws<W(!new)>(o: Ops<W>, spans: (W, W) -> bool) {
    forall a, b, d, a', b', d' {:trigger At(a, a'), At(b, b'), At(d, d')} ::
      (At(a, a') && At(b, b') && At(d, d') && Bytes(o, [a, b, d]) && Bytes(o, [a', b', d'])
       && spans(o.xor(a, a'), o.xor(d, d'))
       && Eight(o, o.xor(Eight(o, o.xor(a, a')), o.xor(b, b'))) == o.xor(d, d')) ==> a == a' && b == b' && d == d'
  }

  lemma BurstCancels<W(!new)>(o: Ops<W>, c: W, a: W, b: W, d: W, a': W, b': W, d': W)
    requires StepLaws(o) && XorLaws(o)
    requires BitStep(o, d, BitStep(o, b, BitStep(o, a, c))) == BitStep(o, d', BitStep(o, b', BitStep(o, a', c)))
    ensures Eight(o, o.xor(Eight(o, o.xor(a, a')), o.xor(b, b'))) == o.xor(d, d')
  {
    var p, p' := BitStep(o, a, c), BitStep(o, a', c);
    var q, q' := BitStep(o, b, p), BitStep(o, b', p');
    EightInjective(o, o.xor(q, d), o.xor(q', d'));
    Transposes(o, q, d, q', d');
    EightXor(o, o.xor(p, b), o.xor(p', b'));
    Interchange(o, p, b, p', b');
    EightXor(o, o.xor(c, a), o.xor(c, a'));
    Common(o, a, a', c);
  }

  /** Changing bits of three adjacent bytes within the span changes the CRC. */
  lemma {:induction false} BurstIsDetected<W(!new)>(o: Ops<W>, spans: (W, W) -> bool, c: W, pre: seq<W>,
                                                    mid: seq<W>, mid': seq<W>, post: seq<W>)
    requires Laws(o) && PairLaws(o) && XorLaws(o) && BurstLaws(o, spans) && |mid| == |mid'| == 3 && mid != mid'
    requires Bytes(o, mid) && Bytes(o, mid') && spans(o.xor(mid[0], mid'[0]), o.xor(mid[2], mid'[2]))
    ensures Bitwise(o, c, pre + mid + post) != Bitwise(o, c, pre + mid' + post)
  {
    var s, a, b, d, a', b', d' := Bitwise(o, c, pre), mid[0], mid[1], mid[2], mid'[0], mid'[1], mid'[2];
    assert mid == [a, b, d] && mid' == [a', b', d'];
    ThreeSteps(o, s, a, b, d);
    ThreeSteps(o, s, a', b', d');
    if Bitwise(o, s, mid) == Bitwise(o, s, mid') {
      BurstCancels(o, s, a, b, d, a', b', d');
      assert At(a, a') && At(b, b') && At(d, d');
      assert false;
    }
    MiddleIsDetected(o, c, pre, mid, mid', post);
  }
}
