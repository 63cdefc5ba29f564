/**
 The kernel's F and FL functions against section 2.4 of RFC 3713, byte by byte. The tables hold the value of an S-box
 in three of their four bytes, as their names say; the S-boxes themselves may be any.
 */
module CamelliaRfc {
  import opened Camellia
  import opened Camellia32
  import opened WordBytes

  /** SBOX1 to SBOX4, on byte values. */
  datatype Boxes = Boxes(s1: bv32 -> bv32, s2: bv32 -> bv32, s3: bv32 -> bv32, s4: bv32 -> bv32)

  /** camellia_sp1110 has the value of SBOX1 in its first three bytes and 0 in the last, and so on. */
  ghost predicate Spread(t: Tables, s: Boxes) {
    && (forall i :: var w := t.sp1110(i); B0(w) == s.s1(i) && B1(w) == s.s1(i) && B2(w) == s.s1(i) && B3(w) == 0)
    && (forall i :: var w := t.sp0222(i); B0(w) == 0 && B1(w) == s.s2(i) && B2(w) == s.s2(i) && B3(w) == s.s2(i))
    && (forall i :: var w := t.sp3033(i); B0(w) == s.s3(i) && B1(w) == 0 && B2(w) == s.s3(i) && B3(w) == s.s3(i))
    && (forall i :: var w := t.sp4404(i); B0(w) == s.s4(i) && B1(w) == s.s4(i) && B2(w) == 0 && B3(w) == s.s4(i))
  }

  /** What the four tables yield together. */
  function Looked(t: Tables, i: bv32, j: bv32, k: bv32, l: bv32): bv32 {
    t.sp1110(i) ^ t.sp0222(j) ^ t.sp3033(k) ^ t.sp4404(l)
  }

  lemma Looked0(t: Tables, s: Boxes, i: bv32, j: bv32, k: bv32, l: bv32)
    requires Spread(t, s)
    ensures B0(Looked(t, i, j, k, l)) == Sum(s.s1(i), s.s3(k), s.s4(l))
  {
    Sum0(t.sp1110(i), t.sp0222(j), t.sp3033(k), t.sp4404(l));
  }

  lemma Looked1(t: Tables, s: Boxes, i: bv32, j: bv32, k: bv32, l: bv32)
    requires Spread(t, s)
    ensures B1(Looked(t, i, j, k, l)) == Sum(s.s1(i), s.s2(j), s.s4(l))
  {
    Sum1(t.sp1110(i), t.sp0222(j), t.sp3033(k), t.sp4404(l));
  }

  lemma Looked2(t: Tables, s: Boxes, i: bv32, j: bv32, k: bv32, l: bv32)
    requires Spread(t, s)
    ensures B2(Looked(t, i, j, k, l)) == Sum(s.s1(i), s.s2(j), s.s3(k))
  {
    Sum2(t.sp1110(i), t.sp0222(j), t.sp3033(k), t.sp4404(l));
  }

  lemma Looked3(t: Tables, s: Boxes, i: bv32, j: bv32, k: bv32, l: bv32)
    requires Spread(t, s)
    ensures B3(Looked(t, i, j, k, l)) == Sum(s.s2(j), s.s3(k), s.s4(l))
  {
    Sum3(t.sp1110(i), t.sp0222(j), t.sp3033(k), t.sp4404(l));
  }

  // ----- The F-function

  lemma LeftIsLooked(t: Tables, w: bv32)
    ensures LeftBoxes(t, w) == Looked(t, B0(w), B1(w), B2(w), B3(w))
  {
  }

  lemma RightIsLooked(t: Tables, w: bv32)
    ensures RightBoxes(t, w) == Looked(t, B3(w), B0(w), B1(w), B2(w))
  {
  }

  /** The rotations are rotations. */
  lemma RotationsAre(a: bv32)
    ensures Rol1(a) == a.RotateLeft(1) && Rol8(a) == a.RotateLeft(8) && Ror8(a) == a.RotateRight(8)
  {
  }

  lemma AppliedBoxes(t: Tables, a: bv32)
    ensures Kernel(t).sLeft(a) == LeftBoxes(t, a) && Kernel(t).sRight(a) == RightBoxes(t, a)
  {
  }

  lemma KernelXorBytes(t: Tables, u: bv32, v: bv32)
    ensures var w := Kernel(t).xor(u, v);
      && B0(w) == Both(B0(u), B0(v)) && B1(w) == Both(B1(u), B1(v))
      && B2(w) == Both(B2(u), B2(v)) && B3(w) == Both(B3(u), B3(v))
  {
    AppliedXor(t, u, v);
    XorBytes(u, v);
  }

  lemma KernelRorBytes(t: Tables, w: bv32)
    ensures var r := Kernel(t).ror8(w); B0(r) == B3(w) && B1(r) == B0(w) && B2(r) == B1(w) && B3(r) == B2(w)
  {
    AppliedRotations(t, w);
    RotationsAre(w);
    RotatedBytes(w);
  }

  /** The two words that CAMELLIA_F looks up, and its result. */
  lemma FParts<W>(o: Ops<W>, x: Half<W>, k: Half<W>)
    ensures var z := Xor(o, x, k); var left, right := o.sLeft(z.l), o.sRight(z.r);
      F(o, x, k) == Half(o.xor(right, left), o.xor(o.ror8(left), o.xor(right, left)))
  {
  }

  lemma Left0(t: Tables, s: Boxes, w: bv32)
    requires Spread(t, s)
    ensures B0(Kernel(t).sLeft(w)) == Sum(s.s1(B0(w)), s.s3(B2(w)), s.s4(B3(w)))
  {
    AppliedBoxes(t, w);
    LeftIsLooked(t, w);
    Looked0(t, s, B0(w), B1(w), B2(w), B3(w));
  }

  lemma Right0(t: Tables, s: Boxes, w: bv32)
    requires Spread(t, s)
    ensures B0(Kernel(t).sRight(w)) == Sum(s.s1(B3(w)), s.s3(B1(w)), s.s4(B2(w)))
  {
    AppliedBoxes(t, w);
    RightIsLooked(t, w);
    Looked0(t, s, B3(w), B0(w), B1(w), B2(w));
  }

  lemma Left1(t: Tables, s: Boxes, w: bv32)
    requires Spread(t, s)
    ensures B1(Kernel(t).sLeft(w)) == Sum(s.s1(B0(w)), s.s2(B1(w)), s.s4(B3(w)))
  {
    AppliedBoxes(t, w);
    LeftIsLooked(t, w);
    Looked1(t, s, B0(w), B1(w), B2(w), B3(w));
  }

  lemma Right1(t: Tables, s: Boxes, w: bv32)
    requires Spread(t, s)
    ensures B1(Kernel(t).sRight(w)) == Sum(s.s1(B3(w)), s.s2(B0(w)), s.s4(B2(w)))
  {
    AppliedBoxes(t, w);
    RightIsLooked(t, w);
    Looked1(t, s, B3(w), B0(w), B1(w), B2(w));
  }

  lemma Left2(t: Tables, s: Boxes, w: bv32)
    requires Spread(t, s)
    ensures B2(Kernel(t).sLeft(w)) == Sum(s.s1(B0(w)), s.s2(B1(w)), s.s3(B2(w)))
  {
    AppliedBoxes(t, w);
    LeftIsLooked(t, w);
    Looked2(t, s, B0(w), B1(w), B2(w), B3(w));
  }

  lemma Right2(t: Tables, s: Boxes, w: bv32)
    requires Spread(t, s)
    ensures B2(Kernel(t).sRight(w)) == Sum(s.s1(B3(w)), s.s2(B0(w)), s.s3(B1(w)))
  {
    AppliedBoxes(t, w);
    RightIsLooked(t, w);
    Looked2(t, s, B3(w), B0(w), B1(w), B2(w));
  }

  lemma Left3(t: Tables, s: Boxes, w: bv32)
    requires Spread(t, s)
    ensures B3(Kernel(t).sLeft(w)) == Sum(s.s2(B1(w)), s.s3(B2(w)), s.s4(B3(w)))
  {
    AppliedBoxes(t, w);
    LeftIsLooked(t, w);
    Looked3(t, s, B0(w), B1(w), B2(w), B3(w));
  }

  lemma Right3(t: Tables, s: Boxes, w: bv32)
    requires Spread(t, s)
    ensures B3(Kernel(t).sRight(w)) == Sum(s.s2(B0(w)), s.s3(B1(w)), s.s4(B2(w)))
  {
    AppliedBoxes(t, w);
    RightIsLooked(t, w);
    Looked3(t, s, B3(w), B0(w), B1(w), B2(w));
  }

  // ----- The bytes of F, one by one; z is the input with the key added

  lemma Y1(t: Tables, s: Boxes, z: Half<bv32>)
    requires Spread(t, s)
    ensures B0(Kernel(t).xor(Kernel(t).sRight(z.r), Kernel(t).sLeft(z.l))) ==
      Six(s.s1(B0(z.l)), s.s3(B2(z.l)), s.s4(B3(z.l)), s.s3(B1(z.r)), s.s4(B2(z.r)), s.s1(B3(z.r)))
  {
    Left0(t, s, z.l);
    Right0(t, s, z.r);
    KernelXorBytes(t, Kernel(t).sRight(z.r), Kernel(t).sLeft(z.l));
    UpperMix(s.s1(B3(z.r)), s.s3(B1(z.r)), s.s4(B2(z.r)), s.s1(B0(z.l)), s.s3(B2(z.l)), s.s4(B3(z.l)));
  }

  lemma Y2(t: Tables, s: Boxes, z: Half<bv32>)
    requires Spread(t, s)
    ensures B1(Kernel(t).xor(Kernel(t).sRight(z.r), Kernel(t).sLeft(z.l))) ==
      Six(s.s1(B0(z.l)), s.s2(B1(z.l)), s.s4(B3(z.l)), s.s2(B0(z.r)), s.s4(B2(z.r)), s.s1(B3(z.r)))
  {
    Left1(t, s, z.l);
    Right1(t, s, z.r);
    KernelXorBytes(t, Kernel(t).sRight(z.r), Kernel(t).sLeft(z.l));
    UpperMix(s.s1(B3(z.r)), s.s2(B0(z.r)), s.s4(B2(z.r)), s.s1(B0(z.l)), s.s2(B1(z.l)), s.s4(B3(z.l)));
  }

  lemma Y3(t: Tables, s: Boxes, z: Half<bv32>)
    requires Spread(t, s)
    ensures B2(Kernel(t).xor(Kernel(t).sRight(z.r), Kernel(t).sLeft(z.l))) ==
      Six(s.s1(B0(z.l)), s.s2(B1(z.l)), s.s3(B2(z.l)), s.s2(B0(z.r)), s.s3(B1(z.r)), s.s1(B3(z.r)))
  {
    Left2(t, s, z.l);
    Right2(t, s, z.r);
    KernelXorBytes(t, Kernel(t).sRight(z.r), Kernel(t).sLeft(z.l));
    UpperMix(s.s1(B3(z.r)), s.s2(B0(z.r)), s.s3(B1(z.r)), s.s1(B0(z.l)), s.s2(B1(z.l)), s.s3(B2(z.l)));
  }

  lemma Y4(t: Tables, s: Boxes, z: Half<bv32>)
    requires Spread(t, s)
    ensures B3(Kernel(t).xor(Kernel(t).sRight(z.r), Kernel(t).sLeft(z.l))) ==
      Six(s.s2(B1(z.l)), s.s3(B2(z.l)), s.s4(B3(z.l)), s.s2(B0(z.r)), s.s3(B1(z.r)), s.s4(B2(z.r)))
  {
    Left3(t, s, z.l);
    Right3(t, s, z.r);
    KernelXorBytes(t, Kernel(t).sRight(z.r), Kernel(t).sLeft(z.l));
    SumTurns(s.s2(B0(z.r)), s.s3(B1(z.r)), s.s4(B2(z.r)));
    UpperMix(s.s4(B2(z.r)), s.s2(B0(z.r)), s.s3(B1(z.r)), s.s2(B1(z.l)), s.s3(B2(z.l)), s.s4(B3(z.l)));
  }

  lemma Y5(t: Tables, s: Boxes, z: Half<bv32>)
    requires Spread(t, s)
    ensures var left, right := Kernel(t).sLeft(z.l), Kernel(t).sRight(z.r);
      B0(Kernel(t).xor(Kernel(t).ror8(left), Kernel(t).xor(right, left))) ==
      Five(s.s1(B0(z.l)), s.s2(B1(z.l)), s.s3(B1(z.r)), s.s4(B2(z.r)), s.s1(B3(z.r)))
  {
    var left, right := Kernel(t).sLeft(z.l), Kernel(t).sRight(z.r);
    Left0(t, s, z.l);
    Left3(t, s, z.l);
    Right0(t, s, z.r);
    KernelXorBytes(t, right, left);
    KernelRorBytes(t, left);
    KernelXorBytes(t, Kernel(t).ror8(left), Kernel(t).xor(right, left));
    LowerMix(s.s1(B0(z.l)), s.s2(B1(z.l)), s.s3(B2(z.l)), s.s4(B3(z.l)), s.s1(B3(z.r)), s.s3(B1(z.r)), s.s4(B2(z.r)));
  }

  lemma Y6(t: Tables, s: Boxes, z: Half<bv32>)
    requires Spread(t, s)
    ensures var left, right := Kernel(t).sLeft(z.l), Kernel(t).sRight(z.r);
      B1(Kernel(t).xor(Kernel(t).ror8(left), Kernel(t).xor(right, left))) ==
      Five(s.s2(B1(z.l)), s.s3(B2(z.l)), s.s2(B0(z.r)), s.s4(B2(z.r)), s.s1(B3(z.r)))
  {
    var left, right := Kernel(t).sLeft(z.l), Kernel(t).sRight(z.r);
    Left1(t, s, z.l);
    Left0(t, s, z.l);
    Right1(t, s, z.r);
    KernelXorBytes(t, right, left);
    KernelRorBytes(t, left);
    KernelXorBytes(t, Kernel(t).ror8(left), Kernel(t).xor(right, left));
    SumTurns(s.s1(B0(z.l)), s.s3(B2(z.l)), s.s4(B3(z.l)));
    SumTurns(s.s1(B0(z.l)), s.s2(B1(z.l)), s.s4(B3(z.l)));
    LowerMix(s.s2(B1(z.l)), s.s3(B2(z.l)), s.s1(B0(z.l)), s.s4(B3(z.l)), s.s1(B3(z.r)), s.s2(B0(z.r)), s.s4(B2(z.r)));
  }

  lemma Y7(t: Tables, s: Boxes, z: Half<bv32>)
    requires Spread(t, s)
    ensures var left, right := Kernel(t).sLeft(z.l), Kernel(t).sRight(z.r);
      B2(Kernel(t).xor(Kernel(t).ror8(left), Kernel(t).xor(right, left))) ==
      Five(s.s3(B2(z.l)), s.s4(B3(z.l)), s.s2(B0(z.r)), s.s3(B1(z.r)), s.s1(B3(z.r)))
  {
    var left, right := Kernel(t).sLeft(z.l), Kernel(t).sRight(z.r);
    Left2(t, s, z.l);
    Left1(t, s, z.l);
    Right2(t, s, z.r);
    KernelXorBytes(t, right, left);
    KernelRorBytes(t, left);
    KernelXorBytes(t, Kernel(t).ror8(left), Kernel(t).xor(right, left));
    SumTurns(s.s1(B0(z.l)), s.s2(B1(z.l)), s.s4(B3(z.l)));
    SumTurns(s.s1(B0(z.l)), s.s2(B1(z.l)), s.s3(B2(z.l)));
    LowerMix(s.s3(B2(z.l)), s.s4(B3(z.l)), s.s1(B0(z.l)), s.s2(B1(z.l)), s.s1(B3(z.r)), s.s2(B0(z.r)), s.s3(B1(z.r)));
  }

  lemma Y8(t: Tables, s: Boxes, z: Half<bv32>)
    requires Spread(t, s)
    ensures var left, right := Kernel(t).sLeft(z.l), Kernel(t).sRight(z.r);
      B3(Kernel(t).xor(Kernel(t).ror8(left), Kernel(t).xor(right, left))) ==
      Five(s.s1(B0(z.l)), s.s4(B3(z.l)), s.s2(B0(z.r)), s.s3(B1(z.r)), s.s4(B2(z.r)))
  {
    var left, right := Kernel(t).sLeft(z.l), Kernel(t).sRight(z.r);
    Left3(t, s, z.l);
    Left2(t, s, z.l);
    Right3(t, s, z.r);
    KernelXorBytes(t, right, left);
    KernelRorBytes(t, left);
    KernelXorBytes(t, Kernel(t).ror8(left), Kernel(t).xor(right, left));
    SumTurns(s.s2(B1(z.l)), s.s3(B2(z.l)), s.s4(B3(z.l)));
    SumTurns(s.s2(B0(z.r)), s.s3(B1(z.r)), s.s4(B2(z.r)));
    LowerMix(s.s4(B3(z.l)), s.s1(B0(z.l)), s.s2(B1(z.l)), s.s3(B2(z.l)), s.s4(B2(z.r)), s.s2(B0(z.r)), s.s3(B1(z.r)));
  }

  /** The F-function of section 2.4.1 of RFC 3713: the S-boxes on the eight bytes, then the P-function. */
  lemma FIsRfc(t: Tables, s: Boxes, x: Half<bv32>, k: Half<bv32>)
    requires Spread(t, s)
    ensures var y, z := F(Kernel(t), x, k), Xor(Kernel(t), x, k);
      var t1, t2, t3, t4 := s.s1(B0(z.l)), s.s2(B1(z.l)), s.s3(B2(z.l)), s.s4(B3(z.l));
      var t5, t6, t7, t8 := s.s2(B0(z.r)), s.s3(B1(z.r)), s.s4(B2(z.r)), s.s1(B3(z.r));
      && B0(y.l) == Six(t1, t3, t4, t6, t7, t8) && B1(y.l) == Six(t1, t2, t4, t5, t7, t8)
      && B2(y.l) == Six(t1, t2, t3, t5, t6, t8) && B3(y.l) == Six(t2, t3, t4, t5, t6, t7)
      && B0(y.r) == Five(t1, t2, t6, t7, t8) && B1(y.r) == Five(t2, t3, t5, t7, t8)
      && B2(y.r) == Five(t3, t4, t5, t6, t8) && B3(y.r) == Five(t1, t4, t5, t6, t7)
  {
    var z := Xor(Kernel(t), x, k);
    FParts(Kernel(t), x, k);
    Y1(t, s, z);
    Y2(t, s, z);
    Y3(t, s, z);
    Y4(t, s, z);
    Y5(t, s, z);
    Y6(t, s, z);
    Y7(t, s, z);
    Y8(t, s, z);
  }

  // ----- The FL-function and its inverse

  lemma RolledAnd(t: Tables, a: bv32, b: bv32, c: bv32)
    ensures var o := Kernel(t); o.xor(c, o.rol1(o.and(a, b))) == c ^ (a & b).RotateLeft(1)
  {
    AppliedAnd(t, a, b);
    AppliedRotations(t, a & b);
    RotationsAre(a & b);
    AppliedXor(t, c, (a & b).RotateLeft(1));
  }

  lemma Masked(t: Tables, a: bv32, b: bv32, c: bv32)
    ensures var o := Kernel(t); o.xor(c, o.or(a, b)) == c ^ (a | b)
  {
    AppliedOr(t, a, b);
    AppliedXor(t, c, a | b);
  }

  /** The FL-function of section 2.4.2 of RFC 3713. */
  lemma FLIsRfc(t: Tables, x: Half<bv32>, k: Half<bv32>)
    ensures var y := FL(Kernel(t), x, k); y.r == x.r ^ (x.l & k.l).RotateLeft(1) && y.l == x.l ^ (y.r | k.r)
  {
    RolledAnd(t, x.l, k.l, x.r);
    Masked(t, FL(Kernel(t), x, k).r, k.r, x.l);
  }

  /** The inverse FL-function of section 2.4.3 of RFC 3713. */
  lemma FLInvIsRfc(t: Tables, y: Half<bv32>, k: Half<bv32>)
    ensures var x := FLInv(Kernel(t), y, k); x.l == y.l ^ (y.r | k.r) && x.r == y.r ^ (x.l & k.l).RotateLeft(1)
  {
    Masked(t, y.r, k.r, y.l);
    RolledAnd(t, FLInv(Kernel(t), y, k).l, k.l, y.r);
  }
}
