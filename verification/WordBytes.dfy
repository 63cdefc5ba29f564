/** The bytes of a 32-bit word, B0 the most significant, under exclusive or and rotation. */
module WordBytes {

  function B0(w: bv32): bv32 {
    w >> 24
  }

  function B1(w: bv32): bv32 {
    (w >> 16) & 0xff
  }

  function B2(w: bv32): bv32 {
    (w >> 8) & 0xff
  }

  function B3(w: bv32): bv32 {
    w & 0xff
  }

  /** Exclusive or of several bytes, by name, so that proofs can go by equalities. */
  function Both(a: bv32, b: bv32): bv32 {
    a ^ b
  }

  function Sum(a: bv32, b: bv32, c: bv32): bv32 {
    a ^ b ^ c
  }

  function Five(a: bv32, b: bv32, c: bv32, d: bv32, e: bv32): bv32 {
    Both(Both(a, b), Sum(c, d, e))
  }

  function Six(a: bv32, b: bv32, c: bv32, d: bv32, e: bv32, f: bv32): bv32 {
    Both(Sum(a, b, c), Sum(d, e, f))
  }

  lemma XorBytes(u: bv32, v: bv32)
    ensures B0(u ^ v) == Both(B0(u), B0(v)) && B1(u ^ v) == Both(B1(u), B1(v))
    ensures B2(u ^ v) == Both(B2(u), B2(v)) && B3(u ^ v) == Both(B3(u), B3(v))
  {
  }

  lemma RotatedBytes(w: bv32)
    ensures var r := w.RotateRight(8); B0(r) == B3(w) && B1(r) == B0(w) && B2(r) == B1(w) && B3(r) == B2(w)
  {
  }

  lemma Sum0(a: bv32, b: bv32, c: bv32, d: bv32)
    requires B0(b) == 0
    ensures B0(a ^ b ^ c ^ d) == Sum(B0(a), B0(c), B0(d))
  {
  }

  lemma Sum1(a: bv32, b: bv32, c: bv32, d: bv32)
    requires B1(c) == 0
    ensures B1(a ^ b ^ c ^ d) == Sum(B1(a), B1(b), B1(d))
  {
  }

  lemma Sum2(a: bv32, b: bv32, c: bv32, d: bv32)
    requires B2(d) == 0
    ensures B2(a ^ b ^ c ^ d) == Sum(B2(a), B2(b), B2(c))
  {
  }

  lemma Sum3(a: bv32, b: bv32, c: bv32, d: bv32)
    requires B3(a) == 0
    ensures B3(a ^ b ^ c ^ d) == Sum(B3(b), B3(c), B3(d))
  {
  }

  lemma SumTurns(a: bv32, b: bv32, c: bv32)
    ensures Sum(a, b, c) == Sum(b, a, c) == Sum(c, a, b)
  {
  }

  lemma UpperMix(a: bv32, b: bv32, c: bv32, d: bv32, e: bv32, f: bv32)
    ensures Both(Sum(a, b, c), Sum(d, e, f)) == Six(d, e, f, b, c, a)
  {
    SumTurns(b, c, a);
    BothTurns(Sum(a, b, c), Sum(d, e, f));
  }

  lemma Cancel(a: bv32, b: bv32, c: bv32, d: bv32)
    ensures Both(Sum(b, c, d), Sum(a, c, d)) == Both(a, b)
  {
  }

  lemma Reordered(p: bv32, q: bv32, r: bv32)
    ensures Both(p, Both(q, r)) == Both(Both(p, r), q)
  {
  }

  lemma Joined(a: bv32, b: bv32, c: bv32, d: bv32, e: bv32)
    ensures Both(Both(a, b), Sum(c, d, e)) == Five(a, b, d, e, c)
  {
    SumTurns(d, e, c);
  }

  lemma BothTurns(a: bv32, b: bv32)
    ensures Both(a, b) == Both(b, a)
  {
  }

  lemma LowerMix(a: bv32, b: bv32, c: bv32, d: bv32, e: bv32, f: bv32, g: bv32)
    ensures Both(Sum(b, c, d), Both(Sum(e, f, g), Sum(a, c, d))) == Five(a, b, f, g, e) == Five(b, a, f, g, e)
  {
    Reordered(Sum(b, c, d), Sum(e, f, g), Sum(a, c, d));
    Cancel(a, b, c, d);
    BothTurns(a, b);
    Joined(a, b, e, f, g);
    Joined(b, a, e, f, g);
  }
}
