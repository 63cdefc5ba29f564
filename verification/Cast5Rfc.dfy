/**
 The round functions of CAST5 on 32-bit words: the byte of I that indexes each S-box, and the operations of the
 three types, as section 2.2 of RFC 2144 has them.
 */
module Cast5Rfc {
  import opened Feistel
  import opened WordBytes

  /** S1 to S4. */
  datatype Boxes = Boxes(s1: bv32 -> bv32, s2: bv32 -> bv32, s3: bv32 -> bv32, s4: bv32 -> bv32)

  function Add32(x: bv32, y: bv32): bv32 {
    x + y
  }

  function Sub32(x: bv32, y: bv32): bv32 {
    x - y
  }

  /** Rotation keys are below 32. */
  function Rol32(w: bv32, k: nat): bv32 {
    if k < 32 then w.RotateLeft(k) else w
  }

  /** The kernel's word operations. */
  function Cast(b: Boxes): Ops<bv32> {
    Ops(Xor32, Add32, Sub32, Rol32,
        (i: bv32) => b.s1(B0(i)), (i: bv32) => b.s2(B1(i)), (i: bv32) => b.s3(B2(i)), (i: bv32) => b.s4(B3(i)))
  }

  /** ((S1[Ia] ^ S2[Ib]) - S3[Ic]) + S4[Id], where I is (Km + D) rotated by Kr. */
  lemma Type1(b: Boxes, d: bv32, m: bv32, k: nat)
    ensures var i := Rol32(Add32(m, d), k);
      F1(Cast(b), d, m, k) == Add32(Sub32(Xor32(b.s1(B0(i)), b.s2(B1(i))), b.s3(B2(i))), b.s4(B3(i)))
  {
  }

  /** ((S1[Ia] - S2[Ib]) + S3[Ic]) ^ S4[Id], where I is (Km ^ D) rotated by Kr. */
  lemma Type2(b: Boxes, d: bv32, m: bv32, k: nat)
    ensures var i := Rol32(Xor32(m, d), k);
      F2(Cast(b), d, m, k) == Xor32(Add32(Sub32(b.s1(B0(i)), b.s2(B1(i))), b.s3(B2(i))), b.s4(B3(i)))
  {
  }

  /** ((S1[Ia] + S2[Ib]) ^ S3[Ic]) - S4[Id], where I is (Km - D) rotated by Kr. */
  lemma Type3(b: Boxes, d: bv32, m: bv32, k: nat)
    ensures var i := Rol32(Sub32(m, d), k);
      F3(Cast(b), d, m, k) == Sub32(Xor32(Add32(b.s1(B0(i)), b.s2(B1(i))), b.s3(B2(i))), b.s4(B3(i)))
  {
  }

  lemma Thirds(j: nat)
    ensures 3 * j % 3 == 0 && (3 * j + 1) % 3 == 1 && (3 * j + 2) % 3 == 2
  {
  }

  /** The round functions as rounds use them. */
  lemma RoundIs<W>(o: Ops<W>, key: CastKey<W>, i: nat, d: W)
    requires i < |key.km| && i < |key.kr|
    ensures i % 3 == 0 ==> CastF(o, key)(i, d) == F1(o, d, key.km[i], key.kr[i])
    ensures i % 3 == 1 ==> CastF(o, key)(i, d) == F2(o, d, key.km[i], key.kr[i])
    ensures i % 3 == 2 ==> CastF(o, key)(i, d) == F3(o, d, key.km[i], key.kr[i])
  {
  }

  /** Rounds 1, 4, 7, 10, 13 and 16 are of type 1, the next ones of type 2 and the ones after that of type 3. */
  lemma RoundTypes<W>(o: Ops<W>, key: CastKey<W>, j: nat, k: nat, d: W)
    requires k < 3 && 3 * j + k < |key.km| && 3 * j + k < |key.kr|
    ensures var i := 3 * j + k; var m, r := key.km[i], key.kr[i];
      CastF(o, key)(i, d) == if k == 0 then F1(o, d, m, r) else if k == 1 then F2(o, d, m, r) else F3(o, d, m, r)
  {
    Thirds(j);
    RoundIs(o, key, 3 * j + k, d);
  }
}
