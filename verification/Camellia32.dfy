/**
 Camellia on 32-bit words with the kernel's S-box tables: the words obey the laws module Camellia
 rests on, whatever the tables hold.
 */
module Camellia32 {
  import opened Camellia
  import opened CamelliaRounds

  /** The four 256-entry tables, indexed by a byte. */
  datatype Tables = Tables(sp1110: bv32 -> bv32, sp0222: bv32 -> bv32, sp3033: bv32 -> bv32, sp4404: bv32 -> bv32)

  function Rol1(a: bv32): bv32 {
    (a << 1) | (a >> 31)
  }

  function Rol8(a: bv32): bv32 {
    (a << 8) | (a >> 24)
  }

  function Ror8(a: bv32): bv32 {
    (a >> 8) | (a << 24)
  }

  function LeftBoxes(t: Tables, a: bv32): bv32 {
    t.sp1110(a >> 24) ^ t.sp0222((a >> 16) & 0xff) ^ t.sp3033((a >> 8) & 0xff) ^ t.sp4404(a & 0xff)
  }

  function RightBoxes(t: Tables, a: bv32): bv32 {
    t.sp1110(a & 0xff) ^ t.sp0222(a >> 24) ^ t.sp3033((a >> 16) & 0xff) ^ t.sp4404((a >> 8) & 0xff)
  }

  /** The word operations of CAMELLIA_F, CAMELLIA_FLS and CAMELLIA_ROUNDSM. */
  function Kernel(t: Tables): Ops<bv32> {
    Ops((a: bv32, b: bv32) => a ^ b, (a: bv32, b: bv32) => a & b, (a: bv32, b: bv32) => a | b, (a: bv32) => !a,
        (a: bv32) => Rol1(a), (a: bv32) => Rol8(a), (a: bv32) => Ror8(a),
        (a: bv32) => LeftBoxes(t, a), (a: bv32) => RightBoxes(t, a))
  }

  lemma AndXor(a: bv32, b: bv32, c: bv32)
    ensures (a ^ b) & c == (a & c) ^ (b & c)
  {
  }

  lemma OrXor(a: bv32, b: bv32, c: bv32)
    ensures (a ^ b) | c == (a | c) ^ (b & !c)
  {
  }

  lemma Rol1Xor(a: bv32, b: bv32)
    ensures Rol1(a ^ b) == Rol1(a) ^ Rol1(b)
  {
  }

  lemma Ror8Xor(a: bv32, b: bv32)
    ensures Ror8(a ^ b) == Ror8(a) ^ Ror8(b)
  {
  }

  lemma XorLaws(a: bv32, b: bv32, c: bv32)
    ensures (a ^ b) ^ c == a ^ (b ^ c)
    ensures a ^ b == b ^ a
    ensures a ^ (a ^ b) == b
  {
  }

  lemma AppliedXor(t: Tables, a: bv32, b: bv32)
    ensures Kernel(t).xor(a, b) == a ^ b
  {
  }

  lemma AppliedAnd(t: Tables, a: bv32, b: bv32)
    ensures Kernel(t).and(a, b) == a & b
  {
  }

  lemma AppliedOr(t: Tables, a: bv32, b: bv32)
    ensures Kernel(t).or(a, b) == a | b
  {
  }

  lemma AppliedNot(t: Tables, a: bv32)
    ensures Kernel(t).not(a) == !a
  {
  }

  lemma AppliedRotations(t: Tables, a: bv32)
    ensures Kernel(t).rol1(a) == Rol1(a)
    ensures Kernel(t).ror8(a) == Ror8(a)
  {
  }

  lemma KernelAssoc(t: Tables, a: bv32, b: bv32, c: bv32)
    ensures var o := Kernel(t); o.xor(o.xor(a, b), c) == o.xor(a, o.xor(b, c))
  {
    XorLaws(a, b, c);
    AppliedXor(t, a, b);
    AppliedXor(t, b, c);
    AppliedXor(t, a ^ b, c);
    AppliedXor(t, a, b ^ c);
  }

  lemma KernelComm(t: Tables, a: bv32, b: bv32)
    ensures var o := Kernel(t); o.xor(a, b) == o.xor(b, a)
  {
  }

  lemma KernelCancel(t: Tables, a: bv32, b: bv32)
    ensures var o := Kernel(t); o.xor(a, o.xor(a, b)) == b
  {
  }

  lemma KernelAnd(t: Tables, a: bv32, b: bv32, c: bv32)
    ensures var o := Kernel(t); o.and(o.xor(a, b), c) == o.xor(o.and(a, c), o.and(b, c))
  {
    AndXor(a, b, c);
    AppliedXor(t, a, b);
    AppliedAnd(t, a, c);
    AppliedAnd(t, b, c);
    AppliedAnd(t, a ^ b, c);
    AppliedXor(t, a & c, b & c);
  }

  lemma KernelOrMask(t: Tables, a: bv32, b: bv32, c: bv32, m: bv32)
    requires (a ^ b) | c == (a | c) ^ (b & m)
    ensures var o := Kernel(t); o.or(o.xor(a, b), c) == o.xor(o.or(a, c), o.and(b, m))
  {
    AppliedXor(t, a, b);
    AppliedOr(t, a, c);
    AppliedAnd(t, b, m);
    AppliedOr(t, a ^ b, c);
    AppliedXor(t, a | c, b & m);
  }

  lemma KernelOr(t: Tables, a: bv32, b: bv32, c: bv32)
    ensures var o := Kernel(t); o.or(o.xor(a, b), c) == o.xor(o.or(a, c), o.and(b, o.not(c)))
  {
    AppliedNot(t, c);
    OrXor(a, b, c);
    KernelOrMask(t, a, b, c, !c);
  }

  lemma KernelRol1(t: Tables, a: bv32, b: bv32)
    ensures var o := Kernel(t); o.rol1(o.xor(a, b)) == o.xor(o.rol1(a), o.rol1(b))
  {
    Rol1Xor(a, b);
    AppliedXor(t, a, b);
    AppliedRotations(t, a);
    AppliedRotations(t, b);
    AppliedRotations(t, a ^ b);
    AppliedXor(t, Rol1(a), Rol1(b));
  }

  lemma KernelRor8(t: Tables, a: bv32, b: bv32)
    ensures var o := Kernel(t); o.ror8(o.xor(a, b)) == o.xor(o.ror8(a), o.ror8(b))
  {
    Ror8Xor(a, b);
    AppliedXor(t, a, b);
    AppliedRotations(t, a);
    AppliedRotations(t, b);
    AppliedRotations(t, a ^ b);
    AppliedXor(t, Ror8(a), Ror8(b));
  }

  lemma KernelRol8(t: Tables, a: bv32)
    ensures var o := Kernel(t); o.ror8(o.rol8(a)) == a
  {
  }

  /** 32-bit words obey the laws, whatever the S-box tables hold. */
  lemma KernelLaws(t: Tables)
    ensures Laws(Kernel(t))
  {
    var o := Kernel(t);
    forall a, b, c {:trigger At(a, b, c)} | At(a, b, c) ensures o.xor(o.xor(a, b), c) == o.xor(a, o.xor(b, c)) {
      KernelAssoc(t, a, b, c);
    }
    forall a, b, c {:trigger At(a, b, c)} | At(a, b, c) ensures o.xor(a, b) == o.xor(b, a) {
      KernelComm(t, a, b);
    }
    forall a, b, c {:trigger At(a, b, c)} | At(a, b, c) ensures o.xor(a, o.xor(a, b)) == b {
      KernelCancel(t, a, b);
    }
    forall a, b, c {:trigger At(a, b, c)} | At(a, b, c)
      ensures o.and(o.xor(a, b), c) == o.xor(o.and(a, c), o.and(b, c))
    {
      KernelAnd(t, a, b, c);
    }
    forall a, b, c {:trigger At(a, b, c)} | At(a, b, c)
      ensures o.or(o.xor(a, b), c) == o.xor(o.or(a, c), o.and(b, o.not(c)))
    {
      KernelOr(t, a, b, c);
    }
    forall a, b, c {:trigger At(a, b, c)} | At(a, b, c) ensures o.rol1(o.xor(a, b)) == o.xor(o.rol1(a), o.rol1(b)) {
      KernelRol1(t, a, b);
    }
    forall a, b, c {:trigger At(a, b, c)} | At(a, b, c) ensures o.ror8(o.xor(a, b)) == o.xor(o.ror8(a), o.ror8(b)) {
      KernelRor8(t, a, b);
    }
    forall a, b, c {:trigger At(a, b, c)} | At(a, b, c) ensures o.ror8(o.rol8(a)) == a {
      KernelRol8(t, a);
    }
  }


  /**
   With the table camellia_setup_tail leaves, the kernel's rounds encrypt as section 2.3 of RFC 3713
   does, and its decryption takes the textbook ciphertext back, for all tables, subkeys and blocks.
   */
  lemma KernelIsTextbook(t: Tables, sub: seq<Half<bv32>>, max: nat, key: seq<Half<bv32>>, m: Block<bv32>)
    requires IsMax(max) && |sub| == max + 2 && IsFinalTable(Kernel(t), sub, max, key)
    ensures Swapped(FastEncrypt(Kernel(t), key, max, m)) == Textbook(Kernel(t), sub, max, m)
    ensures Swapped(FastDecrypt(Kernel(t), key, max, Textbook(Kernel(t), sub, max, m))) == m
  {
    KernelLaws(t);
    FastIsTextbook(Kernel(t), sub, max, key, m);
    DecryptInvertsEncrypt(Kernel(t), key, max, m);
  }

  /** camellia_encrypt: the big-endian words of the block in, those of the ciphertext out. */
  method Encrypt(t: Tables, key: seq<Half<bv32>>, max: nat, src: seq<bv32>, ghost sub: seq<Half<bv32>>)
    returns (dst: seq<bv32>)
    requires IsMax(max) && |src| == 4 && |sub| == max + 2 && IsFinalTable(Kernel(t), sub, max, key)
    ensures |dst| == 4
    ensures Block(Half(dst[0], dst[1]), Half(dst[2], dst[3])) ==
      Textbook(Kernel(t), sub, max, Block(Half(src[0], src[1]), Half(src[2], src[3])))
  {
    dst := EncryptWords(Kernel(t), key, max, src);
    KernelIsTextbook(t, sub, max, key, BlockOf(src));
  }

  /** camellia_decrypt: the block whose textbook encryption is src. */
  method Decrypt(t: Tables, key: seq<Half<bv32>>, max: nat, src: seq<bv32>, ghost sub: seq<Half<bv32>>)
    returns (dst: seq<bv32>)
    requires IsMax(max) && |src| == 4 && |sub| == max + 2 && IsFinalTable(Kernel(t), sub, max, key)
    ensures |dst| == 4
    ensures Textbook(Kernel(t), sub, max, Block(Half(dst[0], dst[1]), Half(dst[2], dst[3]))) ==
      Block(Half(src[0], src[1]), Half(src[2], src[3]))
  {
    dst := DecryptWords(Kernel(t), key, max, src);
    KernelLaws(t);
    EncryptInvertsDecrypt(Kernel(t), key, max, BlockOf(src));
    KernelIsTextbook(t, sub, max, key, BlockOf(dst));
  }
}
