/**
 CAST5 and Blowfish: decryption and encryption undo each other for every key schedule and every S-box content.
 Words are abstract; the S-boxes are functions of the word whose bytes index them.
 */
module Feistel {

  /** Exclusive or, addition, subtraction and rotation of words, and the four S-boxes. */
  datatype Ops<!W> = Ops(
    xor: (W, W) -> W, add: (W, W) -> W, sub: (W, W) -> W, rol: (W, nat) -> W,
    s1: W -> W, s2: W -> W, s3: W -> W, s4: W -> W)

  /** The two halves of a block. */
  datatype Pair<W> = Pair(l: W, r: W)

  predicate At<W>(a: W, b: W, c: W) {
    true
  }

  /** Exclusive or undoes itself, and its order does not matter. */
  ghost predicate Laws<W(!new)>(o: Ops<W>) {
    && (forall a, b, c {:trigger At(a, b, c)} :: At(a, b, c) ==> o.xor(o.xor(a, b), b) == a)
    && (forall a, b, c {:trigger At(a, b, c)} :: At(a, b, c) ==> o.xor(o.xor(a, b), c) == o.xor(o.xor(a, c), b))
  }

  // ----- CAST5

  /** A masking key and a rotation key per round. */
  datatype CastKey<W> = CastKey(km: seq<W>, kr: seq<nat>)

  function F1<W>(o: Ops<W>, d: W, m: W, r: nat): W {
    var i := o.rol(o.add(m, d), r);
    o.add(o.sub(o.xor(o.s1(i), o.s2(i)), o.s3(i)), o.s4(i))
  }

  function F2<W>(o: Ops<W>, d: W, m: W, r: nat): W {
    var i := o.rol(o.xor(m, d), r);
    o.xor(o.add(o.sub(o.s1(i), o.s2(i)), o.s3(i)), o.s4(i))
  }

  function F3<W>(o: Ops<W>, d: W, m: W, r: nat): W {
    var i := o.rol(o.sub(m, d), r);
    o.sub(o.xor(o.add(o.s1(i), o.s2(i)), o.s3(i)), o.s4(i))
  }

  /** Round i uses the functions of types 1, 2 and 3 in turn (section 2.2 of RFC 2144). */
  function F<W>(o: Ops<W>, k: CastKey<W>, i: nat, d: W): W
    requires i < |k.km| && i < |k.kr|
  {
    if i % 3 == 0 then F1(o, d, k.km[i], k.kr[i])
    else if i % 3 == 1 then F2(o, d, k.km[i], k.kr[i])
    else F3(o, d, k.km[i], k.kr[i])
  }

  /** The round functions of a key, as one function of the round and the half. */
  function CastF<W>(o: Ops<W>, k: CastKey<W>): (nat, W) -> W {
    (i: nat, d: W) => if i < |k.km| && i < |k.kr| then F(o, k, i, d) else d
  }

  /** The state after the rounds from first up to n (section 2 of RFC 2144). */
  function Rounds<W>(o: Ops<W>, f: (nat, W) -> W, first: nat, n: nat, block: Pair<W>): Pair<W>
    decreases n - first
  {
    if n <= first then block
    else
      var s := Rounds(o, f, first, n - 1, block);
      Pair(s.r, o.xor(s.l, f(n - 1, s.r)))
  }

  /** The same rounds from the last to the first. */
  function RoundsBack<W>(o: Ops<W>, f: (nat, W) -> W, first: nat, n: nat, block: Pair<W>): Pair<W>
    decreases n - first
  {
    if n <= first then block
    else RoundsBack(o, f, first, n - 1, Pair(block.r, o.xor(block.l, f(n - 1, block.r))))
  }

  method CastRound<W>(o: Ops<W>, k: CastKey<W>, i: nat, d: W) returns (x: W)
    requires i < |k.km| && i < |k.kr|
    ensures x == CastF(o, k)(i, d)
  {
    x := if i % 3 == 0 then F1(o, d, k.km[i], k.kr[i])
      else if i % 3 == 1 then F2(o, d, k.km[i], k.kr[i])
      else F3(o, d, k.km[i], k.kr[i]);
  }

  /** cast5_encrypt with 12 or 16 rounds, on the two halves of the block. */
  method CastEncrypt<W>(o: Ops<W>, k: CastKey<W>, rounds: nat, block: Pair<W>) returns (out: Pair<W>)
    requires rounds <= |k.km| && rounds <= |k.kr|
    ensures var s := Rounds(o, CastF(o, k), 0, rounds, block); out == Pair(s.r, s.l)
  {
    var l, r := block.l, block.r;
    var i := 0;
    while i < rounds
      invariant i <= rounds && Pair(l, r) == Rounds(o, CastF(o, k), 0, i, block)
    {
      var t := l;
      l := r;
      var x := CastRound(o, k, i, r);
      r := o.xor(t, x);
      i := i + 1;
    }
    out := Pair(r, l);
  }

  /** cast5_decrypt. */
  method CastDecrypt<W>(o: Ops<W>, k: CastKey<W>, rounds: nat, block: Pair<W>) returns (out: Pair<W>)
    requires rounds <= |k.km| && rounds <= |k.kr|
    ensures var s := RoundsBack(o, CastF(o, k), 0, rounds, block); out == Pair(s.r, s.l)
  {
    var l, r := block.l, block.r;
    var i := rounds;
    while i > 0
      invariant 0 <= i <= rounds
      invariant RoundsBack(o, CastF(o, k), 0, rounds, block) == RoundsBack(o, CastF(o, k), 0, i, Pair(l, r))
    {
      var t := l;
      l := r;
      var x := CastRound(o, k, i - 1, r);
      r := o.xor(t, x);
      i := i - 1;
    }
    out := Pair(r, l);
  }

  /** Whatever the round functions, the rounds backwards undo the rounds: decryption undoes encryption. */
  lemma {:induction false} RoundsBackUndo<W(!new)>(o: Ops<W>, f: (nat, W) -> W, first: nat, n: nat, block: Pair<W>)
    requires Laws(o)
    ensures var c := Rounds(o, f, first, n, block); RoundsBack(o, f, first, n, Pair(c.r, c.l)) == Pair(block.r, block.l)
    decreases n - first
  {
    if n > first {
      var s := Rounds(o, f, first, n - 1, block);
      assert At(s.l, f(n - 1, s.r), s.l);
      RoundsBackUndo(o, f, first, n - 1, block);
    }
  }

  /** The rounds undo the rounds backwards: encryption undoes decryption. */
  lemma {:induction false} RoundsUndo<W(!new)>(o: Ops<W>, f: (nat, W) -> W, first: nat, n: nat, block: Pair<W>)
    requires Laws(o)
    ensures var c := RoundsBack(o, f, first, n, block); Rounds(o, f, first, n, Pair(c.r, c.l)) == Pair(block.r, block.l)
    decreases n - first
  {
    if n > first {
      assert At(block.l, f(n - 1, block.r), block.l);
      RoundsUndo(o, f, first, n - 1, Pair(block.r, o.xor(block.l, f(n - 1, block.r))));
    }
  }

  // ----- Blowfish

  /** ROUND, with the halves exchanged for the next one; f stands for bf_F, of which nothing is needed. */
  function BfRound<W>(o: Ops<W>, f: W -> W, p: seq<W>, n: nat, s: Pair<W>): Pair<W>
    requires n < |p|
  {
    var b := o.xor(s.l, p[n]);
    Pair(o.xor(s.r, f(b)), b)
  }

  function BfRounds<W>(o: Ops<W>, f: W -> W, p: seq<W>, first: nat, n: nat, s: Pair<W>): Pair<W>
    requires n <= |p|
    decreases n - first
  {
    if n <= first then s else BfRound(o, f, p, n - 1, BfRounds(o, f, p, first, n - 1, s))
  }

  /** encrypt_block. */
  method BfEncrypt<W>(o: Ops<W>, f: W -> W, p: seq<W>, block: Pair<W>) returns (out: Pair<W>)
    requires |p| == 18
    ensures var s := BfRounds(o, f, p, 0, |p| - 2, block); out == Pair(o.xor(s.r, p[17]), o.xor(s.l, p[16]))
  {
    var yl, yr := block.l, block.r;
    var n := 0;
    while n < 16
      invariant n <= 16 && n % 2 == 0 && Pair(yl, yr) == BfRounds(o, f, p, 0, n, block)
    {
      yl := o.xor(yl, p[n]);
      yr := o.xor(yr, f(yl));
      assert Pair(yr, yl) == BfRounds(o, f, p, 0, n + 1, block);
      yr := o.xor(yr, p[n + 1]);
      yl := o.xor(yl, f(yr));
      n := n + 2;
    }
    yl := o.xor(yl, p[16]);
    yr := o.xor(yr, p[17]);
    out := Pair(yr, yl);
  }

  /**
   Blowfish as it is published, from round i on: the left half takes the subkey, the right half takes f of it, and the
   halves change places; after the last round they change back and take the last two subkeys.
   */
  function BfTextbook<W>(o: Ops<W>, f: W -> W, p: seq<W>, i: nat, left: W, right: W): Pair<W>
    requires |p| == 18 && i <= 16
    decreases 16 - i
  {
    if i == 16 then Pair(o.xor(right, p[17]), o.xor(left, p[16]))
    else var x := o.xor(left, p[i]); BfTextbook(o, f, p, i + 1, o.xor(right, f(x)), x)
  }

  lemma {:induction false} BfRoundsFollow<W>(o: Ops<W>, f: W -> W, p: seq<W>, i: nat, block: Pair<W>)
    requires |p| == 18 && i <= 16
    ensures var s := BfRounds(o, f, p, 0, i, block);
      BfTextbook(o, f, p, 0, block.l, block.r) == BfTextbook(o, f, p, i, s.l, s.r)
  {
    if i > 0 {
      BfRoundsFollow(o, f, p, i - 1, block);
    }
  }

  /** encrypt_block's result is that of the published cipher. */
  lemma BfIsTextbook<W>(o: Ops<W>, f: W -> W, p: seq<W>, block: Pair<W>)
    requires |p| == 18
    ensures var s := BfRounds(o, f, p, 0, |p| - 2, block);
      Pair(o.xor(s.r, p[17]), o.xor(s.l, p[16])) == BfTextbook(o, f, p, 0, block.l, block.r)
  {
    BfRoundsFollow(o, f, p, 16, block);
  }

  /** The decryption's state when the rounds from n on are undone: both halves still carry a whitening key. */
  function BfUndone<W>(o: Ops<W>, p: seq<W>, n: nat, s: Pair<W>): Pair<W>
    requires n + 1 < |p|
  {
    Pair(o.xor(s.r, p[n + 1]), o.xor(s.l, p[n]))
  }

  /** The round with the key two places on undoes round n, and moves the whitening keys along. */
  lemma BfRoundUndone<W(!new)>(o: Ops<W>, f: W -> W, p: seq<W>, n: nat, s: Pair<W>)
    requires Laws(o) && n + 2 < |p|
    ensures BfRound(o, f, p, n + 2, BfUndone(o, p, n + 1, BfRound(o, f, p, n, s))) == BfUndone(o, p, n, s)
  {
    var b := o.xor(s.l, p[n]);
    assert At(b, p[n + 2], b);
    assert At(o.xor(s.r, f(b)), p[n + 1], f(b));
    assert At(s.r, f(b), s.r);
  }

  /** Rounds with the keys from n + 1 down to first + 2. */
  function BfBack<W>(o: Ops<W>, f: W -> W, p: seq<W>, first: nat, n: nat, s: Pair<W>): Pair<W>
    requires n + 1 < |p|
    decreases n - first
  {
    if n <= first then s else BfBack(o, f, p, first, n - 1, BfRound(o, f, p, n + 1, s))
  }

  lemma BfBackStep<W>(o: Ops<W>, f: W -> W, p: seq<W>, first: nat, n: nat, s: Pair<W>)
    requires first < n && n + 1 < |p|
    ensures BfBack(o, f, p, first, n, s) == BfBack(o, f, p, first, n - 1, BfRound(o, f, p, n + 1, s))
  {
  }

  /** bf_decrypt. */
  method BfDecrypt<W>(o: Ops<W>, f: W -> W, p: seq<W>, block: Pair<W>) returns (out: Pair<W>)
    requires |p| == 18
    ensures var s := BfBack(o, f, p, 0, |p| - 2, block); out == Pair(o.xor(s.r, p[0]), o.xor(s.l, p[1]))
  {
    var yl, yr := block.l, block.r;
    var n := |p| - 2;
    ghost var last, pairs := BfBack(o, f, p, 0, |p| - 2, block), 8;
    while n > 0
      invariant 0 <= n == 2 * pairs <= 16 && last == BfBack(o, f, p, 0, n, Pair(yl, yr))
    {
      yl := o.xor(yl, p[n + 1]);
      yr := o.xor(yr, f(yl));
      assert last == BfBack(o, f, p, 0, n - 1, Pair(yr, yl));
      yr := o.xor(yr, p[n]);
      yl := o.xor(yl, f(yr));
      n, pairs := n - 2, pairs - 1;
    }
    yl := o.xor(yl, p[1]);
    yr := o.xor(yr, p[0]);
    out := Pair(yr, yl);
  }

  /** The rounds with the keys two places on, backwards, undo the rounds. */
  lemma {:induction false} BfBackUndoes<W(!new)>(o: Ops<W>, f: W -> W, p: seq<W>, first: nat, n: nat, block: Pair<W>)
    requires Laws(o) && first <= n && n + 1 < |p|
    ensures BfBack(o, f, p, first, n, BfUndone(o, p, n, BfRounds(o, f, p, first, n, block))) ==
      BfUndone(o, p, first, block)
    decreases n - first
  {
    if n > first {
      var s := BfRounds(o, f, p, first, n - 1, block);
      BfRoundUndone(o, f, p, n - 1, s);
      BfBackUndoes(o, f, p, first, n - 1, block);
      BfBackStep(o, f, p, first, n, BfUndone(o, p, n, BfRound(o, f, p, n - 1, s)));
    }
  }

  /** bf_decrypt's result on encrypt_block's result is the block, whatever f is. */
  lemma BfDecryptUndoes<W(!new)>(o: Ops<W>, f: W -> W, p: seq<W>, block: Pair<W>)
    requires Laws(o) && |p| == 18
    ensures var s := BfRounds(o, f, p, 0, |p| - 2, block);
      var t := BfBack(o, f, p, 0, |p| - 2, Pair(o.xor(s.r, p[17]), o.xor(s.l, p[16])));
      Pair(o.xor(t.r, p[0]), o.xor(t.l, p[1])) == block
  {
    BfBackUndoes(o, f, p, 0, |p| - 2, block);
    assert At(block.r, p[1], block.r) && At(block.l, p[0], block.l);
  }

  lemma BfRoundInjective<W(!new)>(o: Ops<W>, f: W -> W, p: seq<W>, n: nat, s: Pair<W>, t: Pair<W>)
    requires Laws(o) && n < |p| && BfRound(o, f, p, n, s) == BfRound(o, f, p, n, t)
    ensures s == t
  {
    assert At(s.l, p[n], s.l) && At(t.l, p[n], t.l);
    var b := o.xor(s.l, p[n]);
    assert At(s.r, f(b), s.r) && At(t.r, f(b), t.r);
  }

  /** Round n undoes the round with the key two places on. */
  lemma BfRoundUndoes<W(!new)>(o: Ops<W>, f: W -> W, p: seq<W>, n: nat, s: Pair<W>, c: Pair<W>)
    requires Laws(o) && n + 2 < |p| && BfUndone(o, p, n, s) == BfRound(o, f, p, n + 2, c)
    ensures BfUndone(o, p, n + 1, BfRound(o, f, p, n, s)) == c
  {
    BfRoundUndone(o, f, p, n, s);
    BfRoundInjective(o, f, p, n + 2, BfUndone(o, p, n + 1, BfRound(o, f, p, n, s)), c);
  }

  /** From what the rounds backwards leave, the rounds lead back. */
  lemma {:induction false} BfRoundsUndo<W(!new)>(o: Ops<W>, f: W -> W, p: seq<W>, first: nat, n: nat, block: Pair<W>,
                                                 c: Pair<W>)
    requires Laws(o) && first <= n && n + 1 < |p| && BfUndone(o, p, first, block) == BfBack(o, f, p, first, n, c)
    ensures BfUndone(o, p, n, BfRounds(o, f, p, first, n, block)) == c
    decreases n - first
  {
    if n > first {
      BfBackStep(o, f, p, first, n, c);
      BfRoundsUndo(o, f, p, first, n - 1, block, BfRound(o, f, p, n + 1, c));
      BfRoundUndoes(o, f, p, n - 1, BfRounds(o, f, p, first, n - 1, block), c);
    }
  }

  /** encrypt_block's result on bf_decrypt's result is the block, whatever f is. */
  lemma BfEncryptUndoes<W(!new)>(o: Ops<W>, f: W -> W, p: seq<W>, block: Pair<W>)
    requires Laws(o) && |p| == 18
    ensures var t := BfBack(o, f, p, 0, |p| - 2, block);
      var s := BfRounds(o, f, p, 0, |p| - 2, Pair(o.xor(t.r, p[0]), o.xor(t.l, p[1])));
      Pair(o.xor(s.r, p[17]), o.xor(s.l, p[16])) == block
  {
    var t := BfBack(o, f, p, 0, |p| - 2, block);
    assert At(t.l, p[1], t.l) && At(t.r, p[0], t.r);
    BfRoundsUndo(o, f, p, 0, |p| - 2, Pair(o.xor(t.r, p[0]), o.xor(t.l, p[1])), block);
  }

  // ----- 32-bit words

  /** Exclusive or of 32-bit words obeys the laws, whatever the other operations are. */
  lemma Words32(o: Ops<bv32>)
    requires o.xor == Xor32
    ensures Laws(o)
  {
    forall a, b, c {:trigger At(a, b, c)} | At(a, b, c) ensures Xor32(Xor32(a, b), b) == a {
      Undoes(a, b);
    }
    forall a, b, c {:trigger At(a, b, c)} | At(a, b, c) ensures Xor32(Xor32(a, b), c) == Xor32(Xor32(a, c), b) {
      Reorders(a, b, c);
    }
  }

  /**
   cast5_decrypt on the result of cast5_encrypt gives the block, for every key schedule, S-box and number of rounds.
   */
  lemma {:induction false} CastDecryptUndoes(o: Ops<bv32>, k: CastKey<bv32>, rounds: nat, block: Pair<bv32>)
    requires o.xor == Xor32
    ensures var c := Rounds(o, CastF(o, k), 0, rounds, block);
      var s := RoundsBack(o, CastF(o, k), 0, rounds, Pair(c.r, c.l)); Pair(s.r, s.l) == block
  {
    Words32(o);
    RoundsBackUndo(o, CastF(o, k), 0, rounds, block);
  }

  /** cast5_encrypt on the result of cast5_decrypt gives the block as well. */
  lemma {:induction false} CastEncryptUndoes(o: Ops<bv32>, k: CastKey<bv32>, rounds: nat, block: Pair<bv32>)
    requires o.xor == Xor32
    ensures var c := RoundsBack(o, CastF(o, k), 0, rounds, block);
      var s := Rounds(o, CastF(o, k), 0, rounds, Pair(c.r, c.l)); Pair(s.r, s.l) == block
  {
    Words32(o);
    RoundsUndo(o, CastF(o, k), 0, rounds, block);
  }

  function Xor32(a: bv32, b: bv32): bv32 {
    a ^ b
  }

  lemma XorOrder(a: bv32, b: bv32, c: bv32)
    ensures (a ^ b) ^ c == (a ^ c) ^ b
  {
  }

  lemma Applied32(a: bv32, b: bv32)
    ensures Xor32(a, b) == a ^ b
  {
  }

  lemma Undoes(a: bv32, b: bv32)
    ensures Xor32(Xor32(a, b), b) == a
  {
  }

  lemma Reorders(a: bv32, b: bv32, c: bv32)
    ensures Xor32(Xor32(a, b), c) == Xor32(Xor32(a, c), b)
  {
    XorOrder(a, b, c);
    Applied32(a, b);
    Applied32(a, c);
    Applied32(Xor32(a, b), c);
    Applied32(Xor32(a, c), b);
  }
}
