/**
 Camellia: the textbook network of section 2.3 of RFC 3713, the kernel's rewritten subkeys and
 rounds, and the proof that the rewriting keeps the cipher.
 The network is written over any word type with the operations of `Ops`, because the rewriting
 rests only on the XOR-affine `Laws` those operations obey; module Camellia32 supplies the 32-bit
 words and the S-box tables.

 A table of subkeys is a sequence of max + 2 halves, where max is 24 or 32: kw1, kw2, then for
 every group of six rounds, based at index i = 0, 8, 16 (and 24), round keys at i + 2 .. i + 7 and,
 if i > 0, the two keys of the FL layer before the group at i and i + 1; kw3 and kw4 at max and max + 1.
 */
module Camellia {

  /** Word operations; sLeft and sRight are the four table look-ups on the bytes of a left and a right word. */
  datatype Ops<!W> = Ops(
    xor: (W, W) -> W, and: (W, W) -> W, or: (W, W) -> W, not: W -> W,
    rol1: W -> W, rol8: W -> W, ror8: W -> W,
    sLeft: W -> W, sRight: W -> W)

  /** A 64-bit value; `l` is the most significant word, as in the source's (xxxL, xxxR). */
  datatype Half<W> = Half(l: W, r: W)

  /** A block: io[0], io[1] are a, and io[2], io[3] are b. */
  datatype Block<W> = Block(a: Half<W>, b: Half<W>)

  /** Names the words a law is used for. */
  ghost predicate At<W(!new)>(a: W, b: W, c: W) { true }

  /** What the rewriting needs of the words. */
  ghost predicate Laws<W(!new)>(o: Ops<W>) {
    match o
    case Ops(xor, and, or, not, rol1, rol8, ror8, _, _) =>
      && (forall a, b, c {:trigger At(a, b, c)} :: At(a, b, c) ==> xor(xor(a, b), c) == xor(a, xor(b, c)))
      && (forall a, b, c {:trigger At(a, b, c)} :: At(a, b, c) ==> xor(a, b) == xor(b, a))
      && (forall a, b, c {:trigger At(a, b, c)} :: At(a, b, c) ==> xor(a, xor(a, b)) == b)
      && (forall a, b, c {:trigger At(a, b, c)} :: At(a, b, c) ==> and(xor(a, b), c) == xor(and(a, c), and(b, c)))
      && (forall a, b, c {:trigger At(a, b, c)} :: At(a, b, c) ==> or(xor(a, b), c) == xor(or(a, c), and(b, not(c))))
      && (forall a, b, c {:trigger At(a, b, c)} :: At(a, b, c) ==> rol1(xor(a, b)) == xor(rol1(a), rol1(b)))
      && (forall a, b, c {:trigger At(a, b, c)} :: At(a, b, c) ==> ror8(xor(a, b)) == xor(ror8(a), ror8(b)))
      && (forall a, b, c {:trigger At(a, b, c)} :: At(a, b, c) ==> ror8(rol8(a)) == a)
  }

  function Xor<W>(o: Ops<W>, x: Half<W>, y: Half<W>): Half<W> {
    Half(o.xor(x.l, y.l), o.xor(x.r, y.r))
  }

  // ----- The textbook cipher

  /** CAMELLIA_F, the F-function. */
  function F<W>(o: Ops<W>, x: Half<W>, k: Half<W>): Half<W> {
    var yl := o.sRight(o.xor(x.r, k.r));
    var yr := o.sLeft(o.xor(x.l, k.l));
    var yl' := o.xor(yl, yr);
    Half(yl', o.xor(o.ror8(yr), yl'))
  }

  function FL<W>(o: Ops<W>, x: Half<W>, k: Half<W>): Half<W> {
    var r := o.xor(x.r, o.rol1(o.and(x.l, k.l)));
    Half(o.xor(x.l, o.or(r, k.r)), r)
  }

  function FLInv<W>(o: Ops<W>, x: Half<W>, k: Half<W>): Half<W> {
    var l := o.xor(x.l, o.or(x.r, k.r));
    Half(l, o.xor(x.r, o.rol1(o.and(l, k.l))))
  }

  ghost predicate IsMax(max: nat) {
    max == 24 || max == 32
  }

  function TextbookPair<W>(o: Ops<W>, k: Half<W>, k': Half<W>, s: Block<W>): Block<W> {
    var b := Xor(o, s.b, F(o, s.a, k));
    Block(Xor(o, s.a, F(o, b, k')), b)
  }

  function TextbookRounds<W>(o: Ops<W>, sub: seq<Half<W>>, i: nat, s: Block<W>): Block<W>
    requires i + 8 <= |sub|
  {
    var s1 := TextbookPair(o, sub[i + 2], sub[i + 3], s);
    var s2 := TextbookPair(o, sub[i + 4], sub[i + 5], s1);
    TextbookPair(o, sub[i + 6], sub[i + 7], s2)
  }

  /** The groups based below end, with the FL layers between them. */
  function TextbookGroups<W>(o: Ops<W>, sub: seq<Half<W>>, end: nat, s: Block<W>): Block<W>
    requires 8 <= end <= |sub|
  {
    if end < 16 then TextbookRounds(o, sub, 0, s)
    else
      var i := end - 8;
      var s' := TextbookGroups(o, sub, i, s);
      TextbookRounds(o, sub, i, Block(FL(o, s'.a, sub[i]), FLInv(o, s'.b, sub[i + 1])))
  }

  /** Encryption as section 2.3 of RFC 3713 writes it. */
  function Textbook<W>(o: Ops<W>, sub: seq<Half<W>>, max: nat, m: Block<W>): Block<W>
    requires IsMax(max) && |sub| == max + 2
  {
    var s := TextbookGroups(o, sub, max, Block(Xor(o, m.a, sub[0]), Xor(o, m.b, sub[1])));
    Block(Xor(o, s.b, sub[max]), Xor(o, s.a, sub[max + 1]))
  }

  // ----- The kernel's rounds

  /** CAMELLIA_ROUNDSM: the new value of y. */
  function RoundSM<W>(o: Ops<W>, x: Half<W>, k: Half<W>, y: Half<W>): Half<W> {
    var il := o.xor(o.sLeft(x.l), k.l);
    var ir := o.xor(o.sRight(x.r), o.xor(il, k.r));
    Half(o.xor(y.l, ir), o.xor(y.r, o.xor(o.ror8(il), ir)))
  }

  function FastPair<W>(o: Ops<W>, k: Half<W>, k': Half<W>, s: Block<W>): Block<W> {
    var b := RoundSM(o, s.a, k, s.b);
    Block(RoundSM(o, b, k', s.a), b)
  }

  function FastRounds<W>(o: Ops<W>, key: seq<Half<W>>, i: nat, s: Block<W>): Block<W>
    requires i + 8 <= |key|
  {
    var s1 := FastPair(o, key[i + 2], key[i + 3], s);
    var s2 := FastPair(o, key[i + 4], key[i + 5], s1);
    FastPair(o, key[i + 6], key[i + 7], s2)
  }

  /** CAMELLIA_FLS: FL on one half of the block and FLInv on the other. */
  function Fls<W>(o: Ops<W>, s: Block<W>, k: Half<W>, k': Half<W>): Block<W> {
    Block(FL(o, s.a, k), FLInv(o, s.b, k'))
  }

  function FastGroups<W>(o: Ops<W>, key: seq<Half<W>>, end: nat, s: Block<W>): Block<W>
    requires 8 <= end <= |key|
  {
    if end < 16 then FastRounds(o, key, 0, s)
    else
      var i := end - 8;
      FastRounds(o, key, i, Fls(o, FastGroups(o, key, i, s), key[i], key[i + 1]))
  }

  /** camellia_do_encrypt; the caller swaps the halves. */
  function FastEncrypt<W>(o: Ops<W>, key: seq<Half<W>>, max: nat, m: Block<W>): Block<W>
    requires IsMax(max) && max < |key|
  {
    var s := FastGroups(o, key, max, m.(a := Xor(o, m.a, key[0])));
    s.(b := Xor(o, s.b, key[max]))
  }

  function Swapped<W>(s: Block<W>): Block<W> {
    Block(s.b, s.a)
  }

  // ----- The rewritten subkeys

  /**
   How a difference d in the data comes out of FLInv under key k; also how a difference that is to
   come out of FL has to go in.
   */
  function Through<W>(o: Ops<W>, d: Half<W>, k: Half<W>): Half<W> {
    var l := o.xor(d.l, o.and(d.r, o.not(k.r)));
    Half(l, o.xor(d.r, o.rol1(o.and(l, k.l))))
  }

  /** kw2 as the group based at i sees it, carried through the FLInv layers before the group. */
  function Kw2<W>(o: Ops<W>, sub: seq<Half<W>>, i: nat): Half<W>
    requires i + 2 <= |sub|
  {
    if i < 8 then sub[1] else Through(o, Kw2(o, sub, i - 8), sub[i + 1])
  }

  /** kw4 as the group based at i sees it, carried back through the FL layers after the group. */
  function Kw4<W>(o: Ops<W>, sub: seq<Half<W>>, max: nat, i: nat): Half<W>
    requires i + 8 <= max && |sub| == max + 2
    decreases max - i
  {
    if i + 16 > max then sub[max + 1] else Through(o, Kw4(o, sub, max, i + 8), sub[i + 8])
  }

  /** Round key p (2, 4 or 6) of the group based at i, once kw4 is absorbed. */
  function Even<W>(o: Ops<W>, sub: seq<Half<W>>, max: nat, i: nat, p: nat): Half<W>
    requires i + 8 <= max && |sub| == max + 2 && p < 8
  {
    Xor(o, sub[i + p], Kw4(o, sub, max, i))
  }

  /** Round key p (3, 5 or 7) of the group based at i, once kw2 is absorbed. */
  function Odd<W>(o: Ops<W>, sub: seq<Half<W>>, max: nat, i: nat, p: nat): Half<W>
    requires i + 8 <= max && |sub| == max + 2 && p < 8
  {
    Xor(o, sub[i + p], Kw2(o, sub, i))
  }

  /** Round key p of the group based at i, once the key addition is moved to the end of the F-function. */
  function Moved<W>(o: Ops<W>, sub: seq<Half<W>>, max: nat, i: nat, p: nat): Half<W>
    requires i + 8 <= max && |sub| == max + 2 && 2 <= p <= 7
  {
    match p
    case 2 =>
      if i < 8 then Odd(o, sub, max, i, 3)
      else Xor(o, Through(o, Odd(o, sub, max, i - 8, 7), sub[i + 1]), Odd(o, sub, max, i, 3))
    case 3 => Xor(o, Even(o, sub, max, i, 2), Even(o, sub, max, i, 4))
    case 4 => Xor(o, Odd(o, sub, max, i, 3), Odd(o, sub, max, i, 5))
    case 5 => Xor(o, Even(o, sub, max, i, 4), Even(o, sub, max, i, 6))
    case 6 => Xor(o, Odd(o, sub, max, i, 5), Odd(o, sub, max, i, 7))
    case _ =>
      if i + 16 > max then Even(o, sub, max, i, 6)
      else Xor(o, Even(o, sub, max, i, 6), Through(o, Even(o, sub, max, i + 8, 2), sub[i + 8]))
  }

  /** The inverse of the last half of the P-function. */
  function UndoP<W>(o: Ops<W>, k: Half<W>): Half<W> {
    var dw := o.rol8(o.xor(k.l, k.r));
    Half(dw, o.xor(k.l, dw))
  }

  ghost predicate GroupDone<W>(o: Ops<W>, sub: seq<Half<W>>, max: nat, key: seq<Half<W>>, i: nat)
    requires max < |key| && |sub| == max + 2 && i + 8 <= max
  {
    && key[i + 2] == UndoP(o, Moved(o, sub, max, i, 2))
    && key[i + 3] == UndoP(o, Moved(o, sub, max, i, 3))
    && key[i + 4] == UndoP(o, Moved(o, sub, max, i, 4))
    && key[i + 5] == UndoP(o, Moved(o, sub, max, i, 5))
    && key[i + 6] == UndoP(o, Moved(o, sub, max, i, 6))
    && key[i + 7] == UndoP(o, Moved(o, sub, max, i, 7))
    && (i >= 8 ==> key[i] == sub[i] && key[i + 1] == sub[i + 1])
  }

  /** Every group based below end is done; the groups are based at multiples of 8. */
  ghost predicate GroupsDone<W>(o: Ops<W>, sub: seq<Half<W>>, max: nat, key: seq<Half<W>>, end: nat)
    requires max < |key| && |sub| == max + 2 && 8 <= end <= max
  {
    && GroupDone(o, sub, max, key, end - 8)
    && if end < 16 then end == 8 else GroupsDone(o, sub, max, key, end - 8)
  }

  /** The table camellia_setup_tail leaves in subkey; its entries 1 and max + 1 are never written or read. */
  ghost predicate IsFinalTable<W>(o: Ops<W>, sub: seq<Half<W>>, max: nat, key: seq<Half<W>>)
    requires IsMax(max) && |sub| == max + 2
  {
    && max < |key|
    && key[0] == Xor(o, Xor(o, sub[0], Kw4(o, sub, max, 0)), Even(o, sub, max, 0, 2))
    && key[max] == Xor(o, Xor(o, sub[max], Kw2(o, sub, max - 8)), Odd(o, sub, max, max - 8, 7))
    && GroupsDone(o, sub, max, key, max)
  }

  // ----- Algebra

  lemma XorWords<W(!new)>(o: Ops<W>, a: W, b: W, c: W)
    requires Laws(o)
    ensures o.xor(o.xor(a, b), c) == o.xor(a, o.xor(b, c))
    ensures o.xor(a, b) == o.xor(b, a)
    ensures o.xor(a, o.xor(a, b)) == b
  {
    assert At(a, b, c);
  }

  lemma XorWordsCancel<W(!new)>(o: Ops<W>, a: W, b: W)
    requires Laws(o)
    ensures o.xor(o.xor(a, b), b) == a
  {
    assert At(a, b, b);
    assert At(b, a, b);
    assert At(o.xor(a, b), b, b);
  }

  lemma XorAssoc<W(!new)>(o: Ops<W>, x: Half<W>, y: Half<W>, z: Half<W>)
    requires Laws(o)
    ensures Xor(o, Xor(o, x, y), z) == Xor(o, x, Xor(o, y, z))
  {
    assert At(x.l, y.l, z.l);
    assert At(x.r, y.r, z.r);
  }

  lemma XorComm<W(!new)>(o: Ops<W>, x: Half<W>, y: Half<W>)
    requires Laws(o)
    ensures Xor(o, x, y) == Xor(o, y, x)
  {
    assert At(x.l, y.l, y.l);
    assert At(x.r, y.r, y.r);
  }

  lemma XorCancel<W(!new)>(o: Ops<W>, x: Half<W>, y: Half<W>)
    requires Laws(o)
    ensures Xor(o, x, Xor(o, x, y)) == y
    ensures Xor(o, Xor(o, x, y), y) == x
  {
    XorWords(o, x.l, y.l, y.l);
    XorWords(o, x.r, y.r, y.r);
    XorWordsCancel(o, x.l, y.l);
    XorWordsCancel(o, x.r, y.r);
  }

  lemma XorSwap<W(!new)>(o: Ops<W>, a: W, b: W, c: W, d: W)
    requires Laws(o)
    ensures o.xor(o.xor(a, b), o.xor(c, d)) == o.xor(o.xor(a, c), o.xor(b, d))
  {
    calc {
      o.xor(o.xor(a, b), o.xor(c, d));
      { XorWords(o, a, b, o.xor(c, d)); }
      o.xor(a, o.xor(b, o.xor(c, d)));
      { XorWords(o, b, c, d); XorWords(o, c, b, d); }
      o.xor(a, o.xor(c, o.xor(b, d)));
      { XorWords(o, a, c, o.xor(b, d)); }
      o.xor(o.xor(a, c), o.xor(b, d));
    }
  }

  lemma XorSwapHalves<W(!new)>(o: Ops<W>, x: Half<W>, y: Half<W>, z: Half<W>, w: Half<W>)
    requires Laws(o)
    ensures Xor(o, Xor(o, x, y), Xor(o, z, w)) == Xor(o, Xor(o, x, z), Xor(o, y, w))
  {
    XorSwap(o, x.l, y.l, z.l, w.l);
    XorSwap(o, x.r, y.r, z.r, w.r);
  }

  /** Through is linear. */
  lemma ThroughXor<W(!new)>(o: Ops<W>, d: Half<W>, e: Half<W>, k: Half<W>)
    requires Laws(o)
    ensures Through(o, Xor(o, d, e), k) == Xor(o, Through(o, d, k), Through(o, e, k))
  {
    var n := o.not(k.r);
    assert At(d.r, e.r, n);
    XorSwap(o, d.l, e.l, o.and(d.r, n), o.and(e.r, n));
    var l, l' := o.xor(d.l, o.and(d.r, n)), o.xor(e.l, o.and(e.r, n));
    assert At(l, l', k.l);
    assert At(o.and(l, k.l), o.and(l', k.l), n);
    XorSwap(o, d.r, e.r, o.rol1(o.and(l, k.l)), o.rol1(o.and(l', k.l)));
  }

  /** A difference d at the input of FLInv is Through(d) at its output. */
  lemma FLInvDifference<W(!new)>(o: Ops<W>, x: Half<W>, d: Half<W>, k: Half<W>)
    requires Laws(o)
    ensures FLInv(o, Xor(o, x, d), k) == Xor(o, FLInv(o, x, k), Through(o, d, k))
  {
    assert At(x.r, d.r, k.r);
    XorSwap(o, x.l, d.l, o.or(x.r, k.r), o.and(d.r, o.not(k.r)));
    var l, l' := o.xor(x.l, o.or(x.r, k.r)), o.xor(d.l, o.and(d.r, o.not(k.r)));
    assert At(l, l', k.l);
    assert At(o.and(l, k.l), o.and(l', k.l), k.l);
    XorSwap(o, x.r, d.r, o.rol1(o.and(l, k.l)), o.rol1(o.and(l', k.l)));
  }

  /** A difference Through(d) at the input of FL is d at its output. */
  lemma FLDifference<W(!new)>(o: Ops<W>, x: Half<W>, d: Half<W>, k: Half<W>)
    requires Laws(o)
    ensures FL(o, Xor(o, x, Through(o, d, k)), k) == Xor(o, FL(o, x, k), d)
  {
    var e := Through(o, d, k);
    var turn := o.rol1(o.and(e.l, k.l));
    assert At(x.l, e.l, k.l);
    assert At(o.and(x.l, k.l), o.and(e.l, k.l), k.l);
    XorSwap(o, x.r, e.r, o.rol1(o.and(x.l, k.l)), turn);
    XorWordsCancel(o, d.r, turn);
    var r := o.xor(x.r, o.rol1(o.and(x.l, k.l)));
    assert FL(o, Xor(o, x, e), k).r == o.xor(r, d.r);
    assert At(r, d.r, k.r);
    var mask := o.and(d.r, o.not(k.r));
    XorSwap(o, x.l, e.l, o.or(r, k.r), mask);
    XorWordsCancel(o, d.l, mask);
  }

  /** A fast round adds to y the textbook F-function and the key that UndoP encoded. */
  lemma RoundIsF<W(!new)>(o: Ops<W>, x: Half<W>, k: Half<W>, d: Half<W>, y: Half<W>)
    requires Laws(o)
    ensures RoundSM(o, Xor(o, x, k), UndoP(o, d), y) == Xor(o, y, Xor(o, F(o, x, k), d))
  {
    var u, v := o.sRight(o.xor(x.r, k.r)), o.sLeft(o.xor(x.l, k.l));
    var dw := o.rol8(o.xor(d.l, d.r));
    var il, ir := o.xor(v, dw), o.xor(u, o.xor(o.xor(v, dw), o.xor(d.l, dw)));
    calc {
      ir;
      {
        XorWords(o, d.l, dw, dw);
        XorSwap(o, v, dw, dw, d.l);
        XorSwap(o, v, dw, d.l, dw);
        XorWordsCancel(o, o.xor(v, d.l), o.xor(dw, dw));
        XorWordsCancel(o, o.xor(v, d.l), dw);
        XorWords(o, o.xor(v, d.l), dw, dw);
      }
      o.xor(u, o.xor(v, d.l));
      { XorWords(o, u, v, d.l); }
      o.xor(o.xor(u, v), d.l);
    }
    calc {
      o.xor(o.ror8(il), ir);
      { assert At(v, dw, dw); assert At(o.xor(d.l, d.r), dw, dw); }
      o.xor(o.xor(o.ror8(v), o.xor(d.l, d.r)), o.xor(o.xor(u, v), d.l));
      { XorSwap(o, o.ror8(v), o.xor(d.l, d.r), o.xor(u, v), d.l); }
      o.xor(o.xor(o.ror8(v), o.xor(u, v)), o.xor(o.xor(d.l, d.r), d.l));
      { XorWords(o, d.l, d.r, d.r); XorWordsCancel(o, d.r, d.l); XorWords(o, d.r, d.l, d.l); }
      o.xor(o.xor(o.ror8(v), o.xor(u, v)), d.r);
    }
  }

  // ----- Simulation: the fast state differs from the textbook state by a known key offset

  /** The offset of the block's right half when the rounds based at i start. */
  function Entry<W>(o: Ops<W>, sub: seq<Half<W>>, i: nat): Half<W>
    requires i + 2 <= |sub|
  {
    if i < 8 then sub[1] else Through(o, sub[i - 1], sub[i + 1])
  }

  /** The offset of the block's left half when the rounds based at i end. */
  function Exit<W>(o: Ops<W>, sub: seq<Half<W>>, max: nat, i: nat): Half<W>
    requires i + 8 <= max && |sub| == max + 2
  {
    if i + 16 > max then sub[max + 1] else Through(o, sub[i + 10], sub[i + 8])
  }

  ghost predicate Offset<W>(o: Ops<W>, s: Block<W>, f: Block<W>, da: Half<W>, db: Half<W>) {
    f == Block(Xor(o, s.a, da), Xor(o, s.b, db))
  }

  lemma PairKeepsOffset<W(!new)>(o: Ops<W>, s: Block<W>, f: Block<W>, k: Half<W>, k': Half<W>,
                                 d: Half<W>, d': Half<W>, e: Half<W>, e': Half<W>)
    requires Laws(o) && Offset(o, s, f, k, e)
    requires Xor(o, e, d) == k' && Xor(o, k, d') == e'
    ensures Offset(o, TextbookPair(o, k, k', s), FastPair(o, UndoP(o, d), UndoP(o, d'), f), e', k')
  {
    var b := Xor(o, s.b, F(o, s.a, k));
    RoundIsF(o, s.a, k, d, f.b);
    XorSwapHalves(o, s.b, e, F(o, s.a, k), d);
    RoundIsF(o, b, k', d', f.a);
    XorSwapHalves(o, s.a, k, F(o, b, k'), d');
  }

  /** (x ^ w) ^ (y ^ w) == x ^ y */
  lemma XorCommon<W(!new)>(o: Ops<W>, x: Half<W>, y: Half<W>, w: Half<W>)
    requires Laws(o)
    ensures Xor(o, Xor(o, x, w), Xor(o, y, w)) == Xor(o, x, y)
  {
    XorComm(o, y, w);
    XorSwapHalves(o, x, w, w, y);
    XorSwapHalves(o, w, x, w, y);
    XorComm(o, x, w);
    XorCancel(o, w, y);
    XorAssoc(o, x, w, Xor(o, w, y));
  }

  /** k ^ ((k ^ w) ^ (k' ^ w)) == k' */
  lemma MovedKey<W(!new)>(o: Ops<W>, k: Half<W>, k': Half<W>, w: Half<W>)
    requires Laws(o)
    ensures Xor(o, k, Xor(o, Xor(o, k, w), Xor(o, k', w))) == k'
  {
    XorCommon(o, k, k', w);
    XorCancel(o, k, k');
  }

  /** Moved subkeys inside a group turn the offset of one round into that of the next but one. */
  lemma MovedInside<W(!new)>(o: Ops<W>, sub: seq<Half<W>>, max: nat, i: nat)
    requires Laws(o) && |sub| == max + 2 && i + 8 <= max
    ensures Xor(o, sub[i + 2], Moved(o, sub, max, i, 3)) == sub[i + 4]
    ensures Xor(o, sub[i + 3], Moved(o, sub, max, i, 4)) == sub[i + 5]
    ensures Xor(o, sub[i + 4], Moved(o, sub, max, i, 5)) == sub[i + 6]
    ensures Xor(o, sub[i + 5], Moved(o, sub, max, i, 6)) == sub[i + 7]
  {
    MovedKey(o, sub[i + 2], sub[i + 4], Kw4(o, sub, max, i));
    MovedKey(o, sub[i + 3], sub[i + 5], Kw2(o, sub, i));
    MovedKey(o, sub[i + 4], sub[i + 6], Kw4(o, sub, max, i));
    MovedKey(o, sub[i + 5], sub[i + 7], Kw2(o, sub, i));
  }

  lemma MovedEntry<W(!new)>(o: Ops<W>, sub: seq<Half<W>>, max: nat, i: nat)
    requires Laws(o) && |sub| == max + 2 && i + 8 <= max
    ensures Xor(o, Entry(o, sub, i), Moved(o, sub, max, i, 2)) == sub[i + 3]
  {
    if i < 8 {
      XorComm(o, sub[i + 3], sub[1]);
      XorCancel(o, sub[1], sub[i + 3]);
    } else {
      var k, before, w := sub[i + 1], sub[i - 1], Kw2(o, sub, i - 8);
      assert Odd(o, sub, max, i - 8, 7) == Xor(o, before, w);
      ThroughXor(o, before, w, k);
      MovedKey(o, Through(o, before, k), sub[i + 3], Kw2(o, sub, i));
    }
  }

  lemma MovedExit<W(!new)>(o: Ops<W>, sub: seq<Half<W>>, max: nat, i: nat)
    requires Laws(o) && |sub| == max + 2 && i + 8 <= max
    ensures Xor(o, sub[i + 6], Moved(o, sub, max, i, 7)) == Exit(o, sub, max, i)
  {
    if i + 16 > max {
      XorCancel(o, sub[i + 6], sub[max + 1]);
    } else {
      var k, after, w := sub[i + 8], sub[i + 10], Kw4(o, sub, max, i + 8);
      assert Even(o, sub, max, i + 8, 2) == Xor(o, after, w);
      ThroughXor(o, after, w, k);
      MovedKey(o, sub[i + 6], Through(o, after, k), Kw4(o, sub, max, i));
    }
  }

  lemma RoundsKeepOffset<W(!new)>(o: Ops<W>, sub: seq<Half<W>>, max: nat, key: seq<Half<W>>, i: nat, s: Block<W>,
                           f: Block<W>)
    requires Laws(o) && max < |key| && |sub| == max + 2 && i + 8 <= max && GroupDone(o, sub, max, key, i)
    requires Offset(o, s, f, sub[i + 2], Entry(o, sub, i))
    ensures Offset(o, TextbookRounds(o, sub, i, s), FastRounds(o, key, i, f), Exit(o, sub, max, i), sub[i + 7])
  {
    MovedEntry(o, sub, max, i);
    MovedInside(o, sub, max, i);
    MovedExit(o, sub, max, i);
    var s1, f1 := TextbookPair(o, sub[i + 2], sub[i + 3], s), FastPair(o, key[i + 2], key[i + 3], f);
    PairKeepsOffset(o, s, f, sub[i + 2], sub[i + 3],
      Moved(o, sub, max, i, 2), Moved(o, sub, max, i, 3), Entry(o, sub, i), sub[i + 4]);
    var s2, f2 := TextbookPair(o, sub[i + 4], sub[i + 5], s1), FastPair(o, key[i + 4], key[i + 5], f1);
    PairKeepsOffset(o, s1, f1, sub[i + 4], sub[i + 5],
      Moved(o, sub, max, i, 4), Moved(o, sub, max, i, 5), sub[i + 3], sub[i + 6]);
    PairKeepsOffset(o, s2, f2, sub[i + 6], sub[i + 7],
      Moved(o, sub, max, i, 6), Moved(o, sub, max, i, 7), sub[i + 5], Exit(o, sub, max, i));
  }

  lemma LayerKeepsOffset<W(!new)>(o: Ops<W>, sub: seq<Half<W>>, max: nat, i: nat, s: Block<W>, f: Block<W>)
    requires Laws(o) && |sub| == max + 2 && 8 <= i && i + 8 <= max
    requires Offset(o, s, f, Exit(o, sub, max, i - 8), sub[i - 1])
    ensures Offset(o, Fls(o, s, sub[i], sub[i + 1]), Fls(o, f, sub[i], sub[i + 1]), sub[i + 2], Entry(o, sub, i))
  {
    assert Exit(o, sub, max, i - 8) == Through(o, sub[i + 2], sub[i]);
    FLDifference(o, s.a, sub[i + 2], sub[i]);
    FLInvDifference(o, s.b, sub[i - 1], sub[i + 1]);
  }

  lemma {:induction false} GroupsKeepOffset<W(!new)>(o: Ops<W>, sub: seq<Half<W>>, max: nat, key: seq<Half<W>>,
                                              end: nat, s: Block<W>, f: Block<W>)
    requires Laws(o) && max < |key| && |sub| == max + 2 && 8 <= end <= max && GroupsDone(o, sub, max, key, end)
    requires Offset(o, s, f, sub[2], sub[1])
    ensures Offset(o, TextbookGroups(o, sub, end, s), FastGroups(o, key, end, f),
      Exit(o, sub, max, end - 8), sub[end - 1])
  {
    var i := end - 8;
    if end < 16 {
      RoundsKeepOffset(o, sub, max, key, 0, s, f);
    } else {
      GroupsKeepOffset(o, sub, max, key, i, s, f);
      var s', f' := TextbookGroups(o, sub, i, s), FastGroups(o, key, i, f);
      LayerKeepsOffset(o, sub, max, i, s', f');
      RoundsKeepOffset(o, sub, max, key, i, Fls(o, s', sub[i], sub[i + 1]), Fls(o, f', key[i], key[i + 1]));
    }
  }

  /** The rewritten subkeys and rounds compute the textbook cipher, for every subkey table and block. */
  lemma FastIsTextbook<W(!new)>(o: Ops<W>, sub: seq<Half<W>>, max: nat, key: seq<Half<W>>, m: Block<W>)
    requires Laws(o) && IsMax(max) && |sub| == max + 2 && IsFinalTable(o, sub, max, key)
    ensures Swapped(FastEncrypt(o, key, max, m)) == Textbook(o, sub, max, m)
  {
    var s := Block(Xor(o, m.a, sub[0]), Xor(o, m.b, sub[1]));
    var f := m.(a := Xor(o, m.a, key[0]));
    XorCommon(o, sub[0], sub[2], Kw4(o, sub, max, 0));
    XorAssoc(o, m.a, sub[0], sub[2]);
    XorCancel(o, m.b, sub[1]);
    GroupsKeepOffset(o, sub, max, key, max, s, f);
    var s', f' := TextbookGroups(o, sub, max, s), FastGroups(o, key, max, f);
    var last := sub[max - 1];
    XorCommon(o, sub[max], last, Kw2(o, sub, max - 8));
    XorComm(o, sub[max], last);
    XorAssoc(o, s'.b, last, Xor(o, last, sub[max]));
    XorCancel(o, last, sub[max]);
  }

  // ----- Decryption

  function UndoRounds<W>(o: Ops<W>, key: seq<Half<W>>, i: nat, s: Block<W>): Block<W>
    requires i + 8 <= |key|
  {
    var s1 := FastPair(o, key[i + 7], key[i + 6], s);
    var s2 := FastPair(o, key[i + 5], key[i + 4], s1);
    FastPair(o, key[i + 3], key[i + 2], s2)
  }

  function UndoGroups<W>(o: Ops<W>, key: seq<Half<W>>, end: nat, s: Block<W>): Block<W>
    requires 8 <= end <= |key|
  {
    if end < 16 then UndoRounds(o, key, 0, s)
    else
      var i := end - 8;
      UndoGroups(o, key, i, Fls(o, UndoRounds(o, key, i, s), key[i + 1], key[i]))
  }

  /** camellia_do_decrypt; the caller swaps the halves. */
  function FastDecrypt<W>(o: Ops<W>, key: seq<Half<W>>, max: nat, c: Block<W>): Block<W>
    requires IsMax(max) && max < |key|
  {
    var s := UndoGroups(o, key, max, c.(a := Xor(o, c.a, key[max])));
    s.(b := Xor(o, s.b, key[0]))
  }

  lemma RoundUndoesItself<W(!new)>(o: Ops<W>, x: Half<W>, k: Half<W>, y: Half<W>)
    requires Laws(o)
    ensures RoundSM(o, x, k, RoundSM(o, x, k, y)) == y
  {
    var il := o.xor(o.sLeft(x.l), k.l);
    var ir := o.xor(o.sRight(x.r), o.xor(il, k.r));
    XorWordsCancel(o, y.l, ir);
    XorWordsCancel(o, y.r, o.xor(o.ror8(il), ir));
  }

  lemma PairUndone<W(!new)>(o: Ops<W>, k: Half<W>, k': Half<W>, s: Block<W>)
    requires Laws(o)
    ensures FastPair(o, k', k, Swapped(FastPair(o, k, k', s))) == Swapped(s)
  {
    var b := RoundSM(o, s.a, k, s.b);
    RoundUndoesItself(o, s.a, k, s.b);
    RoundUndoesItself(o, b, k', s.a);
  }

  lemma LayerUndone<W(!new)>(o: Ops<W>, k: Half<W>, k': Half<W>, s: Block<W>)
    requires Laws(o)
    ensures Fls(o, Swapped(Fls(o, s, k, k')), k', k) == Swapped(s)
  {
    var r := o.xor(s.a.r, o.rol1(o.and(s.a.l, k.l)));
    XorWordsCancel(o, s.a.l, o.or(r, k.r));
    XorWordsCancel(o, s.a.r, o.rol1(o.and(s.a.l, k.l)));
    var l := o.xor(s.b.l, o.or(s.b.r, k'.r));
    XorWordsCancel(o, s.b.r, o.rol1(o.and(l, k'.l)));
    XorWordsCancel(o, s.b.l, o.or(s.b.r, k'.r));
  }

  lemma RoundsUndone<W(!new)>(o: Ops<W>, key: seq<Half<W>>, i: nat, s: Block<W>)
    requires Laws(o) && i + 8 <= |key|
    ensures UndoRounds(o, key, i, Swapped(FastRounds(o, key, i, s))) == Swapped(s)
  {
    var s1 := FastPair(o, key[i + 2], key[i + 3], s);
    var s2 := FastPair(o, key[i + 4], key[i + 5], s1);
    PairUndone(o, key[i + 6], key[i + 7], s2);
    PairUndone(o, key[i + 4], key[i + 5], s1);
    PairUndone(o, key[i + 2], key[i + 3], s);
  }

  lemma {:induction false} GroupsUndone<W(!new)>(o: Ops<W>, key: seq<Half<W>>, end: nat, s: Block<W>)
    requires Laws(o) && 8 <= end <= |key|
    ensures UndoGroups(o, key, end, Swapped(FastGroups(o, key, end, s))) == Swapped(s)
  {
    if end < 16 {
      RoundsUndone(o, key, 0, s);
    } else {
      var i := end - 8;
      var s' := FastGroups(o, key, i, s);
      RoundsUndone(o, key, i, Fls(o, s', key[i], key[i + 1]));
      LayerUndone(o, key[i], key[i + 1], s');
      GroupsUndone(o, key, i, s);
    }
  }

  /** Decryption inverts encryption for every key table, whether or not setup wrote it. */
  lemma DecryptInvertsEncrypt<W(!new)>(o: Ops<W>, key: seq<Half<W>>, max: nat, m: Block<W>)
    requires Laws(o) && IsMax(max) && max < |key|
    ensures Swapped(FastDecrypt(o, key, max, Swapped(FastEncrypt(o, key, max, m)))) == m
  {
    var s := m.(a := Xor(o, m.a, key[0]));
    var e := FastGroups(o, key, max, s);
    XorCancel(o, e.b, key[max]);
    GroupsUndone(o, key, max, s);
    XorCancel(o, m.a, key[0]);
  }


  lemma UndoRoundsUndone<W(!new)>(o: Ops<W>, key: seq<Half<W>>, i: nat, s: Block<W>)
    requires Laws(o) && i + 8 <= |key|
    ensures FastRounds(o, key, i, Swapped(UndoRounds(o, key, i, s))) == Swapped(s)
  {
    var s1 := FastPair(o, key[i + 7], key[i + 6], s);
    var s2 := FastPair(o, key[i + 5], key[i + 4], s1);
    PairUndone(o, key[i + 3], key[i + 2], s2);
    PairUndone(o, key[i + 5], key[i + 4], s1);
    PairUndone(o, key[i + 7], key[i + 6], s);
  }

  lemma {:induction false} UndoGroupsUndone<W(!new)>(o: Ops<W>, key: seq<Half<W>>, end: nat, s: Block<W>)
    requires Laws(o) && 8 <= end <= |key|
    ensures FastGroups(o, key, end, Swapped(UndoGroups(o, key, end, s))) == Swapped(s)
  {
    if end < 16 {
      UndoRoundsUndone(o, key, 0, s);
    } else {
      var i := end - 8;
      var s' := UndoRounds(o, key, i, s);
      UndoGroupsUndone(o, key, i, Fls(o, s', key[i + 1], key[i]));
      LayerUndone(o, key[i + 1], key[i], s');
      UndoRoundsUndone(o, key, i, s);
    }
  }

  /** Encryption inverts decryption: both are permutations of the blocks. */
  lemma EncryptInvertsDecrypt<W(!new)>(o: Ops<W>, key: seq<Half<W>>, max: nat, c: Block<W>)
    requires Laws(o) && IsMax(max) && max < |key|
    ensures Swapped(FastEncrypt(o, key, max, Swapped(FastDecrypt(o, key, max, c)))) == c
  {
    var s := c.(a := Xor(o, c.a, key[max]));
    var d := UndoGroups(o, key, max, s);
    XorCancel(o, d.b, key[0]);
    UndoGroupsUndone(o, key, max, s);
    XorCancel(o, c.a, key[max]);
  }
}
