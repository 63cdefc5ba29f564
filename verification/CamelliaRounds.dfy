/**
 camellia_do_encrypt and camellia_do_decrypt, which rewrite the four words of io in place; the key table
 is read only.
 */
module CamelliaRounds {
  import opened Camellia

  function HalfAt<W>(io: seq<W>, x: nat): Half<W>
    requires x + 1 < |io|
  {
    Half(io[x], io[x + 1])
  }

  function BlockOf<W>(io: seq<W>): Block<W>
    requires |io| == 4
  {
    Block(HalfAt(io, 0), HalfAt(io, 2))
  }

  /** CAMELLIA_ROUNDSM from the half at x to the half at y. */
  method RoundInPlace<W>(o: Ops<W>, io: array<W>, x: nat, k: Half<W>, y: nat)
    requires io.Length == 4 && {x, y} == {0, 2}
    modifies io
    ensures HalfAt(io[..], x) == old(HalfAt(io[..], x))
    ensures HalfAt(io[..], y) == old(RoundSM(o, HalfAt(io[..], x), k, HalfAt(io[..], y)))
  {
    var il := o.xor(o.sLeft(io[x]), k.l);
    var ir := o.xor(o.sRight(io[x + 1]), o.xor(il, k.r));
    io[y] := o.xor(io[y], ir);
    io[y + 1] := o.xor(io[y + 1], o.xor(o.ror8(il), ir));
  }

  /** CAMELLIA_FLS. */
  method FlsInPlace<W>(o: Ops<W>, io: array<W>, k: Half<W>, k': Half<W>)
    requires io.Length == 4
    modifies io
    ensures BlockOf(io[..]) == Fls(o, old(BlockOf(io[..])), k, k')
  {
    io[2] := o.xor(io[2], o.or(io[3], k'.r));
    io[1] := o.xor(io[1], o.rol1(o.and(io[0], k.l)));
    io[0] := o.xor(io[0], o.or(io[1], k.r));
    io[3] := o.xor(io[3], o.rol1(o.and(io[2], k'.l)));
  }

  method PairInPlace<W>(o: Ops<W>, io: array<W>, k: Half<W>, k': Half<W>)
    requires io.Length == 4
    modifies io
    ensures BlockOf(io[..]) == FastPair(o, k, k', old(BlockOf(io[..])))
  {
    RoundInPlace(o, io, 0, k, 2);
    RoundInPlace(o, io, 2, k', 0);
  }

  /** ROUNDS(i) of camellia_do_encrypt. */
  method RoundsInPlace<W>(o: Ops<W>, key: seq<Half<W>>, io: array<W>, i: nat)
    requires io.Length == 4 && i + 8 <= |key|
    modifies io
    ensures BlockOf(io[..]) == FastRounds(o, key, i, old(BlockOf(io[..])))
  {
    PairInPlace(o, io, key[i + 2], key[i + 3]);
    PairInPlace(o, io, key[i + 4], key[i + 5]);
    PairInPlace(o, io, key[i + 6], key[i + 7]);
  }

  /** ROUNDS(i) of camellia_do_decrypt. */
  method UndoRoundsInPlace<W>(o: Ops<W>, key: seq<Half<W>>, io: array<W>, i: nat)
    requires io.Length == 4 && i + 8 <= |key|
    modifies io
    ensures BlockOf(io[..]) == UndoRounds(o, key, i, old(BlockOf(io[..])))
  {
    PairInPlace(o, io, key[i + 7], key[i + 6]);
    PairInPlace(o, io, key[i + 5], key[i + 4]);
    PairInPlace(o, io, key[i + 3], key[i + 2]);
  }

  /** FLS(i) and ROUNDS(i) of camellia_do_encrypt, when the groups below i have turned s into io. */
  method GroupInPlace<W>(o: Ops<W>, key: seq<Half<W>>, io: array<W>, i: nat, ghost s: Block<W>)
    requires io.Length == 4 && 8 <= i && i + 8 <= |key| && BlockOf(io[..]) == FastGroups(o, key, i, s)
    modifies io
    ensures BlockOf(io[..]) == FastGroups(o, key, i + 8, s)
  {
    FlsInPlace(o, io, key[i], key[i + 1]);
    RoundsInPlace(o, key, io, i);
  }

  /** ROUNDS(i) and FLS(i) of camellia_do_decrypt. */
  method UndoGroupInPlace<W>(o: Ops<W>, key: seq<Half<W>>, io: array<W>, i: nat)
    requires io.Length == 4 && i + 8 <= |key|
    modifies io
    ensures BlockOf(io[..]) == Fls(o, UndoRounds(o, key, i, old(BlockOf(io[..]))), key[i + 1], key[i])
  {
    UndoRoundsInPlace(o, key, io, i);
    FlsInPlace(o, io, key[i + 1], key[i]);
  }

  method AddKeyInPlace<W>(o: Ops<W>, io: array<W>, x: nat, k: Half<W>)
    requires io.Length == 4 && (x == 0 || x == 2)
    modifies io
    ensures BlockOf(io[..]) == old(
      var s := BlockOf(io[..]); if x == 0 then s.(a := Xor(o, s.a, k)) else s.(b := Xor(o, s.b, k)))
  {
    io[x] := o.xor(io[x], k.l);
    io[x + 1] := o.xor(io[x + 1], k.r);
  }

  /** The main iteration of camellia_do_encrypt. */
  method IterateInPlace<W>(o: Ops<W>, key: seq<Half<W>>, io: array<W>, max: nat)
    requires IsMax(max) && max < |key| && io.Length == 4
    modifies io
    ensures BlockOf(io[..]) == FastGroups(o, key, max, old(BlockOf(io[..])))
  {
    ghost var s := BlockOf(io[..]);
    RoundsInPlace(o, key, io, 0);
    GroupInPlace(o, key, io, 8, s);
    GroupInPlace(o, key, io, 16, s);
    if max == 32 {
      GroupInPlace(o, key, io, 24, s);
    }
  }

  /** The main iteration of camellia_do_decrypt. */
  method UndoIterateInPlace<W>(o: Ops<W>, key: seq<Half<W>>, io: array<W>, max: nat)
    requires IsMax(max) && max < |key| && io.Length == 4
    modifies io
    ensures BlockOf(io[..]) == UndoGroups(o, key, max, old(BlockOf(io[..])))
  {
    ghost var s := UndoGroups(o, key, max, BlockOf(io[..]));
    if max == 32 {
      UndoGroupInPlace(o, key, io, 24);
      assert s == UndoGroups(o, key, 24, BlockOf(io[..]));
    }
    UndoGroupInPlace(o, key, io, 16);
    assert s == UndoGroups(o, key, 16, BlockOf(io[..]));
    UndoGroupInPlace(o, key, io, 8);
    UndoRoundsInPlace(o, key, io, 0);
  }

  /** camellia_do_encrypt. */
  method DoEncrypt<W>(o: Ops<W>, key: seq<Half<W>>, io: array<W>, max: nat)
    requires IsMax(max) && max < |key| && io.Length == 4
    modifies io
    ensures BlockOf(io[..]) == FastEncrypt(o, key, max, old(BlockOf(io[..])))
  {
    ghost var m := BlockOf(io[..]);
    AddKeyInPlace(o, io, 0, key[0]);
    IterateInPlace(o, key, io, max);
    assert BlockOf(io[..]) == FastGroups(o, key, max, m.(a := Xor(o, m.a, key[0])));
    AddKeyInPlace(o, io, 2, key[max]);
  }

  /** camellia_do_decrypt. */
  method DoDecrypt<W>(o: Ops<W>, key: seq<Half<W>>, io: array<W>, max: nat)
    requires IsMax(max) && max < |key| && io.Length == 4
    modifies io
    ensures BlockOf(io[..]) == FastDecrypt(o, key, max, old(BlockOf(io[..])))
  {
    ghost var c := BlockOf(io[..]);
    AddKeyInPlace(o, io, 0, key[max]);
    UndoIterateInPlace(o, key, io, max);
    assert BlockOf(io[..]) == UndoGroups(o, key, max, c.(a := Xor(o, c.a, key[max])));
    AddKeyInPlace(o, io, 2, key[0]);
  }

  method EncryptWords<W>(o: Ops<W>, key: seq<Half<W>>, max: nat, src: seq<W>) returns (dst: seq<W>)
    requires IsMax(max) && max < |key| && |src| == 4
    ensures |dst| == 4 && BlockOf(dst) == Swapped(FastEncrypt(o, key, max, BlockOf(src)))
  {
    var tmp := new W[4] (i requires 0 <= i < 4 => src[i]);
    assert tmp[..] == src;
    DoEncrypt(o, key, tmp, max);
    ghost var done := BlockOf(tmp[..]);
    dst := [tmp[2], tmp[3], tmp[0], tmp[1]];
    assert BlockOf(dst) == Swapped(done);
  }

  method DecryptWords<W>(o: Ops<W>, key: seq<Half<W>>, max: nat, src: seq<W>) returns (dst: seq<W>)
    requires IsMax(max) && max < |key| && |src| == 4
    ensures |dst| == 4 && BlockOf(dst) == Swapped(FastDecrypt(o, key, max, BlockOf(src)))
  {
    var tmp := new W[4] (i requires 0 <= i < 4 => src[i]);
    assert tmp[..] == src;
    DoDecrypt(o, key, tmp, max);
    ghost var done := BlockOf(tmp[..]);
    dst := [tmp[2], tmp[3], tmp[0], tmp[1]];
    assert BlockOf(dst) == Swapped(done);
  }
}
