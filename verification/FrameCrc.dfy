/** Bytes and words as numbers and as bits. */
module ByteWords {
  lemma ByteThere(b: nat)
    requires b < 256
    ensures (b as bv8) as nat == b
  {
  }

  lemma Extended(x: bv8)
    ensures (x as bv16) as nat == x as nat
  {
  }

  lemma WordThere(a: bv16)
    ensures (a as nat) as bv16 == a
  {
  }

  lemma SmallWord(x: bv8)
    ensures (x as bv16) & 0x00FF == x as bv16
  {
  }

  lemma ExtensionsDiffer(x: bv8, y: bv8)
    requires x != y
    ensures x as bv16 != y as bv16
  {
  }
}

/** Frames with their real CRC: what a corrupted content does to the check. */
module FrameCrc {
  import opened ByteWords
  import opened Frames
  import opened CrcAlgebra
  import opened CrcBits
  import opened CrcTable
  import Crc

  /** A byte as a word. */
  function Word(b: Byte): bv16 {
    (b as bv8) as bv16
  }

  function Mapped<A, B>(f: A -> B, s: seq<A>): seq<B> {
    seq(|s|, i requires 0 <= i < |s| => f(s[i]))
  }

  lemma MappedPair<A, B>(f: A -> B, pre: seq<A>, a: A, b: A, post: seq<A>)
    ensures Mapped(f, pre + [a, b] + post) == Mapped(f, pre) + [f(a), f(b)] + Mapped(f, post)
  {
  }

  /** crc16 from all ones, over the bytes of a frame. */
  function FrameCrc16(data: seq<Byte>): (c: nat)
    ensures c < 65536
  {
    Bitwise(Crc.Itut(), 0xFFFF, Mapped(Word, data)) as nat
  }

  lemma ByteIsByte(b: Byte)
    ensures IsByte(Crc.Itut(), Word(b))
  {
    Crc.AppliedLow(Word(b));
    SmallWord(b as bv8);
  }

  /** CRCs that differ as words differ as numbers. */
  lemma NumbersDiffer(a: bv16, b: bv16)
    requires a != b
    ensures a as nat != b as nat
  {
    WordThere(a);
    WordThere(b);
  }

  lemma BytesDiffer(a: Byte, b: Byte)
    requires a != b
    ensures Word(a) != Word(b)
  {
    ByteThere(a);
    ByteThere(b);
    ExtensionsDiffer(a as bv8, b as bv8);
  }

  /** The CRC of two messages that differ only in two adjacent bytes differs. */
  lemma PairChangesCrc(pre: seq<Byte>, a: Byte, b: Byte, a': Byte, b': Byte, post: seq<Byte>)
    requires a != a' || b != b'
    ensures FrameCrc16(pre + [a, b] + post) != FrameCrc16(pre + [a', b'] + post)
  {
    Crc.ItutLaws();
    Crc.ItutPairLaws();
    ByteIsByte(a);
    ByteIsByte(b);
    ByteIsByte(a');
    ByteIsByte(b');
    if a != a' {
      BytesDiffer(a, a');
    } else {
      BytesDiffer(b, b');
    }
    MappedPair(Word, pre, a, b, post);
    MappedPair(Word, pre, a', b', post);
    var o := Crc.Itut();
    PairIsDetected(o, 0xFFFF, Mapped(Word, pre), Word(a), Word(b), Word(a'), Word(b'), Mapped(Word, post));
    NumbersDiffer(Bitwise(o, 0xFFFF, Mapped(Word, pre + [a, b] + post)),
      Bitwise(o, 0xFFFF, Mapped(Word, pre + [a', b'] + post)));
  }

  lemma SplitAt(data: seq<Byte>, i: nat)
    requires i + 1 < |data|
    ensures data == data[..i] + [data[i], data[i + 1]] + data[i + 2..]
  {
  }

  lemma SameAround(f: seq<Byte>, g: seq<Byte>, i: nat)
    requires |f| == |g| && i + 1 < |g| - 6 && forall k :: 0 <= k < |g| && k != 3 + i && k != 4 + i ==> f[k] == g[k]
    ensures var was, now := g[3..|g| - 3], f[3..|f| - 3];
      && now[..i] == was[..i] && now[i + 2..] == was[i + 2..]
      && now[i] == f[3 + i] && now[i + 1] == f[4 + i] && was[i] == g[3 + i] && was[i + 1] == g[4 + i]
  {
    var was, now := g[3..|g| - 3], f[3..|f| - 3];
    forall k | 0 <= k < |was| && k != i && k != i + 1 ensures now[k] == was[k] {
      assert now[k] == f[3 + k] && was[k] == g[3 + k];
    }
  }

  /** A built frame with one content byte, or two adjacent ones, changed does not pass the check. */
  lemma CorruptionIsDetected(machine: Byte, content: seq<Byte>, i: nat, f: seq<Byte>)
    requires i + 1 < |content|
    requires var g := Build(FrameCrc16, machine, content);
      |f| == |g| && f != g && forall k :: 0 <= k < |g| && k != 3 + i && k != 4 + i ==> f[k] == g[k]
    ensures !FrameOk(FrameCrc16, f)
  {
    var g := Build(FrameCrc16, machine, content);
    var was, now := g[3..|g| - 3], f[3..|f| - 3];
    BuiltBody(FrameCrc16, machine, content);
    SplitAt(was, i);
    SplitAt(now, i);
    SameAround(f, g, i);
    PairChangesCrc(was[..i], was[i], was[i + 1], now[i], now[i + 1], was[i + 2..]);
  }

  // ----- Bursts

  /** The bits in which three adjacent bytes differ, least significant bit first, span at most sixteen. */
  predicate WithinSixteen(mid: seq<Byte>, mid': seq<Byte>)
    requires |mid| == |mid'| == 3
  {
    SpansSixteen(Word(mid[0]) ^ Word(mid'[0]), Word(mid[2]) ^ Word(mid'[2]))
  }

  lemma MappedMiddle<A, B>(f: A -> B, pre: seq<A>, mid: seq<A>, post: seq<A>)
    ensures Mapped(f, pre + mid + post) == Mapped(f, pre) + Mapped(f, mid) + Mapped(f, post)
  {
  }

  lemma WordsDiffer(mid: seq<Byte>, mid': seq<Byte>)
    requires |mid| == |mid'| && mid != mid'
    ensures Mapped(Word, mid) != Mapped(Word, mid')
  {
    var k :| 0 <= k < |mid| && mid[k] != mid'[k];
    BytesDiffer(mid[k], mid'[k]);
    assert Mapped(Word, mid)[k] != Mapped(Word, mid')[k];
  }

  lemma WordsAreBytes(mid: seq<Byte>)
    ensures Bytes(Crc.Itut(), Mapped(Word, mid))
  {
    forall k | 0 <= k < |mid| ensures IsByte(Crc.Itut(), Mapped(Word, mid)[k]) {
      ByteIsByte(mid[k]);
    }
  }

  lemma WordsSpan(mid: seq<Byte>, mid': seq<Byte>)
    requires |mid| == |mid'| == 3 && WithinSixteen(mid, mid')
    ensures var o, m, m' := Crc.Itut(), Mapped(Word, mid), Mapped(Word, mid');
      SpansSixteen(o.xor(m[0], m'[0]), o.xor(m[2], m'[2]))
  {
    Crc.AppliedXor(Word(mid[0]), Word(mid'[0]));
    Crc.AppliedXor(Word(mid[2]), Word(mid'[2]));
  }

  /** The CRC of two messages that differ by a burst of up to sixteen bits differs. */
  lemma BurstChangesCrc(pre: seq<Byte>, mid: seq<Byte>, mid': seq<Byte>, post: seq<Byte>)
    requires |mid| == |mid'| == 3 && mid != mid' && WithinSixteen(mid, mid')
    ensures FrameCrc16(pre + mid + post) != FrameCrc16(pre + mid' + post)
  {
    var o, p, m, m', q := Crc.Itut(), Mapped(Word, pre), Mapped(Word, mid), Mapped(Word, mid'), Mapped(Word, post);
    Crc.ItutLaws();
    Crc.ItutPairLaws();
    Crc.ItutXorLaws();
    Crc.ItutBurstLaws();
    WordsDiffer(mid, mid');
    WordsAreBytes(mid);
    WordsAreBytes(mid');
    WordsSpan(mid, mid');
    BurstIsDetected(o, SpansSixteen, 0xFFFF, p, m, m', q);
    MappedMiddle(Word, pre, mid, post);
    MappedMiddle(Word, pre, mid', post);
    NumbersDiffer(Bitwise(o, 0xFFFF, p + m + q), Bitwise(o, 0xFFFF, p + m' + q));
  }

  lemma SameSlice(f: seq<Byte>, g: seq<Byte>, first: nat, end: nat)
    requires first <= end <= |f| == |g| && forall k :: first <= k < end ==> f[k] == g[k]
    ensures f[first..end] == g[first..end]
  {
  }

  lemma ThreeParts(f: seq<Byte>, i: nat)
    requires i + 2 < |f| - 6
    ensures f[3..|f| - 3] == f[3..3 + i] + f[3 + i..6 + i] + f[6 + i..|f| - 3]
  {
  }

  lemma MiddleDiffers(f: seq<Byte>, g: seq<Byte>, i: nat)
    requires |f| == |g| && f != g && i + 2 < |g| - 6
    requires forall k :: 0 <= k < |g| && !(3 + i <= k <= 5 + i) ==> f[k] == g[k]
    ensures f[3 + i..6 + i] != g[3 + i..6 + i]
  {
    var k :| 0 <= k < |g| && f[k] != g[k];
    assert f[3 + i..6 + i][k - 3 - i] == f[k] && g[3 + i..6 + i][k - 3 - i] == g[k];
  }

  lemma BurstInside(f: seq<Byte>, g: seq<Byte>, i: nat)
    requires |f| == |g| && f != g && i + 2 < |g| - 6 && WithinSixteen(g[3 + i..6 + i], f[3 + i..6 + i])
    requires forall k :: 0 <= k < |g| && !(3 + i <= k <= 5 + i) ==> f[k] == g[k]
    ensures FrameCrc16(g[3..|g| - 3]) != FrameCrc16(f[3..|f| - 3])
  {
    MiddleDiffers(f, g, i);
    ThreeParts(f, i);
    ThreeParts(g, i);
    SameSlice(f, g, 3, 3 + i);
    SameSlice(f, g, 6 + i, |g| - 3);
    BurstChangesCrc(g[3..3 + i], g[3 + i..6 + i], f[3 + i..6 + i], g[6 + i..|g| - 3]);
  }

  /** f is g with bits of its three content bytes from place i on changed, spanning at most sixteen. */
  ghost predicate BurstAt(f: seq<Byte>, g: seq<Byte>, i: nat) {
    && |f| == |g| && f != g && i + 2 < |g| - 7
    && (forall k :: 0 <= k < |g| && !(3 + i <= k <= 5 + i) ==> f[k] == g[k])
    && WithinSixteen(g[3 + i..6 + i], f[3 + i..6 + i])
  }

  /** The stored CRC of a frame is that of its body. */
  predicate StoresCrc(g: seq<Byte>) {
    |g| >= 7 && (g[|g| - 3] as nat) * 256 + g[|g| - 2] == FrameCrc16(g[3..|g| - 3])
  }

  lemma BuiltStores(machine: Byte, content: seq<Byte>)
    ensures StoresCrc(Build(FrameCrc16, machine, content))
  {
    BuiltBody(FrameCrc16, machine, content);
  }

  lemma EndsStay(f: seq<Byte>, g: seq<Byte>, i: nat)
    requires BurstAt(f, g, i)
    ensures |f| == |g| >= 7 && f[|f| - 3] == g[|g| - 3] && f[|f| - 2] == g[|g| - 2]
  {
  }

  lemma CrcDiffers(crc: seq<Byte> -> nat, f: seq<Byte>, g: seq<Byte>)
    requires |f| == |g| >= 7 && f[|f| - 3] == g[|g| - 3] && f[|f| - 2] == g[|g| - 2]
    requires (g[|g| - 3] as nat) * 256 + g[|g| - 2] == crc(g[3..|g| - 3]) != crc(f[3..|f| - 3])
    ensures !FrameOk(crc, f)
  {
  }

  lemma CaughtInside(f: seq<Byte>, g: seq<Byte>, i: nat)
    requires BurstAt(f, g, i) && StoresCrc(g)
    ensures !FrameOk(FrameCrc16, f)
  {
    BurstInside(f, g, i);
    EndsStay(f, g, i);
    CrcDiffers(FrameCrc16, f, g);
  }

  /** A built frame whose content is changed by a burst of up to sixteen bits does not pass the check. */
  lemma BurstIsCaught(machine: Byte, content: seq<Byte>, i: nat, f: seq<Byte>)
    requires BurstAt(f, Build(FrameCrc16, machine, content), i)
    ensures !FrameOk(FrameCrc16, f)
  {
    BuiltStores(machine, content);
    CaughtInside(f, Build(FrameCrc16, machine, content), i);
  }

  /** A byte is the word of the same value. */
  lemma WordIs(b: Byte)
    ensures Word(b) as nat == b
  {
    ByteThere(b);
    Extended(b as bv8);
  }

  lemma MappedLast(data: seq<Byte>, b: Byte)
    ensures Mapped(Word, data + [b]) == Mapped(Word, data) + [Word(b)]
  {
  }

  lemma TableStepIs(d: bv16, c: bv16)
    ensures TableStep(Crc.Itut(), d, c) == Crc.Xor(Table(Crc.Low(Crc.Xor(c, d))), Crc.Down(c))
  {
  }

  lemma FrameCrcFrom(data: seq<Byte>, b: Byte, c: bv16)
    requires c == Bitwise(Crc.Itut(), 0xFFFF, Mapped(Word, data))
    ensures Bitwise(Crc.Itut(), 0xFFFF, Mapped(Word, data + [b])) == TableStep(Crc.Itut(), Word(b), c)
  {
    MappedLast(data, b);
    BitwiseConcat(Crc.Itut(), 0xFFFF, Mapped(Word, data), [Word(b)]);
    Crc.ItutLaws();
    ByteIsByte(b);
    TableStepIsBitStep(Crc.Itut(), Word(b), c);
    LastStep(c, Word(b));
  }

  /** The CRC of no bytes is all ones, and each byte takes it through the table of CRC16.cpp. */
  lemma FrameCrcSteps(data: seq<Byte>, b: Byte) returns (c: bv16)
    ensures FrameCrc16([]) == 0xFFFF && FrameCrc16(data) == c as nat && Word(b) as nat == b
    ensures FrameCrc16(data + [b]) == Crc.Xor(Table(Crc.Low(Crc.Xor(c, Word(b)))), Crc.Down(c)) as nat
  {
    c := Bitwise(Crc.Itut(), 0xFFFF, Mapped(Word, data));
    WordIs(b);
    FrameCrcFrom(data, b, c);
    TableStepIs(Word(b), c);
  }

  lemma LastStep(c: bv16, d: bv16)
    ensures Bitwise(Crc.Itut(), c, [d]) == BitStep(Crc.Itut(), d, c)
  {
  }

  /** The loop of crc16 over the table computes the CRC of a frame's bytes. */
  method Crc16Of(data: seq<Byte>) returns (crc: nat)
    ensures crc == FrameCrc16(data)
  {
    Crc.ItutLaws();
    forall i | 0 <= i < |data| ensures IsByte(Crc.Itut(), Mapped(Word, data)[i]) {
      ByteIsByte(data[i]);
    }
    var c := CrcAlgebra.Crc16(Crc.Itut(), 0xFFFF, Mapped(Word, data));
    crc := c as nat;
  }
}
