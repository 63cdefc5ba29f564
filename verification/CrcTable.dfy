/** The one-bit step of the reflected CRC with polynomial 0x8408, on 16-bit words, and what bursts do to it. */
module CrcBits {
  /** One bit: shift right, and subtract the polynomial when a bit falls out. */
  function Bit(c: bv16): bv16 {
    if c & 1 == 1 then (c >> 1) ^ 0x8408 else c >> 1
  }

  function Bits8(c: bv16): bv16 {
    Bit(Bit(Bit(Bit(Bit(Bit(Bit(Bit(c))))))))
  }

  /**
   Bits of three adjacent bytes that change, least significant bit first: those of the last byte, z, all
   lie below those of the first, x, so that they span at most sixteen bits.
   */
  predicate SpansSixteen(x: bv16, z: bv16) {
    x == 0 || z < (x & (0 - x))
  }

  lemma NoLowBurstCancels(x: bv16, y: bv16, z: bv16)
    requires x & 0xFF00 == 0 && y & 0xFF00 == 0 && z & 0xFF00 == 0 && SpansSixteen(x, z) && x & 0x000F != 0
    ensures Bits8(Bits8(x) ^ y) != z
  {
  }

  lemma NoHighBurstCancels(x: bv16, y: bv16, z: bv16)
    requires x & 0xFF0F == 0 && y & 0xFF00 == 0 && z & 0xFF00 == 0 && SpansSixteen(x, z) && Bits8(Bits8(x) ^ y) == z
    ensures x == 0 && y == 0 && z == 0
  {
  }

  lemma NoBurstCancels(x: bv16, y: bv16, z: bv16)
    requires x & 0xFF00 == 0 && y & 0xFF00 == 0 && z & 0xFF00 == 0 && SpansSixteen(x, z) && Bits8(Bits8(x) ^ y) == z
    ensures x == 0 && y == 0 && z == 0
  {
    if x & 0x000F != 0 {
      NoLowBurstCancels(x, y, z);
      assert false;
    }
    HighOnly(x);
    NoHighBurstCancels(x, y, z);
  }

  lemma HighOnly(x: bv16)
    requires x & 0xFF00 == 0 && x & 0x000F == 0
    ensures x & 0xFF0F == 0
  {
  }

  lemma BytesXor(a: bv16, b: bv16)
    requires a & 0x00FF == a && b & 0x00FF == b
    ensures (a ^ b) & 0xFF00 == 0 && (a ^ b == 0 ==> a == b)
  {
  }

  lemma BurstOfBytes(a: bv16, b: bv16, d: bv16, a': bv16, b': bv16, d': bv16)
    requires a & 0x00FF == a && b & 0x00FF == b && d & 0x00FF == d
    requires a' & 0x00FF == a' && b' & 0x00FF == b' && d' & 0x00FF == d'
    requires SpansSixteen(a ^ a', d ^ d') && Bits8(Bits8(a ^ a') ^ (b ^ b')) == d ^ d'
    ensures a == a' && b == b' && d == d'
  {
    BytesXor(a, a');
    BytesXor(b, b');
    BytesXor(d, d');
    NoBurstCancels(a ^ a', b ^ b', d ^ d');
  }
}

/** The table of CRC16.cpp. */
module CrcTable {
  import opened CrcBits

  function Row0(j: bv4): bv16 {
    match j
    case 0x0 => 0x0000 case 0x1 => 0x1189 case 0x2 => 0x2312 case 0x3 => 0x329B
    case 0x4 => 0x4624 case 0x5 => 0x57AD case 0x6 => 0x6536 case 0x7 => 0x74BF
    case 0x8 => 0x8C48 case 0x9 => 0x9DC1 case 0xA => 0xAF5A case 0xB => 0xBED3
    case 0xC => 0xCA6C case 0xD => 0xDBE5 case 0xE => 0xE97E case _ => 0xF8F7
  }

  function Row1(j: bv4): bv16 {
    match j
    case 0x0 => 0x1081 case 0x1 => 0x0108 case 0x2 => 0x3393 case 0x3 => 0x221A
    case 0x4 => 0x56A5 case 0x5 => 0x472C case 0x6 => 0x75B7 case 0x7 => 0x643E
    case 0x8 => 0x9CC9 case 0x9 => 0x8D40 case 0xA => 0xBFDB case 0xB => 0xAE52
    case 0xC => 0xDAED case 0xD => 0xCB64 case 0xE => 0xF9FF case _ => 0xE876
  }

  function Row2(j: bv4): bv16 {
    match j
    case 0x0 => 0x2102 case 0x1 => 0x308B case 0x2 => 0x0210 case 0x3 => 0x1399
    case 0x4 => 0x6726 case 0x5 => 0x76AF case 0x6 => 0x4434 case 0x7 => 0x55BD
    case 0x8 => 0xAD4A case 0x9 => 0xBCC3 case 0xA => 0x8E58 case 0xB => 0x9FD1
    case 0xC => 0xEB6E case 0xD => 0xFAE7 case 0xE => 0xC87C case _ => 0xD9F5
  }

  function Row3(j: bv4): bv16 {
    match j
    case 0x0 => 0x3183 case 0x1 => 0x200A case 0x2 => 0x1291 case 0x3 => 0x0318
    case 0x4 => 0x77A7 case 0x5 => 0x662E case 0x6 => 0x54B5 case 0x7 => 0x453C
    case 0x8 => 0xBDCB case 0x9 => 0xAC42 case 0xA => 0x9ED9 case 0xB => 0x8F50
    case 0xC => 0xFBEF case 0xD => 0xEA66 case 0xE => 0xD8FD case _ => 0xC974
  }

  function Row4(j: bv4): bv16 {
    match j
    case 0x0 => 0x4204 case 0x1 => 0x538D case 0x2 => 0x6116 case 0x3 => 0x709F
    case 0x4 => 0x0420 case 0x5 => 0x15A9 case 0x6 => 0x2732 case 0x7 => 0x36BB
    case 0x8 => 0xCE4C case 0x9 => 0xDFC5 case 0xA => 0xED5E case 0xB => 0xFCD7
    case 0xC => 0x8868 case 0xD => 0x99E1 case 0xE => 0xAB7A case _ => 0xBAF3
  }

  function Row5(j: bv4): bv16 {
    match j
    case 0x0 => 0x5285 case 0x1 => 0x430C case 0x2 => 0x7197 case 0x3 => 0x601E
    case 0x4 => 0x14A1 case 0x5 => 0x0528 case 0x6 => 0x37B3 case 0x7 => 0x263A
    case 0x8 => 0xDECD case 0x9 => 0xCF44 case 0xA => 0xFDDF case 0xB => 0xEC56
    case 0xC => 0x98E9 case 0xD => 0x8960 case 0xE => 0xBBFB case _ => 0xAA72
  }

  function Row6(j: bv4): bv16 {
    match j
    case 0x0 => 0x6306 case 0x1 => 0x728F case 0x2 => 0x4014 case 0x3 => 0x519D
    case 0x4 => 0x2522 case 0x5 => 0x34AB case 0x6 => 0x0630 case 0x7 => 0x17B9
    case 0x8 => 0xEF4E case 0x9 => 0xFEC7 case 0xA => 0xCC5C case 0xB => 0xDDD5
    case 0xC => 0xA96A case 0xD => 0xB8E3 case 0xE => 0x8A78 case _ => 0x9BF1
  }

  function Row7(j: bv4): bv16 {
    match j
    case 0x0 => 0x7387 case 0x1 => 0x620E case 0x2 => 0x5095 case 0x3 => 0x411C
    case 0x4 => 0x35A3 case 0x5 => 0x242A case 0x6 => 0x16B1 case 0x7 => 0x0738
    case 0x8 => 0xFFCF case 0x9 => 0xEE46 case 0xA => 0xDCDD case 0xB => 0xCD54
    case 0xC => 0xB9EB case 0xD => 0xA862 case 0xE => 0x9AF9 case _ => 0x8B70
  }

  function Row8(j: bv4): bv16 {
    match j
    case 0x0 => 0x8408 case 0x1 => 0x9581 case 0x2 => 0xA71A case 0x3 => 0xB693
    case 0x4 => 0xC22C case 0x5 => 0xD3A5 case 0x6 => 0xE13E case 0x7 => 0xF0B7
    case 0x8 => 0x0840 case 0x9 => 0x19C9 case 0xA => 0x2B52 case 0xB => 0x3ADB
    case 0xC => 0x4E64 case 0xD => 0x5FED case 0xE => 0x6D76 case _ => 0x7CFF
  }

  function Row9(j: bv4): bv16 {
    match j
    case 0x0 => 0x9489 case 0x1 => 0x8500 case 0x2 => 0xB79B case 0x3 => 0xA612
    case 0x4 => 0xD2AD case 0x5 => 0xC324 case 0x6 => 0xF1BF case 0x7 => 0xE036
    case 0x8 => 0x18C1 case 0x9 => 0x0948 case 0xA => 0x3BD3 case 0xB => 0x2A5A
    case 0xC => 0x5EE5 case 0xD => 0x4F6C case 0xE => 0x7DF7 case _ => 0x6C7E
  }

  function RowA(j: bv4): bv16 {
    match j
    case 0x0 => 0xA50A case 0x1 => 0xB483 case 0x2 => 0x8618 case 0x3 => 0x9791
    case 0x4 => 0xE32E case 0x5 => 0xF2A7 case 0x6 => 0xC03C case 0x7 => 0xD1B5
    case 0x8 => 0x2942 case 0x9 => 0x38CB case 0xA => 0x0A50 case 0xB => 0x1BD9
    case 0xC => 0x6F66 case 0xD => 0x7EEF case 0xE => 0x4C74 case _ => 0x5DFD
  }

  function RowB(j: bv4): bv16 {
    match j
    case 0x0 => 0xB58B case 0x1 => 0xA402 case 0x2 => 0x9699 case 0x3 => 0x8710
    case 0x4 => 0xF3AF case 0x5 => 0xE226 case 0x6 => 0xD0BD case 0x7 => 0xC134
    case 0x8 => 0x39C3 case 0x9 => 0x284A case 0xA => 0x1AD1 case 0xB => 0x0B58
    case 0xC => 0x7FE7 case 0xD => 0x6E6E case 0xE => 0x5CF5 case _ => 0x4D7C
  }

  function RowC(j: bv4): bv16 {
    match j
    case 0x0 => 0xC60C case 0x1 => 0xD785 case 0x2 => 0xE51E case 0x3 => 0xF497
    case 0x4 => 0x8028 case 0x5 => 0x91A1 case 0x6 => 0xA33A case 0x7 => 0xB2B3
    case 0x8 => 0x4A44 case 0x9 => 0x5BCD case 0xA => 0x6956 case 0xB => 0x78DF
    case 0xC => 0x0C60 case 0xD => 0x1DE9 case 0xE => 0x2F72 case _ => 0x3EFB
  }

  function RowD(j: bv4): bv16 {
    match j
    case 0x0 => 0xD68D case 0x1 => 0xC704 case 0x2 => 0xF59F case 0x3 => 0xE416
    case 0x4 => 0x90A9 case 0x5 => 0x8120 case 0x6 => 0xB3BB case 0x7 => 0xA232
    case 0x8 => 0x5AC5 case 0x9 => 0x4B4C case 0xA => 0x79D7 case 0xB => 0x685E
    case 0xC => 0x1CE1 case 0xD => 0x0D68 case 0xE => 0x3FF3 case _ => 0x2E7A
  }

  function RowE(j: bv4): bv16 {
    match j
    case 0x0 => 0xE70E case 0x1 => 0xF687 case 0x2 => 0xC41C case 0x3 => 0xD595
    case 0x4 => 0xA12A case 0x5 => 0xB0A3 case 0x6 => 0x8238 case 0x7 => 0x93B1
    case 0x8 => 0x6B46 case 0x9 => 0x7ACF case 0xA => 0x4854 case 0xB => 0x59DD
    case 0xC => 0x2D62 case 0xD => 0x3CEB case 0xE => 0x0E70 case _ => 0x1FF9
  }

  function RowF(j: bv4): bv16 {
    match j
    case 0x0 => 0xF78F case 0x1 => 0xE606 case 0x2 => 0xD49D case 0x3 => 0xC514
    case 0x4 => 0xB1AB case 0x5 => 0xA022 case 0x6 => 0x92B9 case 0x7 => 0x8330
    case 0x8 => 0x7BC7 case 0x9 => 0x6A4E case 0xA => 0x58D5 case 0xB => 0x495C
    case 0xC => 0x3DE3 case 0xD => 0x2C6A case 0xE => 0x1EF1 case _ => 0x0F78
  }

  function Row(k: bv4, j: bv4): bv16 {
    match k
    case 0x0 => Row0(j) case 0x1 => Row1(j) case 0x2 => Row2(j) case 0x3 => Row3(j)
    case 0x4 => Row4(j) case 0x5 => Row5(j) case 0x6 => Row6(j) case 0x7 => Row7(j)
    case 0x8 => Row8(j) case 0x9 => Row9(j) case 0xA => RowA(j) case 0xB => RowB(j)
    case 0xC => RowC(j) case 0xD => RowD(j) case 0xE => RowE(j) case _ => RowF(j)
  }

  /** crc_table_itut, row by row. */
  function Table(i: bv16): bv16 {
    Row(((i >> 4) & 0x0F) as bv4, (i & 0x0F) as bv4)
  }

  lemma LowerHalf(i: bv16)
    requires i & 0xFF80 == 0
    ensures Table(i) == Bits8(i)
  {
  }

  lemma ThirdQuarter(i: bv16)
    requires i & 0xFFC0 == 0x0080
    ensures Table(i) == Bits8(i)
  {
  }

  lemma FourthQuarter(i: bv16)
    requires i & 0xFFC0 == 0x00C0
    ensures Table(i) == Bits8(i)
  {
  }
}
