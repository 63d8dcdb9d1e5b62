/**
 * The AES S-box of FIPS 197 section 5.1.1 as the power-analysis tools carry
 * it (the `sbox` table of cmd/attack_sbox_cpa.go and cmd/attack_sbox_dpa.go,
 * copied there from tiny-AES-c), laid out in its 16 rows of 16 entries, and
 * the inverse S-box of FIPS 197 section 5.3.2 that shows it is a permutation
 * of the byte values.
 */
module AesSbox {
  import opened Base
  import opened Bytes

  /** Row `r` holds the substitutes of `16 * r` to `16 * r + 15`. */
  const SboxRows: seq<seq<int>> := [
    [0x63, 0x7c, 0x77, 0x7b, 0xf2, 0x6b, 0x6f, 0xc5, 0x30, 0x01, 0x67, 0x2b, 0xfe, 0xd7, 0xab, 0x76],
    [0xca, 0x82, 0xc9, 0x7d, 0xfa, 0x59, 0x47, 0xf0, 0xad, 0xd4, 0xa2, 0xaf, 0x9c, 0xa4, 0x72, 0xc0],
    [0xb7, 0xfd, 0x93, 0x26, 0x36, 0x3f, 0xf7, 0xcc, 0x34, 0xa5, 0xe5, 0xf1, 0x71, 0xd8, 0x31, 0x15],
    [0x04, 0xc7, 0x23, 0xc3, 0x18, 0x96, 0x05, 0x9a, 0x07, 0x12, 0x80, 0xe2, 0xeb, 0x27, 0xb2, 0x75],
    [0x09, 0x83, 0x2c, 0x1a, 0x1b, 0x6e, 0x5a, 0xa0, 0x52, 0x3b, 0xd6, 0xb3, 0x29, 0xe3, 0x2f, 0x84],
    [0x53, 0xd1, 0x00, 0xed, 0x20, 0xfc, 0xb1, 0x5b, 0x6a, 0xcb, 0xbe, 0x39, 0x4a, 0x4c, 0x58, 0xcf],
    [0xd0, 0xef, 0xaa, 0xfb, 0x43, 0x4d, 0x33, 0x85, 0x45, 0xf9, 0x02, 0x7f, 0x50, 0x3c, 0x9f, 0xa8],
    [0x51, 0xa3, 0x40, 0x8f, 0x92, 0x9d, 0x38, 0xf5, 0xbc, 0xb6, 0xda, 0x21, 0x10, 0xff, 0xf3, 0xd2],
    [0xcd, 0x0c, 0x13, 0xec, 0x5f, 0x97, 0x44, 0x17, 0xc4, 0xa7, 0x7e, 0x3d, 0x64, 0x5d, 0x19, 0x73],
    [0x60, 0x81, 0x4f, 0xdc, 0x22, 0x2a, 0x90, 0x88, 0x46, 0xee, 0xb8, 0x14, 0xde, 0x5e, 0x0b, 0xdb],
    [0xe0, 0x32, 0x3a, 0x0a, 0x49, 0x06, 0x24, 0x5c, 0xc2, 0xd3, 0xac, 0x62, 0x91, 0x95, 0xe4, 0x79],
    [0xe7, 0xc8, 0x37, 0x6d, 0x8d, 0xd5, 0x4e, 0xa9, 0x6c, 0x56, 0xf4, 0xea, 0x65, 0x7a, 0xae, 0x08],
    [0xba, 0x78, 0x25, 0x2e, 0x1c, 0xa6, 0xb4, 0xc6, 0xe8, 0xdd, 0x74, 0x1f, 0x4b, 0xbd, 0x8b, 0x8a],
    [0x70, 0x3e, 0xb5, 0x66, 0x48, 0x03, 0xf6, 0x0e, 0x61, 0x35, 0x57, 0xb9, 0x86, 0xc1, 0x1d, 0x9e],
    [0xe1, 0xf8, 0x98, 0x11, 0x69, 0xd9, 0x8e, 0x94, 0x9b, 0x1e, 0x87, 0xe9, 0xce, 0x55, 0x28, 0xdf],
    [0x8c, 0xa1, 0x89, 0x0d, 0xbf, 0xe6, 0x42, 0x68, 0x41, 0x99, 0x2d, 0x0f, 0xb0, 0x54, 0xbb, 0x16]]

  /** FIPS 197 Figure 14, the inverse S-box. */
  const InvSboxRows: seq<seq<int>> := [
    [0x52, 0x09, 0x6a, 0xd5, 0x30, 0x36, 0xa5, 0x38, 0xbf, 0x40, 0xa3, 0x9e, 0x81, 0xf3, 0xd7, 0xfb],
    [0x7c, 0xe3, 0x39, 0x82, 0x9b, 0x2f, 0xff, 0x87, 0x34, 0x8e, 0x43, 0x44, 0xc4, 0xde, 0xe9, 0xcb],
    [0x54, 0x7b, 0x94, 0x32, 0xa6, 0xc2, 0x23, 0x3d, 0xee, 0x4c, 0x95, 0x0b, 0x42, 0xfa, 0xc3, 0x4e],
    [0x08, 0x2e, 0xa1, 0x66, 0x28, 0xd9, 0x24, 0xb2, 0x76, 0x5b, 0xa2, 0x49, 0x6d, 0x8b, 0xd1, 0x25],
    [0x72, 0xf8, 0xf6, 0x64, 0x86, 0x68, 0x98, 0x16, 0xd4, 0xa4, 0x5c, 0xcc, 0x5d, 0x65, 0xb6, 0x92],
    [0x6c, 0x70, 0x48, 0x50, 0xfd, 0xed, 0xb9, 0xda, 0x5e, 0x15, 0x46, 0x57, 0xa7, 0x8d, 0x9d, 0x84],
    [0x90, 0xd8, 0xab, 0x00, 0x8c, 0xbc, 0xd3, 0x0a, 0xf7, 0xe4, 0x58, 0x05, 0xb8, 0xb3, 0x45, 0x06],
    [0xd0, 0x2c, 0x1e, 0x8f, 0xca, 0x3f, 0x0f, 0x02, 0xc1, 0xaf, 0xbd, 0x03, 0x01, 0x13, 0x8a, 0x6b],
    [0x3a, 0x91, 0x11, 0x41, 0x4f, 0x67, 0xdc, 0xea, 0x97, 0xf2, 0xcf, 0xce, 0xf0, 0xb4, 0xe6, 0x73],
    [0x96, 0xac, 0x74, 0x22, 0xe7, 0xad, 0x35, 0x85, 0xe2, 0xf9, 0x37, 0xe8, 0x1c, 0x75, 0xdf, 0x6e],
    [0x47, 0xf1, 0x1a, 0x71, 0x1d, 0x29, 0xc5, 0x89, 0x6f, 0xb7, 0x62, 0x0e, 0xaa, 0x18, 0xbe, 0x1b],
    [0xfc, 0x56, 0x3e, 0x4b, 0xc6, 0xd2, 0x79, 0x20, 0x9a, 0xdb, 0xc0, 0xfe, 0x78, 0xcd, 0x5a, 0xf4],
    [0x1f, 0xdd, 0xa8, 0x33, 0x88, 0x07, 0xc7, 0x31, 0xb1, 0x12, 0x10, 0x59, 0x27, 0x80, 0xec, 0x5f],
    [0x60, 0x51, 0x7f, 0xa9, 0x19, 0xb5, 0x4a, 0x0d, 0x2d, 0xe5, 0x7a, 0x9f, 0x93, 0xc9, 0x9c, 0xef],
    [0xa0, 0xe0, 0x3b, 0x4d, 0xae, 0x2a, 0xf5, 0xb0, 0xc8, 0xeb, 0xbb, 0x3c, 0x83, 0x53, 0x99, 0x61],
    [0x17, 0x2b, 0x04, 0x7e, 0xba, 0x77, 0xd6, 0x26, 0xe1, 0x69, 0x14, 0x63, 0x55, 0x21, 0x0c, 0x7d]]

  /** `sbox[x]`. */
  function Sub(x: nat): int
    requires x < 256
  {
    if |SboxRows| == 16 && |SboxRows[x / 16]| == 16 then SboxRows[x / 16][x % 16] else 0
  }

  /** The inverse S-box entry for `y`. */
  function InvSub(y: nat): int
    requires y < 256
  {
    if |InvSboxRows| == 16 && |InvSboxRows[y / 16]| == 16 then InvSboxRows[y / 16][y % 16] else 0
  }

  lemma SubRow0()
    ensures forall j :: 0 <= j < 16 ==> 0 <= SboxRows[0][j] < 256 && InvSub(SboxRows[0][j]) == 0 + j
  {
  }

  lemma SubRow1()
    ensures forall j :: 0 <= j < 16 ==> 0 <= SboxRows[1][j] < 256 && InvSub(SboxRows[1][j]) == 16 + j
  {
  }

  lemma SubRow2()
    ensures forall j :: 0 <= j < 16 ==> 0 <= SboxRows[2][j] < 256 && InvSub(SboxRows[2][j]) == 32 + j
  {
  }

  lemma SubRow3()
    ensures forall j :: 0 <= j < 16 ==> 0 <= SboxRows[3][j] < 256 && InvSub(SboxRows[3][j]) == 48 + j
  {
  }

  lemma SubRow4()
    ensures forall j :: 0 <= j < 16 ==> 0 <= SboxRows[4][j] < 256 && InvSub(SboxRows[4][j]) == 64 + j
  {
  }

  lemma SubRow5()
    ensures forall j :: 0 <= j < 16 ==> 0 <= SboxRows[5][j] < 256 && InvSub(SboxRows[5][j]) == 80 + j
  {
  }

  lemma SubRow6()
    ensures forall j :: 0 <= j < 16 ==> 0 <= SboxRows[6][j] < 256 && InvSub(SboxRows[6][j]) == 96 + j
  {
  }

  lemma SubRow7()
    ensures forall j :: 0 <= j < 16 ==> 0 <= SboxRows[7][j] < 256 && InvSub(SboxRows[7][j]) == 112 + j
  {
  }

  lemma SubRow8()
    ensures forall j :: 0 <= j < 16 ==> 0 <= SboxRows[8][j] < 256 && InvSub(SboxRows[8][j]) == 128 + j
  {
  }

  lemma SubRow9()
    ensures forall j :: 0 <= j < 16 ==> 0 <= SboxRows[9][j] < 256 && InvSub(SboxRows[9][j]) == 144 + j
  {
  }

  lemma SubRow10()
    ensures forall j :: 0 <= j < 16 ==> 0 <= SboxRows[10][j] < 256 && InvSub(SboxRows[10][j]) == 160 + j
  {
  }

  lemma SubRow11()
    ensures forall j :: 0 <= j < 16 ==> 0 <= SboxRows[11][j] < 256 && InvSub(SboxRows[11][j]) == 176 + j
  {
  }

  lemma SubRow12()
    ensures forall j :: 0 <= j < 16 ==> 0 <= SboxRows[12][j] < 256 && InvSub(SboxRows[12][j]) == 192 + j
  {
  }

  lemma SubRow13()
    ensures forall j :: 0 <= j < 16 ==> 0 <= SboxRows[13][j] < 256 && InvSub(SboxRows[13][j]) == 208 + j
  {
  }

  lemma SubRow14()
    ensures forall j :: 0 <= j < 16 ==> 0 <= SboxRows[14][j] < 256 && InvSub(SboxRows[14][j]) == 224 + j
  {
  }

  lemma SubRow15()
    ensures forall j :: 0 <= j < 16 ==> 0 <= SboxRows[15][j] < 256 && InvSub(SboxRows[15][j]) == 240 + j
  {
  }

  lemma InvSubRow0()
    ensures forall j :: 0 <= j < 16 ==> 0 <= InvSboxRows[0][j] < 256 && Sub(InvSboxRows[0][j]) == 0 + j
  {
  }

  lemma InvSubRow1()
    ensures forall j :: 0 <= j < 16 ==> 0 <= InvSboxRows[1][j] < 256 && Sub(InvSboxRows[1][j]) == 16 + j
  {
  }

  lemma InvSubRow2()
    ensures forall j :: 0 <= j < 16 ==> 0 <= InvSboxRows[2][j] < 256 && Sub(InvSboxRows[2][j]) == 32 + j
  {
  }

  lemma InvSubRow3()
    ensures forall j :: 0 <= j < 16 ==> 0 <= InvSboxRows[3][j] < 256 && Sub(InvSboxRows[3][j]) == 48 + j
  {
  }

  lemma InvSubRow4()
    ensures forall j :: 0 <= j < 16 ==> 0 <= InvSboxRows[4][j] < 256 && Sub(InvSboxRows[4][j]) == 64 + j
  {
  }

  lemma InvSubRow5()
    ensures forall j :: 0 <= j < 16 ==> 0 <= InvSboxRows[5][j] < 256 && Sub(InvSboxRows[5][j]) == 80 + j
  {
  }

  lemma InvSubRow6()
    ensures forall j :: 0 <= j < 16 ==> 0 <= InvSboxRows[6][j] < 256 && Sub(InvSboxRows[6][j]) == 96 + j
  {
  }

  lemma InvSubRow7()
    ensures forall j :: 0 <= j < 16 ==> 0 <= InvSboxRows[7][j] < 256 && Sub(InvSboxRows[7][j]) == 112 + j
  {
  }

  lemma InvSubRow8()
    ensures forall j :: 0 <= j < 16 ==> 0 <= InvSboxRows[8][j] < 256 && Sub(InvSboxRows[8][j]) == 128 + j
  {
  }

  lemma InvSubRow9()
    ensures forall j :: 0 <= j < 16 ==> 0 <= InvSboxRows[9][j] < 256 && Sub(InvSboxRows[9][j]) == 144 + j
  {
  }

  lemma InvSubRow10()
    ensures forall j :: 0 <= j < 16 ==> 0 <= InvSboxRows[10][j] < 256 && Sub(InvSboxRows[10][j]) == 160 + j
  {
  }

  lemma InvSubRow11()
    ensures forall j :: 0 <= j < 16 ==> 0 <= InvSboxRows[11][j] < 256 && Sub(InvSboxRows[11][j]) == 176 + j
  {
  }

  lemma InvSubRow12()
    ensures forall j :: 0 <= j < 16 ==> 0 <= InvSboxRows[12][j] < 256 && Sub(InvSboxRows[12][j]) == 192 + j
  {
  }

  lemma InvSubRow13()
    ensures forall j :: 0 <= j < 16 ==> 0 <= InvSboxRows[13][j] < 256 && Sub(InvSboxRows[13][j]) == 208 + j
  {
  }

  lemma InvSubRow14()
    ensures forall j :: 0 <= j < 16 ==> 0 <= InvSboxRows[14][j] < 256 && Sub(InvSboxRows[14][j]) == 224 + j
  {
  }

  lemma InvSubRow15()
    ensures forall j :: 0 <= j < 16 ==> 0 <= InvSboxRows[15][j] < 256 && Sub(InvSboxRows[15][j]) == 240 + j
  {
  }

  /** Every byte value has a substitute, and the inverse S-box takes it back. */
  lemma SubInverse()
    ensures forall x :: 0 <= x < 256 ==> 0 <= Sub(x) < 256 && InvSub(Sub(x)) == x
  {
    forall x | 0 <= x < 256
      ensures 0 <= Sub(x) < 256 && InvSub(Sub(x)) == x
    {
      if x / 16 == 0 {
        SubRow0();
      } else if x / 16 == 1 {
        SubRow1();
      } else if x / 16 == 2 {
        SubRow2();
      } else if x / 16 == 3 {
        SubRow3();
      } else if x / 16 == 4 {
        SubRow4();
      } else if x / 16 == 5 {
        SubRow5();
      } else if x / 16 == 6 {
        SubRow6();
      } else if x / 16 == 7 {
        SubRow7();
      } else if x / 16 == 8 {
        SubRow8();
      } else if x / 16 == 9 {
        SubRow9();
      } else if x / 16 == 10 {
        SubRow10();
      } else if x / 16 == 11 {
        SubRow11();
      } else if x / 16 == 12 {
        SubRow12();
      } else if x / 16 == 13 {
        SubRow13();
      } else if x / 16 == 14 {
        SubRow14();
      } else {
        SubRow15();
      }
    }
  }

  /** Every byte value is the substitute of the byte the inverse S-box gives. */
  lemma InvSubInverse()
    ensures forall y :: 0 <= y < 256 ==> 0 <= InvSub(y) < 256 && Sub(InvSub(y)) == y
  {
    forall y | 0 <= y < 256
      ensures 0 <= InvSub(y) < 256 && Sub(InvSub(y)) == y
    {
      if y / 16 == 0 {
        InvSubRow0();
      } else if y / 16 == 1 {
        InvSubRow1();
      } else if y / 16 == 2 {
        InvSubRow2();
      } else if y / 16 == 3 {
        InvSubRow3();
      } else if y / 16 == 4 {
        InvSubRow4();
      } else if y / 16 == 5 {
        InvSubRow5();
      } else if y / 16 == 6 {
        InvSubRow6();
      } else if y / 16 == 7 {
        InvSubRow7();
      } else if y / 16 == 8 {
        InvSubRow8();
      } else if y / 16 == 9 {
        InvSubRow9();
      } else if y / 16 == 10 {
        InvSubRow10();
      } else if y / 16 == 11 {
        InvSubRow11();
      } else if y / 16 == 12 {
        InvSubRow12();
      } else if y / 16 == 13 {
        InvSubRow13();
      } else if y / 16 == 14 {
        InvSubRow14();
      } else {
        InvSubRow15();
      }
    }
  }

  /** `sbox[b]` for a byte index, as the attack tools look it up. */
  function SubByte(b: byte): byte
  {
    SubInverse();
    ByteOf(Sub(b as int))
  }

  function InvSubByte(b: byte): byte
  {
    InvSubInverse();
    ByteOf(InvSub(b as int))
  }

  /** `InvSubByte` undoes the S-box. */
  lemma SubByteInverse(b: byte)
    ensures InvSubByte(SubByte(b)) == b
  {
    var x := b as int;
    SubInverse();
    ByteOfIs(Sub(x));
    ByteOfValue(b);
  }

  /** The S-box undoes `InvSubByte`, so every byte is a substitute: the S-box is a permutation. */
  lemma InvSubByteInverse(b: byte)
    ensures SubByte(InvSubByte(b)) == b
  {
    var y := b as int;
    InvSubInverse();
    ByteOfIs(InvSub(y));
    ByteOfValue(b);
  }

  /** Distinct inputs have distinct substitutes. */
  lemma SubByteInjective(a: byte, b: byte)
    requires SubByte(a) == SubByte(b)
    ensures a == b
  {
    SubByteInverse(a);
    SubByteInverse(b);
  }
}
