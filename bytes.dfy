/** Converting a small integer to a byte keeps its value, and to a `uint32` its range. */
module ByteCast {
  import opened Base

  lemma CastValue(x: nat)
    requires x < 256
    ensures (x as bv8) as int == x
  {
  }

  /** `uint32(n)` of a CLKGEN multiplier or divider stays in [1, 256], and above 1 when n is. */
  lemma U32Small(n: nat)
    requires 1 <= n <= 256
    ensures 1 <= U32(n) <= 256 && (n >= 2 ==> U32(n) >= 2)
  {
    assert n % 0x1_0000_0000 == n;
  }
}

/**
 * Fixed-width integer codecs used throughout the driver: little-endian
 * (Go's `binary.LittleEndian`, the wire order of the capture board and of
 * the XMEGA programmer), big-endian (STM32 bootloader addresses and the
 * packed ADC sample words), arbitrary-width big-endian integers (the P-256
 * encoding), and the XOR fold of the STM32 checksums.
 */
module Bytes {
  import opened Base
  import ByteCast

  /** A `uint16` in little-endian order. */
  function Le16(x: u16): (r: seq<byte>)
    ensures |r| == 2 && LeWord16(r) == x
  {
    [(x & 0xFF) as byte, (x >> 8) as byte]
  }

  function LeWord16(b: seq<byte>): u16
    requires |b| == 2
  {
    b[0] as u16 | (b[1] as u16 << 8)
  }

  lemma Le16RoundTrip(b: seq<byte>)
    requires |b| == 2
    ensures Le16(LeWord16(b)) == b
  {
  }

  /** A `uint32` in little-endian order. */
  function Le32(x: u32): (r: seq<byte>)
    ensures |r| == 4 && LeWord32(r) == x
  {
    [(x & 0xFF) as byte, ((x >> 8) & 0xFF) as byte, ((x >> 16) & 0xFF) as byte, (x >> 24) as byte]
  }

  function LeWord32(b: seq<byte>): u32
    requires |b| == 4
  {
    b[0] as u32 | (b[1] as u32 << 8) | (b[2] as u32 << 16) | (b[3] as u32 << 24)
  }

  lemma Le32RoundTrip(b: seq<byte>)
    requires |b| == 4
    ensures Le32(LeWord32(b)) == b
  {
  }

  /** A `uint32` in big-endian order. */
  function Be32(x: u32): (r: seq<byte>)
    ensures |r| == 4 && BeWord32(r) == x
  {
    [(x >> 24) as byte, ((x >> 16) & 0xFF) as byte, ((x >> 8) & 0xFF) as byte, (x & 0xFF) as byte]
  }

  function BeWord32(b: seq<byte>): u32
    requires |b| == 4
  {
    (b[0] as u32 << 24) | (b[1] as u32 << 16) | (b[2] as u32 << 8) | b[3] as u32
  }

  lemma Be32RoundTrip(b: seq<byte>)
    requires |b| == 4
    ensures Be32(BeWord32(b)) == b
  {
  }

  function Pow256(n: nat): (p: nat)
    ensures p >= 1
  {
    if n == 0 then 1 else 256 * Pow256(n - 1)
  }

  lemma DivMod256(lo: int, hi: int)
    requires 0 <= lo < 256
    ensures (lo + 256 * hi) % 256 == lo && (lo + 256 * hi) / 256 == hi
  {
  }

  /** The byte whose value is `x`; `ByteOfIs` states that value. */
  function ByteOf(x: nat): (b: byte)
    requires x < 256
  {
    x as byte
  }

  lemma ByteOfIs(x: nat)
    requires x < 256
    ensures ByteOf(x) as int == x
  {
    ByteCast.CastValue(x);
  }

  /** `ByteOf` takes each byte's value back to the byte. */
  lemma ByteOfValue(b: byte)
    ensures ByteOf(b as int) == b
  {
    var c := ByteOf(b as int);
    assert (c as int) as byte == c && (b as int) as byte == b;
  }

  /** x in exactly n bytes, most significant byte first. */
  function BeBytes(x: nat, n: nat): (r: seq<byte>)
    requires x < Pow256(n)
    ensures |r| == n
  {
    if n == 0 then [] else BeBytes(x / 256, n - 1) + [ByteOf(x % 256)]
  }

  /** The unsigned integer whose big-endian encoding is s. */
  function BeValue(s: seq<byte>): (v: nat)
    ensures v < Pow256(|s|)
  {
    if s == [] then 0 else 256 * BeValue(s[..|s| - 1]) + s[|s| - 1] as int
  }

  lemma {:induction false} BeRoundTrip(x: nat, n: nat)
    requires x < Pow256(n)
    ensures BeValue(BeBytes(x, n)) == x
  {
    if n > 0 {
      var s := BeBytes(x, n);
      assert s[..n - 1] == BeBytes(x / 256, n - 1);
      BeRoundTrip(x / 256, n - 1);
      ByteOfIs(x % 256);
      assert BeValue(s) == 256 * (x / 256) + x % 256;
    }
  }

  lemma BeValueRoundTrip(s: seq<byte>)
    ensures BeBytes(BeValue(s), |s|) == s
  {
    BeRoundTrip(BeValue(s), |s|);
    BeValueInjective(BeBytes(BeValue(s), |s|), s);
  }

  /** Two encodings of the same length with the same value are the same bytes. */
  lemma {:induction false} BeValueInjective(a: seq<byte>, b: seq<byte>)
    requires |a| == |b| && BeValue(a) == BeValue(b)
    ensures a == b
  {
    if a != [] {
      var ai, bi := a[..|a| - 1], b[..|b| - 1];
      var x, y := a[|a| - 1], b[|b| - 1];
      DivMod256(x as int, BeValue(ai));
      DivMod256(y as int, BeValue(bi));
      assert x as int == y as int;
      BeValueInjective(ai, bi);
      calc {
        a;
        ai + [x];
        bi + [y];
        b;
      }
    }
  }

  /** x in exactly n bytes, least significant byte first (`binary.LittleEndian`). */
  function LeBytes(x: nat, n: nat): (r: seq<byte>)
    requires x < Pow256(n)
    ensures |r| == n
  {
    if n == 0 then [] else [ByteOf(x % 256)] + LeBytes(x / 256, n - 1)
  }

  /** The unsigned integer whose little-endian encoding is s. */
  function LeValue(s: seq<byte>): (v: nat)
    ensures v < Pow256(|s|)
  {
    if s == [] then 0 else s[0] as int + 256 * LeValue(s[1..])
  }

  lemma {:induction false} LeRoundTrip(x: nat, n: nat)
    requires x < Pow256(n)
    ensures LeValue(LeBytes(x, n)) == x
  {
    if n > 0 {
      var s := LeBytes(x, n);
      assert s[1..] == LeBytes(x / 256, n - 1);
      LeRoundTrip(x / 256, n - 1);
      ByteOfIs(x % 256);
      assert LeValue(s) == x % 256 + 256 * (x / 256);
    }
  }

  lemma MulAssoc256(x: int, p: int)
    ensures 256 * (x * p) == x * (256 * p)
  {
  }

  /** Big-endian value of a concatenation: the high part shifted past the low part. */
  lemma {:induction false} BeValueAppend(a: seq<byte>, b: seq<byte>)
    ensures BeValue(a + b) == BeValue(a) * Pow256(|b|) + BeValue(b)
  {
    if b == [] {
      assert a + b == a;
    } else {
      var init := b[..|b| - 1];
      var last := b[|b| - 1] as int;
      assert (a + b)[..|a + b| - 1] == a + init;
      assert (a + b)[|a + b| - 1] == b[|b| - 1];
      BeValueAppend(a, init);
      var x, y, p := BeValue(a), BeValue(init), Pow256(|init|);
      assert BeValue(a + init) == x * p + y;
      assert BeValue(a + b) == 256 * (x * p + y) + last;
      assert BeValue(b) == 256 * y + last;
      assert Pow256(|b|) == 256 * p;
      MulAssoc256(x, p);
    }
  }

  /** XOR of all bytes, folded from the front as the STM32 checksum loops do. */
  function XorAll(s: seq<byte>): byte
  {
    if s == [] then 0 else XorAll(s[..|s| - 1]) ^ s[|s| - 1]
  }

  lemma XorAllAppend(a: seq<byte>, b: byte)
    ensures XorAll(a + [b]) == XorAll(a) ^ b
  {
    assert (a + [b])[..|a|] == a;
  }

  /** The concatenation of a sequence of byte strings, in order. */
  function Flatten(cs: seq<seq<byte>>): seq<byte>
  {
    if cs == [] then [] else cs[0] + Flatten(cs[1..])
  }

  /**
   * `s` cut into consecutive pieces of `n` bytes, the last one possibly
   * shorter: the pieces a copy loop with an `n`-byte buffer writes.
   */
  function Chunks(s: seq<byte>, n: nat): (cs: seq<seq<byte>>)
    requires n > 0
    ensures Flatten(cs) == s
    ensures forall i :: 0 <= i < |cs| ==> 0 < |cs[i]| <= n
    ensures forall i :: 0 <= i < |cs| - 1 ==> |cs[i]| == n
    decreases |s|
  {
    if s == [] then []
    else if |s| <= n then
      assert Flatten([s]) == s + Flatten([]);
      [s]
    else
      var rest := Chunks(s[n..], n);
      var cs := [s[..n]] + rest;
      assert cs[1..] == rest;
      assert forall i :: 1 <= i < |cs| ==> cs[i] == rest[i - 1];
      assert s == s[..n] + s[n..];
      cs
  }
}
