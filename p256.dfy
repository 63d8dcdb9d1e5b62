/**
 * The fixed-width encoding of P-256 coordinates (util/p256_encoder.go): an
 * integer as exactly 32 big-endian bytes, a point as its two coordinates one
 * after the other. These are the I2OSP and OS2IP primitives of RFC 8017
 * (sections 4.1 and 4.2) at length 32.
 *
 * `big.Int.Bytes()` is the minimal big-endian magnitude (no leading zero
 * bytes, empty for zero); the encoder copies it to the end of a zeroed
 * 32-byte buffer. The model builds the encoding the same way and proves it
 * equal to the fixed-width conversion `Bytes.BeBytes`.
 */
module P256 {
  import opened Base
  import opened Bytes

  const IntLen: nat := 32
  const PointLen: nat := 64

  /** The integers that fit in 32 bytes; a larger one makes `EncodeP256Int` panic on a negative slice start. */
  predicate Fits(x: nat)
  {
    x < Pow256(IntLen)
  }

  /** `x.Bytes()`: big-endian, without leading zero bytes. */
  function Magnitude(x: nat): (m: seq<byte>)
    ensures m != [] ==> m[0] != 0
    decreases x
  {
    if x == 0 then []
    else
      var m := Magnitude(x / 256) + [ByteOf(x % 256)];
      ByteOfIs(x % 256);
      assert x / 256 == 0 ==> m[0] == ByteOf(x % 256);
      m
  }

  /** `make([]byte, n)`. */
  function Zeros(n: nat): (z: seq<byte>)
    ensures |z| == n && forall i :: 0 <= i < n ==> z[i] == 0
  {
    seq(n, _ => 0)
  }

  /** `EncodeP256Int`: the magnitude copied to the end of a zeroed 32-byte buffer. */
  function EncodeInt(x: nat): (r: seq<byte>)
    requires Fits(x)
    ensures |r| == IntLen
  {
    MagnitudeFits(x, IntLen);
    Zeros(IntLen - |Magnitude(x)|) + Magnitude(x)
  }

  /** `EncodeP256Point`: the two 32-byte coordinates back to back. */
  function EncodePoint(x: nat, y: nat): (r: seq<byte>)
    requires Fits(x) && Fits(y)
    ensures |r| == PointLen
    ensures r[..IntLen] == EncodeInt(x) && r[IntLen..] == EncodeInt(y)
  {
    EncodeInt(x) + EncodeInt(y)
  }

  /** `DecodeP256Int`: panics unless given exactly 32 bytes, which it reads big-endian. */
  function DecodeInt(buf: seq<byte>): (x: nat)
    requires |buf| == IntLen
    ensures Fits(x)
  {
    BeValue(buf)
  }

  /** `DecodeP256Point`: panics unless given exactly 64 bytes, split at byte 32. */
  function DecodePoint(buf: seq<byte>): (p: (nat, nat))
    requires |buf| == PointLen
    ensures Fits(p.0) && Fits(p.1)
  {
    (DecodeInt(buf[..IntLen]), DecodeInt(buf[IntLen..]))
  }

  /** The magnitude of an integer below 256^n has at most n bytes. */
  lemma {:induction false} MagnitudeFits(x: nat, n: nat)
    requires x < Pow256(n)
    ensures |Magnitude(x)| <= n
    decreases x
  {
    if x > 0 {
      assert n > 0;
      MagnitudeFits(x / 256, n - 1);
    }
  }

  lemma {:induction false} BeBytesZero(n: nat)
    ensures BeBytes(0, n) == Zeros(n)
  {
    if n > 0 {
      BeBytesZero(n - 1);
      ByteOfIs(0);
      assert BeBytes(0, n) == Zeros(n - 1) + [0];
    }
  }

  /** Left-padding the magnitude with zeros to n bytes is the n-byte big-endian encoding. */
  lemma {:induction false} PaddedMagnitude(x: nat, n: nat)
    requires x < Pow256(n)
    ensures |Magnitude(x)| <= n
    ensures Zeros(n - |Magnitude(x)|) + Magnitude(x) == BeBytes(x, n)
    decreases n
  {
    MagnitudeFits(x, n);
    if x == 0 {
      BeBytesZero(n);
      assert Zeros(n) + [] == Zeros(n);
    } else {
      assert n > 0;
      var hi := Magnitude(x / 256);
      PaddedMagnitude(x / 256, n - 1);
      var b := ByteOf(x % 256);
      calc {
        Zeros(n - |Magnitude(x)|) + Magnitude(x);
        Zeros(n - 1 - |hi|) + (hi + [b]);
        (Zeros(n - 1 - |hi|) + hi) + [b];
        BeBytes(x / 256, n - 1) + [b];
        BeBytes(x, n);
      }
    }
  }

  /** The encoding is I2OSP(x, 32) of RFC 8017 section 4.1: x in exactly 32 big-endian bytes. */
  lemma EncodeIsI2osp(x: nat)
    requires Fits(x)
    ensures EncodeInt(x) == BeBytes(x, IntLen)
  {
    PaddedMagnitude(x, IntLen);
  }

  /** OS2IP undoes I2OSP (RFC 8017 section 4.2). */
  lemma DecodeEncodeInt(x: nat)
    requires Fits(x)
    ensures DecodeInt(EncodeInt(x)) == x
  {
    EncodeIsI2osp(x);
    BeRoundTrip(x, IntLen);
  }

  /** I2OSP undoes OS2IP: every 32-byte string is the encoding of its value. */
  lemma EncodeDecodeInt(buf: seq<byte>)
    requires |buf| == IntLen
    ensures EncodeInt(DecodeInt(buf)) == buf
  {
    EncodeIsI2osp(DecodeInt(buf));
    BeValueRoundTrip(buf);
  }

  lemma DecodeEncodePoint(x: nat, y: nat)
    requires Fits(x) && Fits(y)
    ensures DecodePoint(EncodePoint(x, y)) == (x, y)
  {
    DecodeEncodeInt(x);
    DecodeEncodeInt(y);
  }

  lemma EncodeDecodePoint(buf: seq<byte>)
    requires |buf| == PointLen
    ensures EncodePoint(DecodePoint(buf).0, DecodePoint(buf).1) == buf
  {
    EncodeDecodeInt(buf[..IntLen]);
    EncodeDecodeInt(buf[IntLen..]);
    assert buf == buf[..IntLen] + buf[IntLen..];
  }

  /** Encoding is one-to-one: distinct coordinates give distinct bytes. */
  lemma EncodeIntInjective(x: nat, y: nat)
    requires Fits(x) && Fits(y) && EncodeInt(x) == EncodeInt(y)
    ensures x == y
  {
    DecodeEncodeInt(x);
    DecodeEncodeInt(y);
  }
}
