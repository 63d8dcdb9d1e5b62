/**
 * Splitting a memory transfer into blocks, which both target programmers do:
 * each command moves at most 64 bytes, and each block that is read arrives
 * into the caller's buffer at the block's start.
 */
module Blocks {
  import opened Base

  /** The bytes per read or write command of the memory readers and writers. */
  const BlockSize: nat := 64

  /** `d` bytes make a whole number of blocks (`d % 64 == 0`, stated by recursion). */
  predicate WholeBlocks(d: nat)
  {
    d == 0 || (d >= BlockSize && WholeBlocks(d - BlockSize))
  }

  /** Where the block starting at `n` of a `size`-byte transfer ends. */
  function BlockEnd(size: nat, n: nat): (e: nat)
    requires n < size
    ensures n < e <= size && e - n <= BlockSize
    ensures e < size ==> e - n == BlockSize
  {
    if size - n < BlockSize then size else n + BlockSize
  }

  /** The buffer after `len(data)` bytes were read into it at `at`. */
  function Overlay(buf: seq<byte>, at: nat, data: seq<byte>): (r: seq<byte>)
    requires at + |data| <= |buf|
    ensures |r| == |buf|
  {
    buf[..at] + data + buf[at + |data|..]
  }

  /** What `Overlay` keeps and what it replaces. */
  lemma OverlayParts(buf: seq<byte>, at: nat, data: seq<byte>)
    requires at + |data| <= |buf|
    ensures var r := Overlay(buf, at, data);
      r[..at] == buf[..at] && r[at..at + |data|] == data && r[at + |data|..] == buf[at + |data|..]
  {
    var r := Overlay(buf, at, data);
    assert r[..at] == buf[..at];
    assert r[at..at + |data|] == data;
    assert r[at + |data|..] == buf[at + |data|..];
  }

  lemma PrefixKeep(a: seq<byte>, b: seq<byte>, n: nat, m: nat)
    requires n <= m <= |a| && m <= |b| && a[..m] == b[..m]
    ensures a[..n] == b[..n]
  {
    assert a[..n] == a[..m][..n];
    assert b[..n] == b[..m][..n];
  }

  lemma SuffixKeep(a: seq<byte>, b: seq<byte>, m: nat, k: nat)
    requires m <= k <= |a| && |a| == |b| && a[m..] == b[m..]
    ensures a[k..] == b[k..]
  {
    assert a[k..] == a[m..][k - m..];
    assert b[k..] == b[m..][k - m..];
  }

  /** A block's bytes stored into the caller's buffer at `at`, one byte at a time. */
  method Place(p: array<byte>, at: nat, data: seq<byte>)
    requires at + |data| <= p.Length
    modifies p
    ensures p[..] == Overlay(old(p[..]), at, data)
  {
    var i := 0;
    while i < |data|
      invariant i <= |data|
      invariant forall k :: 0 <= k < at ==> p[k] == old(p[k])
      invariant forall k :: at <= k < at + i ==> p[k] == data[k - at]
      invariant forall k :: at + i <= k < p.Length ==> p[k] == old(p[k])
    {
      p[at + i] := data[i];
      i := i + 1;
    }
    OverlayParts(old(p[..]), at, data);
    assert p[..] == Overlay(old(p[..]), at, data);
  }

  /**
   * A read command for one block over a link whose state is `S` (the serial
   * line, the USB device): the state before, the address, the length; the
   * bytes and the state after.
   */
  type BlockRead<!S> = (S, Word32, nat) -> (Result<seq<byte>>, S)

  /** A read command never returns more bytes than asked for. */
  ghost predicate Bounded<S(!new)>(cmd: BlockRead<S>)
  {
    forall l, addr, len :: cmd(l, addr, len).0.Ok? ==> |cmd(l, addr, len).0.value| <= len
  }

  /**
   * A memory reader's `Read` from byte `n` into a buffer holding `buf`, with
   * `cmd` reading each block: one command per block of at most 64 bytes,
   * each placing the bytes that arrive at the block's start. Returns the
   * bytes read, the outcome, the link, the address and the buffer.
   */
  function ReadBlocks<S(!new)>(cmd: BlockRead<S>, l: S, addr: Word32, buf: seq<byte>, n: nat): (r: (nat, Outcome, S, Word32, seq<byte>))
    requires Bounded(cmd) && n <= |buf|
    ensures |r.4| == |buf|
    decreases |buf| - n
  {
    if n == |buf| then (n, Pass, l, addr, buf)
    else
      var e := BlockEnd(|buf|, n);
      var (got, l1) := cmd(l, addr, e - n);
      if got.Err? then (n, Fail(got.error), l1, addr, buf)
      else ReadBlocks(cmd, l1, Add32(addr, e - n), Overlay(buf, n, got.value), e)
  }

  /** The first block of a read from `n`, then the rest. */
  lemma ReadBlocksStep<S(!new)>(cmd: BlockRead<S>, l: S, addr: Word32, buf: seq<byte>, n: nat)
    requires Bounded(cmd) && n < |buf|
    ensures var e := BlockEnd(|buf|, n);
      var r := cmd(l, addr, e - n);
      ReadBlocks(cmd, l, addr, buf, n) ==
        if r.0.Err? then (n, Fail(r.0.error), r.1, addr, buf)
        else ReadBlocks(cmd, r.1, Add32(addr, e - n), Overlay(buf, n, r.0.value), e)
  {
  }

  /**
   * A read succeeds having covered every byte, or fails a whole number of
   * blocks short of the end; the address advances by the bytes covered.
   */
  lemma {:induction false} ReadBlocksProgress<S(!new)>(cmd: BlockRead<S>, l: S, addr: Word32, buf: seq<byte>, n: nat)
    requires Bounded(cmd) && n <= |buf|
    ensures var r := ReadBlocks(cmd, l, addr, buf, n);
      && n <= r.0 <= |buf|
      && (r.1.Pass? <==> r.0 == |buf|)
      && (r.1.Fail? ==> WholeBlocks(r.0 - n))
      && r.3 == Add32(addr, r.0 - n)
    decreases |buf| - n
  {
    if n < |buf| {
      var e := BlockEnd(|buf|, n);
      var got := cmd(l, addr, e - n);
      ReadBlocksStep(cmd, l, addr, buf, n);
      if got.0.Ok? {
        var a1 := Add32(addr, e - n);
        var buf1 := Overlay(buf, n, got.0.value);
        ReadBlocksProgress(cmd, got.1, a1, buf1, e);
        var r := ReadBlocks(cmd, got.1, a1, buf1, e);
        assert ReadBlocks(cmd, l, addr, buf, n) == r;
        Add32Twice(addr, e - n, r.0 - e);
        if r.1.Fail? {
          assert e - n == BlockSize;
        }
      }
    }
  }

  /** A read leaves the buffer as it was before `n` and from where it stopped on. */
  lemma {:induction false} ReadBlocksKeep<S(!new)>(cmd: BlockRead<S>, l: S, addr: Word32, buf: seq<byte>, n: nat)
    requires Bounded(cmd) && n <= |buf|
    ensures var r := ReadBlocks(cmd, l, addr, buf, n);
      && n <= r.0 <= |buf|
      && r.4[..n] == buf[..n]
      && r.4[r.0..] == buf[r.0..]
    decreases |buf| - n
  {
    if n < |buf| {
      var e := BlockEnd(|buf|, n);
      var (got, l1) := cmd(l, addr, e - n);
      ReadBlocksStep(cmd, l, addr, buf, n);
      if got.Ok? {
        var buf1 := Overlay(buf, n, got.value);
        ReadBlocksKeep(cmd, l1, Add32(addr, e - n), buf1, e);
        var r := ReadBlocks(cmd, l1, Add32(addr, e - n), buf1, e);
        OverlayParts(buf, n, got.value);
        PrefixKeep(r.4, buf1, n, e);
        SuffixKeep(buf1, buf, n + |got.value|, r.0);
      }
    }
  }
}
