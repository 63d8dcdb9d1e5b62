/**
 * The packed sample stream of the OpenADC FIFO (`ProcessTraceData`,
 * adc.go): a sync byte 0xAC, then big-endian 32-bit words each holding
 * three 10-bit samples (bits 0-9, 10-19, 20-29) and a 2-bit tag (bits 30-31)
 * that marks where in the word the trigger fell. Words before the trigger
 * carry tag 3 and are skipped; the first word with a smaller tag contributes
 * its samples from the trigger on; every later word contributes all three.
 *
 * Samples are the raw 10-bit values; the driver's scaling of each to
 * `value/1024 - 0.5` as a float is not part of this model.
 */
module TraceDecode {
  import opened Base
  import opened Bytes

  const SyncByte: byte := 0xAC

  /** The sample in bits 0-9. */
  function M1(w: u32): (m: nat)
    ensures m < 1024
  {
    (w & 0x3FF) as nat
  }

  /** The sample in bits 10-19. */
  function M2(w: u32): (m: nat)
    ensures m < 1024
  {
    ((w >> 10) & 0x3FF) as nat
  }

  /** The sample in bits 20-29. */
  function M3(w: u32): (m: nat)
    ensures m < 1024
  {
    ((w >> 20) & 0x3FF) as nat
  }

  /** All samples are 10-bit values. */
  predicate TenBit(s: seq<nat>)
  {
    forall i :: 0 <= i < |s| ==> s[i] < 1024
  }
  function Tag(w: u32): (t: nat)
    ensures t < 4
  {
    (w >> 30) as nat
  }

  /** The lengths `ProcessTraceData` accepts. */
  predicate WellFramed(data: seq<byte>)
  {
    |data| >= 4 && |data| % 4 == 0
  }

  /** The words the loop reads: from byte 1 in steps of four, while `i < len-3`. */
  function Words(data: seq<byte>): (ws: seq<u32>)
    requires WellFramed(data)
    ensures |ws| == (|data| - 4) / 4
    ensures forall k :: 0 <= k < |ws| ==> ws[k] == BeWord32(data[1 + 4 * k..5 + 4 * k])
  {
    seq((|data| - 4) / 4, k requires 0 <= k < (|data| - 4) / 4 => BeWord32(data[1 + 4 * k..5 + 4 * k]))
  }

  /** What the first word after the trigger contributes: m3, then m2, then m1, as far as its tag allows. */
  function FirstSamples(w: u32): (r: seq<nat>)
    ensures |r| <= 3 && TenBit(r)
  {
    (if Tag(w) < 3 then [M3(w)] else []) + (if Tag(w) < 2 then [M2(w)] else []) + (if Tag(w) < 1 then [M1(w)] else [])
  }

  /** The samples of `ws`, given whether the trigger word has been seen already. */
  function Samples(ws: seq<u32>, triggerFound: bool): (r: seq<nat>)
    ensures |r| <= 3 * |ws|
    ensures TenBit(r)
  {
    if ws == [] then []
    else
      var w := ws[0];
      if !triggerFound && Tag(w) == 3 then Samples(ws[1..], false)
      else
        var head := if triggerFound then [M1(w), M2(w), M3(w)] else FirstSamples(w);
        var rest := Samples(ws[1..], true);
        assert TenBit(head + rest) by {
          assert forall i :: 0 <= i < |head + rest| ==> (head + rest)[i] == if i < |head| then head[i] else rest[i - |head|];
        }
        head + rest
  }

  /** `ProcessTraceData`: the length and sync checks, then the samples of the words. */
  function Decode(data: seq<byte>): (r: Result<seq<nat>>)
    ensures r.Err? <==> !WellFramed(data) || data[0] != SyncByte
    ensures !WellFramed(data) ==> r == Err(BadTraceLength)
    ensures WellFramed(data) && data[0] != SyncByte ==> r == Err(BadSyncByte)
    ensures r.Ok? ==> |r.value| <= 3 * ((|data| - 4) / 4)
  {
    if !WellFramed(data) then Err(BadTraceLength)
    else if data[0] != SyncByte then Err(BadSyncByte)
    else Ok(Samples(Words(data), false))
  }

  /**
   * The first word's samples come out in the order m3, m2, m1: a tag-2 word
   * gives [m3] and a tag-1 word [m3, m2] (not [m2, m3] as the comment beside
   * the code has it).
   */
  lemma FirstSamplesOrder(w: u32)
    ensures Tag(w) == 3 ==> FirstSamples(w) == []
    ensures Tag(w) == 2 ==> FirstSamples(w) == [M3(w)]
    ensures Tag(w) == 1 ==> FirstSamples(w) == [M3(w), M2(w)]
    ensures Tag(w) == 0 ==> FirstSamples(w) == [M3(w), M2(w), M1(w)]
    ensures |FirstSamples(w)| == 3 - Tag(w)
  {
  }

  /** Words before the trigger contribute nothing. */
  lemma {:induction false} SkipBeforeTrigger(ws: seq<u32>, k: nat)
    requires k <= |ws| && forall j :: 0 <= j < k ==> Tag(ws[j]) == 3
    ensures Samples(ws, false) == Samples(ws[k..], false)
    decreases k
  {
    if k > 0 {
      assert ws[1..][k - 1..] == ws[k..];
      SkipBeforeTrigger(ws[1..], k - 1);
    }
  }

  /**
   * The output is the first triggered word's leading samples followed by
   * every later word's three samples; a trace with no trigger word is empty.
   */
  lemma TriggerSplit(ws: seq<u32>, k: nat)
    requires k <= |ws| && forall j :: 0 <= j < k ==> Tag(ws[j]) == 3
    ensures k == |ws| ==> Samples(ws, false) == []
    ensures k < |ws| && Tag(ws[k]) < 3 ==> Samples(ws, false) == FirstSamples(ws[k]) + Samples(ws[k + 1..], true)
  {
    SkipBeforeTrigger(ws, k);
    if k < |ws| {
      assert ws[k..][1..] == ws[k + 1..];
    }
  }

  /** Once the trigger has been seen, every word yields exactly three samples. */
  lemma {:induction false} FullWords(ws: seq<u32>)
    ensures |Samples(ws, true)| == 3 * |ws|
  {
    if ws != [] {
      FullWords(ws[1..]);
    }
  }

  /** After the trigger, word j supplies samples 3j, 3j+1, 3j+2, in the order m1, m2, m3. */
  lemma {:induction false} AfterTrigger(ws: seq<u32>, j: nat)
    requires j < |ws|
    ensures var r := Samples(ws, true);
      |r| == 3 * |ws| && r[3 * j] == M1(ws[j]) && r[3 * j + 1] == M2(ws[j]) && r[3 * j + 2] == M3(ws[j])
    decreases j
  {
    FullWords(ws);
    FullWords(ws[1..]);
    if j > 0 {
      AfterTrigger(ws[1..], j - 1);
    }
  }

  /** What word `k` contributes, given whether the trigger was seen before it. */
  function Contribution(w: u32, triggerFound: bool): seq<nat>
  {
    if triggerFound then [M1(w), M2(w), M3(w)] else FirstSamples(w)
  }

  /** Concatenation regrouped, stated once so the loop's invariant step stays small. */
  lemma Associative(a: seq<nat>, b: seq<nat>, c: seq<nat>)
    ensures a + b + c == a + (b + c)
  {
  }

  /** One step of the decoding loop: word k's contribution, then the rest. */
  lemma SamplesStep(ws: seq<u32>, k: nat, triggerFound: bool)
    requires k < |ws|
    ensures Samples(ws[k..], triggerFound)
      == Contribution(ws[k], triggerFound) + Samples(ws[k + 1..], triggerFound || Tag(ws[k]) < 3)
  {
    assert ws[k..][0] == ws[k] && ws[k..][1..] == ws[k + 1..];
    FirstSamplesOrder(ws[k]);
  }

  /** The trigger word's appends: m3, m2 and m1 while the tag is below 3, 2 and 1. */
  method AppendFirst(measurements: seq<nat>, word: u32) returns (r: seq<nat>)
    ensures r == measurements + FirstSamples(word)
  {
    var trigger := Tag(word);
    r := measurements;
    if trigger < 3 {
      r := r + [M3(word)];
    }
    if trigger < 2 {
      r := r + [M2(word)];
    }
    if trigger < 1 {
      r := r + [M1(word)];
    }
  }

  /** One word of `ProcessTraceData`'s loop: skipped before the trigger, else its samples appended. */
  method DecodeWord(measurements: seq<nat>, word: u32, triggerFound: bool) returns (r: seq<nat>, found: bool)
    ensures r == measurements + Contribution(word, triggerFound)
    ensures found == (triggerFound || Tag(word) < 3)
  {
    var m1, m2, m3 := M1(word), M2(word), M3(word);
    var trigger := Tag(word);
    if !triggerFound {
      if trigger == 3 {
        FirstSamplesOrder(word);
        return measurements, false;
      }
      r := AppendFirst(measurements, word);
      found := true;
    } else {
      r := measurements + [m1];
      r := r + [m2];
      r := r + [m3];
      assert r == measurements + [m1, m2, m3];
      found := true;
    }
  }

  /**
   * `ProcessTraceData`'s loop: one big-endian word every four bytes from
   * byte 1, skipping words until the trigger word.
   */
  method DecodeTrace(data: seq<byte>) returns (r: Result<seq<nat>>)
    ensures r == Decode(data)
  {
    if |data| < 4 || |data| % 4 != 0 {
      return Err(BadTraceLength);
    }
    if data[0] != SyncByte {
      return Err(BadSyncByte);
    }
    var measurements := DecodeWords(data);
    return Ok(measurements);
  }

  /** `ProcessTraceData`'s loop over the words of a well-framed trace. */
  method DecodeWords(data: seq<byte>) returns (measurements: seq<nat>)
    requires WellFramed(data)
    ensures measurements == Samples(Words(data), false)
  {
    ghost var ws := Words(data);
    assert |data| == 4 * |ws| + 4;
    measurements := [];
    var triggerFound := false;
    var i := 1;
    ghost var k := 0;
    while i < |data| - 3
      invariant 0 <= k <= |ws| && i == 1 + 4 * k
      invariant measurements + Samples(ws[k..], triggerFound) == Samples(ws, false)
    {
      measurements, triggerFound := DecodeAt(data, i, k, measurements, triggerFound);
      i, k := i + 4, k + 1;
    }
    assert ws[k..] == [];
    assert Samples(ws[k..], triggerFound) == [];
  }

  /** The loop body at byte `i`, which starts word `k`. */
  method DecodeAt(data: seq<byte>, i: nat, ghost k: nat, measurements: seq<nat>, triggerFound: bool)
    returns (r: seq<nat>, found: bool)
    requires WellFramed(data) && k < |Words(data)| && i == 1 + 4 * k
    ensures r + Samples(Words(data)[k + 1..], found) == measurements + Samples(Words(data)[k..], triggerFound)
  {
    ghost var ws := Words(data);
    var word := BeWord32(data[i..i + 4]);
    assert word == ws[k];
    SamplesStep(ws, k, triggerFound);
    ghost var contribution := Contribution(word, triggerFound);
    r, found := DecodeWord(measurements, word, triggerFound);
    Associative(measurements, contribution, Samples(ws[k + 1..], found));
  }
}
