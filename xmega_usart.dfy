/**
 * The interrupt-driven XMEGA USART driver of the target firmware
 * (third_party/chipwhisperer/firmware/hal/xmega/usart_driver.c, Atmel's
 * AVR1307 driver): a receive and a transmit ring buffer with head and tail
 * indices, filled and drained by the application and by the RX-complete and
 * data-register-empty interrupt handlers, plus polled 9-bit character I/O.
 *
 * Each buffer holds `2^k` bytes and is indexed through the mask `2^k - 1`;
 * the sizes are set in usart_driver.h, which is not part of this model, so
 * they are parameters here. One slot always stays unused, so a buffer of
 * `2^k` bytes holds at most `2^k - 1`. The indices are `uint8_t`, so `k` is
 * at most 8. The register bit masks are those of
 * the XMEGA USART: the DRE interrupt level is bits 0-1 of CTRLA, TXB8 is bit
 * 0 of CTRLB, and the received ninth bit RXB8 is bit 0 of STATUS.
 */
module XmegaUsart {
  import opened Base

  const DreIntLvlMask: byte := 0x03  // USART_DREINTLVL_gm
  const Txb8: byte := 0x01           // USART_TXB8_bm, in CTRLB
  const Rxb8: byte := 0x01           // USART_RXB8_bm, in STATUS

  /** `USART_DREINTLVL_t`: the data-register-empty interrupt level. */
  datatype DreLevel = Off | Lo | Med | Hi
  {
    function Code(): (c: byte)
      ensures c & DreIntLvlMask == c
    {
      match this
      case Off => 0x00
      case Lo => 0x01
      case Med => 0x02
      case Hi => 0x03
    }
  }

  /** CTRLA with the DRE interrupt level field replaced. */
  function WithDreLevel(ctrla: byte, level: DreLevel): (r: byte)
    ensures r & !DreIntLvlMask == ctrla & !DreIntLvlMask
    ensures r & DreIntLvlMask == level.Code()
  {
    (ctrla & !DreIntLvlMask) | level.Code()
  }

  function Pow2(k: nat): (p: nat)
    ensures p >= 1
  {
    if k == 0 then 1 else 2 * Pow2(k - 1)
  }

  /** C's `&` on non-negative integers, bit by bit from the bottom. */
  function And(x: nat, y: nat): (r: nat)
    ensures r <= x && r <= y
  {
    if x == 0 || y == 0 then 0
    else 2 * And(x / 2, y / 2) + (if x % 2 == 1 && y % 2 == 1 then 1 else 0)
  }

  /** Masking a value below `2^k` with `2^k - 1` keeps it. */
  lemma {:induction false} AndBelow(x: nat, k: nat)
    requires x < Pow2(k)
    ensures And(x, Pow2(k) - 1) == x
  {
    if k > 0 && x > 0 {
      assert (Pow2(k) - 1) / 2 == Pow2(k - 1) - 1 && (Pow2(k) - 1) % 2 == 1;
      AndBelow(x / 2, k - 1);
    }
  }

  /** Masking `2^k` itself with `2^k - 1` gives zero. */
  lemma {:induction false} AndPow(k: nat)
    ensures And(Pow2(k), Pow2(k) - 1) == 0
  {
    if k > 0 {
      assert Pow2(k) / 2 == Pow2(k - 1) && Pow2(k) % 2 == 0;
      assert (Pow2(k) - 1) / 2 == Pow2(k - 1) - 1;
      AndPow(k - 1);
    }
  }

  /** The index after `i` in a ring of `n` slots. */
  function Wrap(i: nat, n: nat): (j: nat)
    requires i < n
    ensures j < n
  {
    if i + 1 == n then 0 else i + 1
  }

  /** `(i + 1) & MASK` for a ring of `2^k` slots is the next index round the ring. */
  lemma MaskedAdvance(i: nat, k: nat)
    requires i < Pow2(k)
    ensures And(i + 1, Pow2(k) - 1) == Wrap(i, Pow2(k))
  {
    if i + 1 == Pow2(k) {
      AndPow(k);
    } else {
      AndBelow(i + 1, k);
    }
  }

  /**
   * `(i + 1) & MASK`, the driver's advance of a ring index, for a ring of
   * `2^k` slots (`USART_RX_BUFFER_MASK`, `USART_TX_BUFFER_MASK` are `2^k - 1`).
   */
  method NextIndex(i: nat, k: nat) returns (j: nat)
    requires i < Pow2(k)
    ensures j == Wrap(i, Pow2(k))
  {
    MaskedAdvance(i, k);
    j := And(i + 1, Pow2(k) - 1);
  }

  /** How many bytes are queued between `tail` (oldest) and `head` (next free slot). */
  function Count(tail: nat, head: nat, n: nat): (c: nat)
    requires tail < n && head < n
    ensures c < n
    ensures c == 0 <==> head == tail
  {
    if head >= tail then head - tail else head + n - tail
  }

  /** The slot `i` places after `tail`. */
  function Slot(tail: nat, i: nat, n: nat): (s: nat)
    requires tail < n && i < n
    ensures s < n
  {
    if tail + i < n then tail + i else tail + i - n
  }

  /** The queued bytes, oldest first. */
  function Ring(buf: seq<byte>, tail: nat, head: nat): (q: seq<byte>)
    requires tail < |buf| && head < |buf|
    ensures |q| == Count(tail, head, |buf|)
    ensures forall i :: 0 <= i < |q| ==> q[i] == buf[Slot(tail, i, |buf|)]
  {
    seq(Count(tail, head, |buf|), i requires 0 <= i < Count(tail, head, |buf|) => buf[Slot(tail, i, |buf|)])
  }

  /** The ring is full, by the driver's test, exactly when it holds `n - 1` bytes. */
  lemma FullRing(tail: nat, head: nat, n: nat)
    requires tail < n && head < n
    ensures Wrap(head, n) == tail <==> Count(tail, head, n) == n - 1
  {
  }

  /** Storing at the head and advancing it appends to the queue. */
  lemma Push(buf: seq<byte>, tail: nat, head: nat, x: byte)
    requires tail < |buf| && head < |buf| && Count(tail, head, |buf|) < |buf| - 1
    ensures Ring(buf[head := x], tail, Wrap(head, |buf|)) == Ring(buf, tail, head) + [x]
  {
    var n := |buf|;
    var c := Count(tail, head, n);
    assert Count(tail, Wrap(head, n), n) == c + 1;
    assert Slot(tail, c, n) == head;
    assert forall i :: 0 <= i < c ==> Slot(tail, i, n) != head;
  }

  /** Advancing the tail removes the oldest byte. */
  lemma Pop(buf: seq<byte>, tail: nat, head: nat)
    requires tail < |buf| && head < |buf| && tail != head
    ensures Ring(buf, Wrap(tail, |buf|), head) == Ring(buf, tail, head)[1..]
  {
    var n := |buf|;
    assert Count(Wrap(tail, n), head, n) == Count(tail, head, n) - 1;
    assert forall i :: 0 <= i < Count(tail, head, n) - 1 ==> Slot(Wrap(tail, n), i, n) == Slot(tail, i + 1, n);
  }

  /** The USART registers the driver touches (`USART_t`). */
  class Usart {
    var ctrla: byte
    var ctrlb: byte
    var status: byte
    /** DATA as read: the received character's low byte. */
    var rxData: byte
    /** DATA as written: every byte handed to the transmitter, in order. */
    var sent: seq<byte>

    constructor ()
      ensures ctrla == 0 && ctrlb == 0 && status == 0 && rxData == 0 && sent == []
    {
      ctrla, ctrlb, status, rxData, sent := 0, 0, 0, 0, [];
    }
  }

  /** The driver state (`USART_data_t`): the USART, the DRE level, and the two rings. */
  class UsartData {
    const usart: Usart
    var dreIntLevel: DreLevel
    const rxBits: nat
    const txBits: nat
    const rx: array<byte>
    const tx: array<byte>
    var rxHead: nat
    var rxTail: nat
    var txHead: nat
    var txTail: nat

    ghost predicate Valid()
      reads this
    {
      rxBits <= 8 && txBits <= 8
      && rx.Length == Pow2(rxBits) && tx.Length == Pow2(txBits) && rx != tx
      && rxHead < rx.Length && rxTail < rx.Length && txHead < tx.Length && txTail < tx.Length
    }

    /** The bytes received and not yet taken, oldest first. */
    function RxQueue(): seq<byte>
      reads this, rx
      requires Valid()
    {
      Ring(rx[..], rxTail, rxHead)
    }

    /** The bytes queued for sending and not yet handed to the USART, oldest first. */
    function TxQueue(): seq<byte>
      reads this, tx
      requires Valid()
    {
      Ring(tx[..], txTail, txHead)
    }

    /**
     * `USART_InterruptDriver_Initialize`: binds the USART, records the DRE
     * level and empties both rings.
     */
    constructor (usart: Usart, level: DreLevel, rxBits: nat, txBits: nat)
      requires rxBits <= 8 && txBits <= 8
      ensures Valid() && fresh(rx) && fresh(tx)
      ensures this.usart == usart && dreIntLevel == level
      ensures this.rxBits == rxBits && this.txBits == txBits
      ensures RxQueue() == [] && TxQueue() == []
    {
      this.usart := usart;
      dreIntLevel := level;
      this.rxBits, this.txBits := rxBits, txBits;
      rx := new byte[Pow2(rxBits)](_ => 0);
      tx := new byte[Pow2(txBits)](_ => 0);
      rxTail, rxHead, txTail, txHead := 0, 0, 0, 0;
    }

    /** `USART_InterruptDriver_DreInterruptLevel_Set`. */
    method SetDreLevel(level: DreLevel)
      modifies this
      ensures dreIntLevel == level
      ensures rxHead == old(rxHead) && rxTail == old(rxTail) && txHead == old(txHead) && txTail == old(txTail)
    {
      dreIntLevel := level;
    }

    /** `USART_TXBuffer_FreeSpace`: room for one more byte, i.e. fewer than `2^k - 1` queued. */
    method TxFreeSpace() returns (free: bool)
      requires Valid()
      ensures free <==> |TxQueue()| < tx.Length - 1
    {
      var tempHead := NextIndex(txHead, txBits);
      FullRing(txTail, txHead, tx.Length);
      free := tempHead != txTail;
    }

    /**
     * `USART_TXBuffer_PutByte`: with room, the byte joins the end of the
     * transmit queue and the DRE interrupt is enabled at the stored level;
     * without room nothing changes. The result says which happened.
     */
    method PutByte(data: byte) returns (ok: bool)
      requires Valid()
      modifies this, tx, usart
      ensures Valid()
      ensures ok <==> |old(TxQueue())| < tx.Length - 1
      ensures ok ==> TxQueue() == old(TxQueue()) + [data] && usart.ctrla == WithDreLevel(old(usart.ctrla), dreIntLevel)
      ensures !ok ==> TxQueue() == old(TxQueue()) && usart.ctrla == old(usart.ctrla)
      ensures RxQueue() == old(RxQueue()) && dreIntLevel == old(dreIntLevel)
      ensures usart.ctrlb == old(usart.ctrlb) && usart.sent == old(usart.sent)
      ensures usart.status == old(usart.status) && usart.rxData == old(usart.rxData)
    {
      ghost var rq, tq, buf := RxQueue(), TxQueue(), tx[..];
      ok := TxFreeSpace();
      if ok {
        var tempHead := txHead;
        Push(buf, txTail, tempHead, data);
        tx[tempHead] := data;
        assert tx[..] == buf[tempHead := data];
        txHead := NextIndex(tempHead, txBits);
        usart.ctrla := (usart.ctrla & !DreIntLvlMask) | dreIntLevel.Code();
        assert TxQueue() == tq + [data];
      }
      assert RxQueue() == rq;
    }

    /** `USART_RXBufferData_Available`: the receive queue is not empty. */
    method RxAvailable() returns (available: bool)
      requires Valid()
      ensures available <==> rxHead != rxTail
      ensures available <==> RxQueue() != []
    {
      available := rxHead != rxTail;
    }

    /**
     * `USART_RXBuffer_GetByte`: takes the oldest received byte. The driver
     * requires a preceding `RxAvailable` check; on an empty ring it would
     * return a stale slot and leave the ring claiming to be full.
     */
    method GetByte() returns (b: byte)
      requires Valid() && RxQueue() != []
      modifies this
      ensures Valid()
      ensures b == old(RxQueue())[0] && RxQueue() == old(RxQueue())[1..]
      ensures TxQueue() == old(TxQueue()) && dreIntLevel == old(dreIntLevel)
    {
      ghost var tq := TxQueue();
      b := rx[rxTail];
      Pop(rx[..], rxTail, rxHead);
      rxTail := NextIndex(rxTail, rxBits);
      assert TxQueue() == tq;
    }

    /**
     * `USART_RXComplete`: the RX-complete interrupt. The received byte joins
     * the receive queue unless the ring is full, in which case it is dropped
     * and the result is false.
     */
    method RxComplete() returns (ok: bool)
      requires Valid()
      modifies this, rx
      ensures Valid()
      ensures ok <==> |old(RxQueue())| < rx.Length - 1
      ensures ok ==> RxQueue() == old(RxQueue()) + [usart.rxData]
      ensures !ok ==> RxQueue() == old(RxQueue())
      ensures TxQueue() == old(TxQueue()) && dreIntLevel == old(dreIntLevel)
    {
      var tempHead := NextIndex(rxHead, rxBits);
      FullRing(rxTail, rxHead, rx.Length);
      ghost var rq, tq, buf := RxQueue(), TxQueue(), rx[..];
      var data := usart.rxData;
      if tempHead == rxTail {
        ok := false;
      } else {
        ok := true;
        Push(buf, rxTail, rxHead, data);
        rx[rxHead] := data;
        assert rx[..] == buf[rxHead := data];
        rxHead := tempHead;
        assert RxQueue() == rq + [data];
      }
      assert TxQueue() == tq;
    }

    /**
     * `USART_DataRegEmpty`: the data-register-empty interrupt. With nothing
     * queued it turns the DRE interrupt off; otherwise it hands the oldest
     * queued byte to the USART, so bytes leave in the order they were put.
     */
    method DataRegEmpty()
      requires Valid()
      modifies this, usart
      ensures Valid()
      ensures old(TxQueue()) == [] ==>
        TxQueue() == [] && usart.ctrla == WithDreLevel(old(usart.ctrla), Off) && usart.sent == old(usart.sent)
      ensures old(TxQueue()) != [] ==>
        usart.sent == old(usart.sent) + [old(TxQueue())[0]] && TxQueue() == old(TxQueue())[1..]
        && usart.ctrla == old(usart.ctrla)
      ensures RxQueue() == old(RxQueue()) && dreIntLevel == old(dreIntLevel) && usart.ctrlb == old(usart.ctrlb)
      ensures usart.status == old(usart.status) && usart.rxData == old(usart.rxData)
    {
      ghost var rq, tq := RxQueue(), TxQueue();
      if txHead == txTail {
        usart.ctrla := (usart.ctrla & !DreIntLvlMask) | Off.Code();
      } else {
        var data := tx[txTail];
        usart.sent := usart.sent + [data];
        Pop(tx[..], txTail, txHead);
        txTail := NextIndex(txTail, txBits);
        assert TxQueue() == tq[1..];
      }
      assert RxQueue() == rq;
    }
  }

  /** CTRLB after `USART_NineBits_PutChar` of `data`: TXB8 follows bit 8, the other bits stay. */
  function NinthBitOut(ctrlb: byte, data: u16): (r: byte)
    ensures r & !Txb8 == ctrlb & !Txb8
    ensures (r & Txb8 != 0) <==> (data & 0x0100 != 0)
  {
    if data & 0x0100 != 0 then ctrlb | Txb8 else ctrlb & !Txb8
  }

  /** `USART_NineBits_PutChar`: bit 8 to TXB8, the low byte to DATA. */
  method NineBitsPutChar(usart: Usart, data: u16)
    modifies usart
    ensures usart.ctrlb == NinthBitOut(old(usart.ctrlb), data)
    ensures usart.sent == old(usart.sent) + [(data & 0x00FF) as byte]
    ensures usart.ctrla == old(usart.ctrla) && usart.status == old(usart.status) && usart.rxData == old(usart.rxData)
  {
    if data & 0x0100 != 0 {
      usart.ctrlb := usart.ctrlb | Txb8;
    } else {
      usart.ctrlb := usart.ctrlb & !Txb8;
    }
    usart.sent := usart.sent + [(data & 0x00FF) as byte];
  }

  /** The 9-bit value `USART_NineBits_GetChar` forms, with its ninth bit taken from register `flags`. */
  function Char9(flags: byte, data: byte): (c: u16)
    ensures c & 0x00FF == data as u16
    ensures (c & 0x0100 != 0) <==> (flags & Rxb8 != 0)
    ensures c < 0x200
  {
    if flags & Rxb8 != 0 then 0x0100 | data as u16 else data as u16
  }

  /** The register contents after the receiver took the 9-bit character `c`: RXB8 in STATUS, the low byte in DATA. */
  function Received(status: byte, c: u16): (r: (byte, byte))
    requires c < 0x200
  {
    (if c & 0x0100 != 0 then status | Rxb8 else status & !Rxb8, (c & 0x00FF) as byte)
  }

  /**
   * `USART_NineBits_GetChar` as written: it tests `USART_RXB8_bm` in CTRLB
   * rather than in STATUS, so the ninth bit it reports is the one held for
   * transmission (TXB8, the same bit position), not the one received.
   */
  method NineBitsGetChar(usart: Usart) returns (c: u16)
    ensures c == Char9(usart.ctrlb, usart.rxData)
  {
    if usart.ctrlb & Rxb8 != 0 {
      c := 0x0100 | usart.rxData as u16;
    } else {
      c := usart.rxData as u16;
    }
  }

  /** The same read with RXB8 taken from STATUS, where the receiver stores it. */
  method NineBitsGetCharStatus(usart: Usart) returns (c: u16)
    ensures c == Char9(usart.status, usart.rxData)
  {
    if usart.status & Rxb8 != 0 {
      c := 0x0100 | usart.rxData as u16;
    } else {
      c := usart.rxData as u16;
    }
  }

  /** Reading STATUS recovers every received 9-bit character. */
  lemma ReceiveRoundTrip(status: byte, c: u16)
    requires c < 0x200
    ensures Char9(Received(status, c).0, Received(status, c).1) == c
  {
  }

  /**
   * Reading CTRLB loses the received ninth bit: with TXB8 clear, the
   * character 0x1AB arrives and 0x0AB is reported.
   */
  lemma CtrlbLosesNinthBit()
    ensures var (status, data) := Received(0x00, 0x1AB);
      status & Rxb8 != 0 && Char9(0x00, data) == 0x00AB
  {
  }

  /**
   * What the code as written does guarantee: on a line looped back to
   * itself, a character put with `NineBitsPutChar` reads back whole, because
   * both functions use bit 0 of CTRLB.
   */
  lemma LoopbackRoundTrip(ctrlb: byte, c: u16)
    requires c < 0x200
    ensures Char9(NinthBitOut(ctrlb, c), (c & 0x00FF) as byte) == c
  {
  }
}
