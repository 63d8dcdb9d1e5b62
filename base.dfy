/**
 * Shared vocabulary of the gocw model: bytes, the fixed-width unsigned
 * integers of the Go code, optional values, fallible results, and the kinds
 * of error the driver reports.
 *
 * Go errors are formatted strings that are only ever compared with nil;
 * the model keeps the kind of each error and drops the message text.
 */
module Base {
  /** Go's `byte`: wrap-around arithmetic, native bit operations. */
  type byte = bv8

  /** Go's `uint16` and `uint32`: wrap-around arithmetic, as in the source. */
  type u16 = bv16
  type u32 = bv32

  /** Go's `uint32(n)` of a non-negative `int`: the low 32 bits. */
  function U32(n: nat): u32
  {
    (n % 0x1_0000_0000) as u32
  }

  /**
   * A Go `uint32` that the code advances by addition, such as a flash
   * address: an integer kept below 2^32 by explicit wrap-around, so that
   * address arithmetic needs no bit-vector reasoning.
   */
  type Word32 = x: int | 0 <= x < 0x1_0000_0000

  /** `a += uint32(k)`. */
  function Add32(a: Word32, k: nat): Word32
  {
    (a + k) % 0x1_0000_0000
  }

  /** Two advances make one. */
  lemma Add32Twice(a: Word32, j: nat, k: nat)
    ensures Add32(Add32(a, j), k) == Add32(a, j + k)
  {
  }

  datatype Option<+T> = None | Some(value: T)

  /** A value or the error that prevented it. */
  datatype Result<+T> = Ok(value: T) | Err(error: Error)

  /** What a Go function returning only `error` returns: nil or an error. */
  datatype Outcome = Pass | Fail(error: Error)

  datatype Error =
      // USB transport (usb_device.go)
    | TransferFailed          // the transfer itself errored
    | ShortControlTransfer    // a control transfer moved the wrong byte count
      // external memory (memory.go)
    | ShortBulkRead           // bulk read returned fewer bytes than asked for
    | ShortBulkWrite          // bulk write accepted fewer bytes than given
    | MaskLengthMismatch      // verify mask and data lengths differ
    | VerifyMismatch          // read-back differs from what was written
      // FPGA loader (fpga.go)
    | FpgaNotReady            // DONE bit still clear after programming
      // ADC controller (adc.go)
    | RegisterAccessFailed    // an ADC register read or write failed
    | GainOutOfRange
    | TooManySamples
    | InvalidClockSource
    | UnknownClockOut         // target clock-out field holds no known mode
    | ClkGenMulTooSmall
    | ClkGenDivTooSmall
    | ClkGenNotLocked         // DCM never reported lock while reading mul
    | BadTraceLength
    | BadSyncByte
    | NotReliableOnHardware   // pre-trigger samples set on a board other than CW-Lite or CW1200
    | InvalidTriggerPin
    | UnknownTioMode          // an IO-route byte holds no known target-IO mode
    | NotInGpioMode           // GPIO level set on a pin not routed to GPIO
    | UnsupportedTioMode      // a target-IO mode `targetIo` or `setTargetIo` does not handle
      // serial line and simple-serial protocol (usart.go, simple_serial.go)
    | PortFailed              // the serial port reported an error
    | NoAck                   // response did not start with 'z'
    | UnsupportedVersion      // version probe did not answer 'z'
    | NotAResponse            // response did not start with 'r'
    | BadHex                  // odd length or a non-hex character
      // STM32 bootloader (programmer/stm32f/programmer.go)
    | AckTimeout              // no byte arrived where an ACK was expected
    | Nack
    | UnknownAck
    | UnsupportedChip         // the chip's ID matches no supported signature
      // XMEGA PDI programmer (programmer/xmega/programmer.go)
    | StatusError             // the programmer's status block reported an error
    | ShortWrite              // io.ErrShortWrite: a write took fewer bytes, or would pass the end of flash
    | ChipNotFound
      // firmware programming (util/programmer.go)
    | ReadBackMismatch
      // capture loop (capture.go)
    | EntropyFailed           // the random source failed
    | GeneratorFailed         // the plaintext generator failed
    | ScriptExhausted         // the scripted environment ran out of steps
}
