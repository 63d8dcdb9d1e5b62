# gocw: a verified model of the ChipWhisperer-Lite driver core

gocw drives a NewAE ChipWhisperer-Lite capture board from Go. The board speaks to the host over USB. The host uses it to:

- program the board's FPGA;
- configure its OpenADC sampling front end;
- talk to a target microcontroller over a serial line;
- program the target's flash through an STM32 or XMEGA bootloader;
- collect power traces, which command-line tools then attack.

This project models the deterministic core of that driver in Dafny and proves what each part promises:

- **Abstract devices.** The USB device (`Usb`), the serial line to the target (`Serial`) and the flash programmer behind `ProgramDevice` (`Flash`) are recorded transcripts. Every call is appended to a log, and the device's answer comes from a script of replies fixed in advance, as in the repository's gomock tests. Each device-level procedure is a function from the transcript before to its result and the transcript after. The imperative classes (`ExtMemory.Memory`, `FpgaLoader.Fpga`, `Usart.Usart`, `AdcDriver.Adc`, `Stm32Boot.Programmer`, `Xmega.Programmer`, …) perform the Go code's steps and are proved to end where those functions say.
- **External memory** (`ExtMemory`, memory.go). There is an 8-byte little-endian address block. The framing switches from control to bulk transfers at 48 bytes, and writes are verified under an optional byte mask.
- **FPGA loader** (`FpgaLoader`, fpga.go). It pulses PROGRAM, streams the bitstream and polls DONE.
- **OpenADC controller** (`AdcBus`, `AdcFields`, `OpenAdc`, `AdcLemmas`, `AdcDriver`, `AdcClock`, `TraceDecode`, `AdcSetup`, `AdcRefresh`, `AdcOpen`; adc.go and adc_interface.go). The register file keeps the last value stored at each address. For the registers the hardware changes on its own (the status byte, the CLKGEN done and lock flags, the FIFO count) it also holds the readings still to come, one per read. It covers:
  - the sticky error;
  - the register bitfields and their round trips;
  - the range checks;
  - the exhaustive CLKGEN multiplier/divider search;
  - the read length computed by `TraceData`;
  - the packed 10-bit sample decoder with its trigger tag;
  - the wait for the trigger, stopping at the first status reading that shows it or forcing it when the polls run out;
  - the CLKGEN two-try reads of the multiplier and divider;
  - the healthy path of `NewAdc`: the reset pulse, `refreshParams` and `defaultSetup` on a CW-Lite, and the settings, clock and routes they leave.
- **Trace capture** (`TraceCapture`, capture.go). It retries or aborts until exactly N traces are held, then flattens the traces row by row into the samples matrix.
- **Board USART** (`Usart`, usart.go). Writes go in chunks of 58 bytes, reads accumulate under a poll budget, and `Flush` drains.
- **Simple serial** (`SimpleSerial`, simple_serial.go). It formats hex commands, parses `r` responses and waits for the `z` acknowledgement.
- **Target programmers.**
  - `Stm32Boot` (programmer/stm32f/programmer.go) follows ST's USART bootloader protocol of application note AN3155: command complements, XOR checksums, 0xFF padding, ACK/NACK and the erase fallback.
  - `Xmega` (programmer/xmega/programmer.go) covers PDI programming through the board's vendor request, status checks and chip identification.
  - `Blocks` is the 64-byte chunking the two programmers share.
  - `Flash` (util/programmer.go) is erase, then write, then read-back comparison.
- **P-256 codec** (`P256`, util/p256_encoder.go). Coordinates are 32-byte big-endian, that is I2OSP and OS2IP of RFC 8017 sections 4.1 and 4.2. Points are two coordinates.
- **Target firmware's XMEGA USART driver** (`XmegaUsart`, third_party/chipwhisperer/firmware/hal/xmega/usart_driver.c). It keeps head/tail ring buffers in arrays, updated by the application and the interrupt handlers, and does 9-bit character I/O.
- **Integer scaffolding of the power-analysis tools.**
  - The AES S-box of FIPS 197 section 5.1.1 (`AesSbox`), proved a permutation through the inverse S-box of section 5.3.2.
  - The CPA and DPA leakage models (`Cpa`, `Dpa`).
  - The best-guess scan they share (`KeyGuess`).
  - The template attack's point-of-interest selection, 80/20 split and classification comparison (`Template`).

Shared pieces:

- `Base` holds the fixed-width words with Go's wrap-around, `Option`/`Result`/`Outcome`, and the error kinds. Go errors are formatted strings that callers only compare with nil, so the model keeps the kind and drops the text.
- `Bytes` holds the little- and big-endian codecs.

Bytes are `bv8`. The Go code's `uint16`/`uint32`/`int64` arithmetic is written out with its wrap-around where it matters.

## Model

| member | source | states |
|---|---|---|
| Usb.CtrlIn | usb_device.go:164-184 | a control read succeeds exactly when the device delivers the whole buffer, returns those bytes, and records the transfer |
| Usb.CtrlOut | usb_device.go:186-200 | a control write succeeds exactly when the device accepts every byte, and records the transfer |
| Usb.BulkIn | usb_device.go:152-156 | a bulk read delivers at most the buffer's length and succeeds exactly when the device delivers data |
| Usb.BulkOut | usb_device.go:158-162 | a bulk write reports at most the number of bytes given and succeeds exactly when the device accepts some |
| Usb.Closed | usb_device.go:131-149 | closing records the call, consumes no reply and never fails |
| Usb.Device.ControlIn | usb_device.go:164-184 | the device's result and new transcript are those of `CtrlIn` |
| Usb.Device.ControlOut | usb_device.go:186-200 | the device's result and new transcript are those of `CtrlOut` |
| Usb.Device.Read | usb_device.go:152-156 | the device's result and new transcript are those of `BulkIn` |
| Usb.Device.Write | usb_device.go:158-162 | the device's result and new transcript are those of `BulkOut` |
| Usb.Device.Close | usb_device.go:131-149 | the new transcript is `Closed` of the old one |
| Serial.Answer | usart.go:29-37 | every call on the serial line is appended to its transcript and the read timeout is kept |
| Serial.Send | usart.go:29-31 | a write is recorded and succeeds exactly when the far end accepts it |
| Serial.Receive | usart.go:29-30 | a read into `len` bytes succeeds exactly when at most `len` bytes arrive, and returns exactly those bytes |
| Serial.Drain | usart.go:32-33 | a flush is recorded and succeeds exactly when the far end accepts it |
| Serial.NextLine | simple_serial.go:67-70 | a line read succeeds exactly when what arrives ends in the newline delimiter, and returns it delimiter included |
| Serial.WithTimeout | usart.go:34-36 | setting the timeout records the call, replaces the timeout and consumes no reply |
| Serial.Drive | adc_interface.go:298-301 | driving the reset or boot-select pin records the call and consumes no reply |
| Serial.Filled | programmer/stm32f/programmer.go:79-84 | a zeroed buffer of `len` bytes after a read holds the received bytes at the front and zeros after them |
| Serial.Port.constructor | usart.go:29-37 | a fresh port has an empty transcript, the given replies and timeout |
| Serial.Port.Write | usart.go:29-31 | the port's result and new state are those of `Send` |
| Serial.Port.Read | usart.go:29-30 | the port's result and new state are those of `Receive` |
| Serial.Port.Flush | usart.go:32-33 | the port's result and new state are those of `Drain` |
| Serial.Port.ReadLine | simple_serial.go:67-70 | the port's result and new state are those of `NextLine` |
| Serial.Port.Timeout | usart.go:34-35 | returns the current timeout |
| Serial.Port.SetTimeout | usart.go:34-36 | the port's new state is that of `WithTimeout` |
| Serial.Port.SetPin | adc_interface.go:298-301 | the port's new state is that of `Drive` |
| Usart.ConfigBytes | usart.go:76-81 | the wire form of a line configuration is seven bytes |
| Usart.ConfigRoundTrip | usart.go:76-81 | decoding the seven configuration bytes gives back the configuration: baud rate little-endian, then stop bits, parity and data bits |
| Usart.DecodeConfig | usart.go:76-81 | the configuration the board reads out of seven bytes; `ConfigRoundTrip` states that it undoes `ConfigBytes` |
| Usart.Waiting | usart.go:113-120 | the waiting-count query succeeds exactly when the board answers with four bytes, and then yields their little-endian value |
| Usart.DataWrites | usart.go:127-130 | one data transfer per chunk, in order |
| Usart.PieceEnd | usart.go:192-205 | each piece `Write` sends is non-empty and ends inside `p` |
| Usart.WriteFrom | usart.go:192-205 | `Write` from offset `n` on, in pieces of at most 58 bytes; `WriteSendsChunks`, `WriteStopsAtFailure`, `WriteFailsOnBoundary` and `WriteCountBounded` state its pieces, count and failures, and `Usart.Write` is proved against it |
| Usart.WriteSendsChunks | usart.go:192-205 | a successful write sends the 58-byte chunks of `p` in order, one transfer each, and reports every byte |
| Usart.WriteStopsAtFailure | usart.go:199-201 | a failed write reports fewer bytes than `p` holds, after sending the pieces before that offset and the piece that failed |
| Usart.WriteFailsOnBoundary | usart.go:195-203 | the count a failed write reports is a whole number of 58-byte pieces |
| Usart.PiecesAreChunks | usart.go:194-204 | the pieces sent from one offset to another are exactly the 58-byte chunks of that part of `p` |
| Usart.WriteCountBounded | usart.go:192-205 | the reported count lies between the start offset and the length of `p` |
| Usart.PollOnce | usart.go:160-182 | one poll reads at most the room left and at least one byte, and when nothing is waiting it makes only the count query |
| Usart.ReadStep | usart.go:155-186 | one loop turn never fills more than the buffer |
| Usart.ReadLoop | usart.go:149-190 | the whole read never fills more than the buffer |
| Usart.ReadKeepsPrefix | usart.go:180-186 | bytes once received stay at the front of the buffer whatever happens later |
| Usart.ReadEndsFull | usart.go:183-186 | a read that ends without error has filled the buffer; one the deadline ends is short of it unless the buffer is empty |
| Usart.ReadShortMeansDeadline | usart.go:156-159 | a read the deadline ends spent every poll it had |
| Usart.ReadIdles | usart.go:173-176 | a poll that finds nothing waiting is spent without reading |
| Usart.ReadWaiting | usart.go:149-190 | a read that finds exactly the buffer's worth waiting returns those bytes after two transfers |
| Usart.FlushAll | usart.go:207-222 | `Flush`: read and discard until nothing is waiting; `FlushEndsEmpty` and `FlushStopsOnEmpty` state how it ends, and `Usart.Flush` is proved against it |
| Usart.FlushEndsEmpty | usart.go:207-222 | a successful flush ends on a report of nothing waiting |
| Usart.FlushStopsOnEmpty | usart.go:212-214 | a flush stops at the first report of nothing waiting, after one query |
| Usart.Usart.constructor | usart.go:134 | a new line keeps its device and configuration and starts with the default timeout |
| Usart.Usart.NewUsart | usart.go:132-147 | opening sends `cmdInit` with the configuration (the defaults for nil) and then `cmdEnable`, and fails with the first transfer that fails |
| Usart.Usart.InWaiting | usart.go:113-120 | the result and new device state are those of `Waiting` |
| Usart.Usart.Write | usart.go:192-205 | the count, outcome and new device state are those of the chunked write from offset 0 |
| Usart.Usart.Poll | usart.go:160-182 | the poll's result and new device state are those of `PollOnce` |
| Usart.Usart.Read | usart.go:149-190 | the bytes received land at the front of `p`, the rest of `p` is untouched, and the count and outcome are those of `ReadLoop` |
| Usart.Usart.Receive | usart.go:149-190 | the bytes gathered and the outcome are those of `ReadLoop` |
| Usart.Usart.Turn | usart.go:155-186 | one turn agrees with `ReadStep` |
| Usart.Usart.Take | usart.go:170-185 | keeping one poll's bytes agrees with `Advance` |
| Usart.Usart.Place | usart.go:178 | copying `data` into `p` at `at` overwrites exactly those positions |
| Usart.Usart.Flush | usart.go:207-222 | the outcome and new device state are those of `FlushAll` |
| Usart.Usart.SetTimeout | usart.go:228-230 | the timeout becomes `t` and the configuration is unchanged |
| ExtMemory.AddressBlock | memory.go:32-35 | the access header is eight bytes: the length as a little-endian 32-bit word, then the address |
| ExtMemory.Masked | memory.go:148-151 | every byte is ANDed with the mask byte at the same position |
| ExtMemory.Verdict | memory.go:144-155 | without a mask a verified write passes exactly when the read-back equals the data; a mask of the wrong length fails; with a mask of the right length it passes exactly when the masked buffers agree |
| ExtMemory.ReadExchange | memory.go:40-73 | `doRead`: the address header on the request for the length, then the data by control or bulk transfer; `ReadTranscript`, `ShortBulkReadFails` and `ReadBack` state its transfers and failures |
| ExtMemory.ReadTranscript | memory.go:40-73 | a read sends the header on the control or bulk request chosen by the 48-byte threshold and then makes exactly one data transfer; success delivers `len` bytes |
| ExtMemory.ShortBulkReadFails | memory.go:63-65 | a bulk read that returns fewer bytes than asked is an error |
| ExtMemory.WriteExchange | memory.go:95-158 | `doWrite`: the header and short data by control, long data by bulk, then the optional masked read-back; `WriteWithoutReadBack`, `WriteWithReadBack` and `ShortBulkWriteFails` state its cases |
| ExtMemory.WriteWithoutReadBack | memory.go:100-135 | without validation a write is one header transfer, carrying the data below 48 bytes, plus one bulk transfer for longer data |
| ExtMemory.WriteWithReadBack | memory.go:137-156 | validation adds exactly a read of the same address and length after a write that got through, and the write passes exactly when the verdict does |
| ExtMemory.ShortBulkWriteFails | memory.go:132-134 | a bulk write that the device accepts only in part is an error whether or not validation is asked for |
| ExtMemory.HeaderExample | memory_test.go:27-54 | the header of a 3-byte access to 0x11223344 is `03 00 00 00 44 33 22 11` |
| ExtMemory.ReadExample | memory_test.go:27-54 | a 3-byte control read of 0x11223344 yields the bytes the device gives |
| ExtMemory.ReadBack | memory.go:40-73 | a 3-byte control read of 0x11223344 sends the header and then reads the answer |
| ExtMemory.ShortWriteAccepted | memory.go:95-158 | a 3-byte control write travels as one 11-byte control transfer of header plus data |
| ExtMemory.WriteExample | memory_test.go:56-78 | header and data go in one control transfer and there is no read-back |
| ExtMemory.VerifiedWriteExample | memory_test.go:80-112 | a matching read-back passes verification |
| ExtMemory.UnmaskedMismatchExample | memory_test.go:114-146 | a read-back that differs in one byte fails unmasked verification |
| ExtMemory.MaskedMatchExample | memory_test.go:148-181 | the same read-back passes when the mask clears the differing byte |
| ExtMemory.CompareMasked | memory.go:137-156 | masking both buffers in place and then comparing gives `Verdict` |
| ExtMemory.MaskInPlace | memory.go:148-151 | the buffer becomes the masked copy of its old contents |
| ExtMemory.Memory.constructor | memory.go:181-183 | the new memory accessor keeps its device |
| ExtMemory.Memory.DoRead | memory.go:40-73 | the result and new device state are those of `ReadExchange` |
| ExtMemory.Memory.Read | memory.go:75-90 | the result and new device state are those of `ReadExchange` for the size of the value read |
| ExtMemory.Memory.DoWrite | memory.go:95-158 | the outcome and new device state are those of `WriteExchange` |
| ExtMemory.Memory.Write | memory.go:160-179 | the outcome and new device state are those of `WriteExchange` on the encoded data |
| ExtMemory.SeqToArray | memory.go:138-143 | a fresh buffer holding a copy of the bytes |
| Blocks.BlockEnd | programmer/stm32f/programmer.go:325-329 | each block is non-empty, at most 64 bytes and ends inside the transfer, and every block but the last is exactly 64 bytes |
| Blocks.Overlay | programmer/stm32f/programmer.go:331 | reading into a slice of the buffer keeps the buffer's length |
| Blocks.OverlayParts | programmer/stm32f/programmer.go:331 | the bytes before and after the slice are kept and the slice holds the data read |
| Blocks.Place | programmer/xmega/programmer.go:219 | storing a block's bytes into the caller's buffer gives `Overlay` of the old buffer |
| Blocks.ReadBlocks | programmer/stm32f/programmer.go:323-339 | a chunked read keeps the length of the caller's buffer |
| Blocks.ReadBlocksStep | programmer/xmega/programmer.go:203-225 | a read from offset `n` is its first block followed by the read of the rest, or stops at that block when it fails |
| Blocks.ReadBlocksProgress | programmer/stm32f/programmer.go:325-338 | a read succeeds having covered every byte or fails a whole number of blocks short of the end, and the address advances by exactly the bytes covered |
| Blocks.ReadBlocksKeep | programmer/stm32f/programmer.go:323-339 | a read leaves the buffer as it was before its start and from where it stopped on |
| TraceCapture.Acquire | capture.go:93-128 | one pass of the capture loop as its verdict and its calls; `AcquireVerdict`, `AcquireOrder` and `AbortEndsCapture` state them, and `AcquireOnce` is proved against it |
| TraceCapture.Collect | capture.go:91-131 | the capture loop over the attempts, from the traces kept so far; `CollectCount` and `CollectTraces` state what a successful capture holds, and `NewCapture` is proved against it |
| TraceCapture.AcquireVerdict | capture.go:92-128 | one pass aborts on an ADC error or a failed plaintext, write or response, retries when the trigger times out or no samples come back, and otherwise keeps the trace |
| TraceCapture.AcquireOrder | capture.go:93-126 | a pass makes its calls in the fixed order error check, generate, arm, send, wait, read ciphertext, read samples, and stops at the first that aborts or retries |
| TraceCapture.CollectCount | capture.go:92-131 | a capture that succeeds holds exactly `numTraces` traces |
| TraceCapture.CollectTraces | capture.go:98-128 | every trace a capture adds carries the key and the plaintext, ciphertext and non-empty samples of the pass that kept it |
| TraceCapture.AbortEndsCapture | capture.go:93-120 | a pass that aborts ends the capture with its error, whatever attempts would follow |
| TraceCapture.AcquireOnce | capture.go:93-128 | one pass of the loop body agrees with `Acquire` |
| TraceCapture.NewCapture | capture.go:91-131 | the capture loop agrees with `Collect` from an empty capture |
| TraceCapture.RandGen | capture.go:42-50 | generation succeeds exactly when the entropy source delivers at least `numBytes` bytes, and then yields `numBytes` of them |
| TraceCapture.RowMajor | capture.go:189-199 | the matrix holds `cols` cells per trace |
| TraceCapture.RowMajorCell | capture.go:193-197 | the cell at row `i`, column `j` is sample `j` of trace `i`, at index `i * cols + j` |
| TraceCapture.SamplesMatrix | capture.go:189-199 | the result has one row per trace, as many columns as the first trace has samples, and a fresh buffer holding the row-major matrix |
| TraceCapture.CopyRow | capture.go:194-196 | the inner loop copies the first `cols` samples of one trace into the next row and leaves the earlier rows alone |
| TraceCapture.RowMajorPrefix | capture.go:193-197 | the first `n` rows fill exactly the first `n * cols` cells |
| SimpleSerial.HexEncode | simple_serial.go:35 | hexadecimal encoding produces two digits per byte |
| SimpleSerial.DigitValue | simple_serial.go:83 | a hexadecimal digit of either case has a value below 16 |
| SimpleSerial.HexDecode | simple_serial.go:83 | a successful decode yields one byte per two digits |
| SimpleSerial.DigitsOfByte | simple_serial.go:35 | the two digits of a byte decode back to its two nibbles, which rebuild the byte |
| SimpleSerial.HexRoundTrip | simple_serial.go:35 | decoding the hexadecimal encoding of any bytes gives them back |
| SimpleSerial.HexEncodeLowercase | simple_serial.go:35 | encoding produces only the digits `0`-`9` and `a`-`f` |
| SimpleSerial.HexDecodeAccepts | simple_serial.go:83 | decoding succeeds exactly on even-length strings of hexadecimal digits |
| SimpleSerial.Command | simple_serial.go:35-47 | a command line is the letter, twice as many digits as payload bytes and a newline |
| SimpleSerial.TrimNewline | simple_serial.go:82 | a trailing newline is removed and anything else is left as it is |
| SimpleSerial.ParseResponse | simple_serial.go:78-83 | the parse of a response line: `r`, then hexadecimal up to the trimmed newline; `ResponseRoundTrip` and `ResponseAccepts` state what it accepts and that it undoes the encoding |
| SimpleSerial.ResponseRoundTrip | simple_serial.go:73-84 | a well-formed `r` line parses to its payload |
| SimpleSerial.ResponseAccepts | simple_serial.go:79-83 | a response line is accepted exactly when it starts with `r` and the rest before the trimmed newline is valid hexadecimal |
| SimpleSerial.AwaitAck | simple_serial.go:54-64 | the acknowledgement passes exactly when a whole line arrives and starts with `z` |
| SimpleSerial.SendPlaintext | simple_serial.go:45-52 | the plaintext command is sent and no acknowledgement is read |
| SimpleSerial.ReadResponse | simple_serial.go:73-84 | a response reads exactly one line |
| SimpleSerial.Clear | simple_serial.go:104-116 | `flush`: the clear line, then discarding pending input; `ClearCalls` states its calls |
| SimpleSerial.ProbeVersion | simple_serial.go:86-102 | `checkVersion`: flush, `v`, a four-byte read, and a leading `z` required; `ProbeCalls`, `OpenPasses` and `OpenRejectsOldVersion` state its outcome |
| SimpleSerial.ClearCalls | simple_serial.go:104-116 | clearing writes the clear line and then flushes, stopping at the first failure |
| SimpleSerial.ProbeCalls | simple_serial.go:86-102 | the version check flushes, writes `v`, reads four bytes, stops at the first failure, and passes exactly when the first byte read is `z` |
| SimpleSerial.OpenLogPrefix | simple_serial.go:118-129 | opening makes a non-empty prefix of its five calls in order and keeps the timeout |
| SimpleSerial.OpenPasses | simple_serial.go:118-129 | when every call is answered well, opening succeeds after exactly its five calls |
| SimpleSerial.OpenNeedsAnswers | simple_serial.go:118-129 | opening succeeds only when every call is answered well |
| SimpleSerial.OpenRejectsOldVersion | simple_serial_test.go:27-49 | a version answer of four zero bytes makes opening fail with the unsupported-version error |
| SimpleSerial.SendKey | simple_serial.go:33-43 | `WriteKey`: the key command, then the acknowledgement; `SendKeyCalls` states when the key is acknowledged |
| SimpleSerial.SendKeyCalls | simple_serial.go:33-43 | a key is acknowledged exactly when the write succeeds and the next line starts with `z`; the line is read only after a successful write |
| SimpleSerial.ReadResponseRoundTrip | simple_serial.go:73-84 | a response line carrying `x` in hexadecimal reads back as `x` |
| SimpleSerial.ReadResponseRejects | simple_serial.go:79-81 | a line not starting with `r` is refused whatever follows |
| SimpleSerial.Protocol.constructor | simple_serial.go:121 | the protocol keeps its port |
| SimpleSerial.Protocol.WriteKey | simple_serial.go:33-43 | the outcome and new port state are those of `SendKey` |
| SimpleSerial.Protocol.WritePlaintext | simple_serial.go:45-52 | the outcome and new port state are those of `SendPlaintext` |
| SimpleSerial.Protocol.WaitForAck | simple_serial.go:54-64 | the outcome and new port state are those of `AwaitAck` |
| SimpleSerial.Protocol.Response | simple_serial.go:73-84 | the result and new port state are those of `ReadResponse` |
| SimpleSerial.Protocol.CheckVersion | simple_serial.go:86-102 | the outcome and new port state are those of `ProbeVersion` |
| SimpleSerial.Protocol.Flush | simple_serial.go:104-116 | the outcome and new port state are those of `Clear` |
| SimpleSerial.Protocol.NewSimpleSerial | simple_serial.go:118-129 | the protocol is returned over the same port exactly when `Open` passes, and the port state is `Open`'s |
| FpgaLoader.Dec | fpga.go:69 | decrementing a 64-bit `int` subtracts one except at the least value, which wraps to the greatest |
| FpgaLoader.StatusExchange | fpga.go:34-42 | the status read reports programmed exactly when the four-byte status word has bit 0 set, and not programmed exactly when it has bit 0 clear |
| FpgaLoader.Polls | fpga.go:69-78 | the poll loop logs one four-byte status read per iteration |
| FpgaLoader.Writes | fpga.go:64 | one bulk write per chunk of the copy |
| FpgaLoader.PollLoop | fpga.go:68-78 | the DONE poll loop as written, counting `attempts` down from 0 in 64-bit arithmetic; `PollStopsAtFirstReady`, `PollStopsAtError` and `PollNeverGivesUp` state when it stops |
| FpgaLoader.PollBounded | fpga.go:68-78 | the loop as intended, with `attempts++`; `PollBoundedGivesUp` and `PollBoundedReads` bound it by five status reads |
| FpgaLoader.WriteChunks | fpga.go:64 | the bulk writes of a copy, stopping at the first failed or short write; the `WriteChunks...` lemmas state its outcome, log and use of replies |
| FpgaLoader.CopyExchange | fpga.go:64 | `io.Copy` of the bitstream as 32 KiB writes; `CopySendsBitstream` states what reaches the device, and `Copy` is proved against it |
| FpgaLoader.PrepareExchange | fpga.go:53-66 | `Program` up to the poll: 0xA0, 0xA1, then the copy, each failure ending it; `ProgramSequence` and `PrepareEmpty` state its transcript |
| FpgaLoader.FinishExchange | fpga.go:80-88 | `Program` after the poll: a read error returned as is, otherwise 0xA2 and then the DONE verdict; `FinishRules` states its cases |
| FpgaLoader.ProgramExchange | fpga.go:48-89 | `Program` as written; `ProgramWaitsForDone` and `SeventhPollExample` state that it waits for DONE however long it takes |
| FpgaLoader.ProgramBoundedExchange | fpga.go:48-89 | `Program` with the five-attempt loop; `SeventhPollExample` shows it giving up where the code as written passes |
| FpgaLoader.OpenExchange | fpga.go:101-117 | `NewFpga` as written: one status read, and `Program` only when DONE is clear; `OpenRules` states its cases |
| FpgaLoader.OpenBoundedExchange | fpga.go:101-117 | `NewFpga` over the five-attempt `Program`; `OpenRules` states that it differs from `OpenExchange` only when DONE is clear on opening |
| FpgaLoader.WriteChunksTranscript | fpga.go:64-66 | the bulk writes of a copy succeed exactly when the device accepts every chunk in full, and then appear in order, one reply each |
| FpgaLoader.WriteChunksAccepted | fpga.go:64-66 | the copy's writes pass exactly when every chunk is accepted in full |
| FpgaLoader.WriteChunksLogged | fpga.go:64-66 | accepted writes log every chunk and consume one reply each |
| FpgaLoader.WriteChunksFirst | fpga.go:64 | after a fully accepted first chunk the copy goes on with the rest |
| FpgaLoader.WriteChunksLog | fpga.go:64 | accepted writes add exactly one bulk write per chunk to the log |
| FpgaLoader.WriteChunksScript | fpga.go:64 | accepted writes consume exactly one reply per chunk |
| FpgaLoader.CopySendsBitstream | fpga.go:63-66 | a successful download sends the whole bitstream in order, in chunks of at most 32 KiB |
| FpgaLoader.PollStopsAtFirstReady | fpga.go:69-78 | the poll loop reads the status once per not-ready reply and stops at the first reply reporting DONE |
| FpgaLoader.PollStopsAtError | fpga.go:70-73 | a failed status read ends the poll loop with its error after the not-ready replies before it |
| FpgaLoader.PollNeverGivesUp | fpga.go:69 | the loop as written never ends without DONE unless a status read fails |
| FpgaLoader.PollBoundedGivesUp | fpga.go:69-78 | the loop with `attempts++` gives up after exactly five not-ready replies |
| FpgaLoader.PollBoundedReads | fpga.go:69-78 | the loop with `attempts++` makes at most five status reads, each consuming one reply |
| FpgaLoader.ProgramSequence | fpga.go:48-78 | programming sends 0xA0, 0xA1 and the bitstream in that order, a failure there ends it before polling, and otherwise the poll loop follows |
| FpgaLoader.FinishRules | fpga.go:80-88 | a failed status read returns its error without 0xA2; otherwise 0xA2 goes out, and programming passes exactly when it is accepted and DONE was seen |
| FpgaLoader.OpenRules | fpga.go:101-117 | opening programs the board exactly when the first status read reports DONE clear, with `Program` as written; a failed read or DONE already set ends it after that one read, and the five-attempt opener differs only in the `Program` it runs |
| FpgaLoader.PrepareEmpty | fpga.go:53-66 | with an empty bitstream the preparation sends only the two commands |
| FpgaLoader.ProgramWaitsForDone | fpga.go:48-89 | however many not-ready replies precede DONE, programming as written waits for it and passes once 0xA2 is accepted |
| FpgaLoader.SeventhPollExample | fpga.go:69 | a board reporting DONE only on its seventh status read is programmed by the code as written but refused by the five-attempt loop |
| FpgaLoader.SixthPollOpens | fpga.go:68-77 | a board with DONE clear when opened that sets DONE on its sixth poll is opened by `NewFpga` as written, and the five-attempt opener fails on it |
| FpgaLoader.Copy | fpga.go:64 | the download agrees with `CopyExchange` |
| FpgaLoader.Fpga.constructor | fpga.go:104 | the handle and its memory accessor share the device |
| FpgaLoader.Fpga.IsProgrammed | fpga.go:34-42 | the result and new device state are those of `StatusExchange` |
| FpgaLoader.Fpga.CtrlProgram | fpga.go:44-46 | the outcome and new device state are those of one `ReqFpgaProgram` transfer |
| FpgaLoader.Fpga.Prepare | fpga.go:53-66 | the outcome and new device state are those of `PrepareExchange` |
| FpgaLoader.Fpga.Finish | fpga.go:80-88 | the outcome and new device state are those of `FinishExchange` |
| FpgaLoader.Fpga.Program | fpga.go:48-89 | the outcome and new device state are those of `ProgramExchange`, with the decrementing counter |
| FpgaLoader.Fpga.ProgramBounded | fpga.go:48-89 | the outcome and new device state are those of `ProgramBoundedExchange` |
| FpgaLoader.NewFpga | fpga.go:101-117 | the outcome and new device state are those of `OpenExchange`, and success returns a fresh handle on the same device |
| FpgaLoader.NewFpgaBounded | fpga.go:101-117 | the outcome and new device state are those of `OpenBoundedExchange`, and success returns a fresh handle on the same device |
| OpenAdc.Zeros | adc.go:745 | a zero value of `n` bytes |
| OpenAdc.Fetch | adc.go:746 | an unguarded register read returns a value of the requested width, logs the access, and leaves `err` clear exactly when the register is readable |
| OpenAdc.Load | adc.go:741-750 | a guarded register read returns a value of the requested width |
| OpenAdc.Put | adc.go:761-766 | the unguarded register write; `PutPasses` states that a store to a working register with a well-formed mask leaves no error and the data in the register |
| OpenAdc.Store | adc.go:761-766 | the guarded register write; `StickySetters` states that with an error recorded it makes no access, and `SetSettingsStores` that on a working register it stores the bytes |
| OpenAdc.Status | adc.go:741-750 | the status byte; `StatusTakesReading` states that each read takes the next status reading the hardware has in store |
| OpenAdc.Settings | adc.go:752-759 | the settings byte; `SettingsSteady` states that a steady register reads as the byte it holds |
| OpenAdc.SetSettings | adc.go:761-766 | the settings byte written; `SetSettingsStores` and `SetSettingsReadsBack` state that it is stored and read back, no other register changing |
| OpenAdc.GainMode | adc.go:167-173 | the gain-mode bit of the settings byte; `AdcFields.WithGainMode` and `AdcFields.GainModeFixpoint` state that it reads back what `SetGainMode` stores |
| OpenAdc.SetGainMode | adc.go:175-181 | the settings byte with the gain-mode bit replaced; `AdcFields.WithGainMode` states that only that bit changes |
| OpenAdc.Gain | adc.go:183-192 | the gain register; `GainRoundTrip` is its partner |
| OpenAdc.SetGain | adc.go:194-203 | a gain above 78 is an error and nothing is written; `GainRoundTrip` and `GainOverLimit` state both cases |
| OpenAdc.TriggerMode | adc.go:212-224 | the trigger mode from bits 0x04 and 0x20 of the settings; `TriggerModeRoundTrip` is its partner |
| OpenAdc.SetTriggerMode | adc.go:226-240 | the settings byte with the trigger-mode bits replaced; `TriggerModeRoundTrip` states that only those bits change |
| OpenAdc.NumSamples | adc.go:768-777 | the sample-count word; `SetNumSamplesReadsBack` and `TotalSamplesRoundTrip` state that it reads back what was set |
| OpenAdc.SetNumSamples | adc.go:779-784 | the sample count written validated; `SetNumSamplesReadsBack` states the new register and its read-back |
| OpenAdc.SetTotalSamples | adc.go:296-302 | more than the hardware limit is an error that replaces any earlier one; `TotalSamplesRoundTrip` and `TotalSamplesOverLimit` state both cases |
| OpenAdc.Decimate | adc.go:786-795 | the downsample factor; `DecimateRoundTrip` is its partner |
| OpenAdc.SetDecimate | adc.go:797-803 | the factor stored, 0 as 0xFFFF; `DecimateRoundTrip` and `AdcFields.DecimateRaw` state the read-back |
| OpenAdc.AdvClock | adc.go:805-814 | the four advanced-clock bytes; `AdvClockSteady` and `AdvClockTakesReading` state what a read returns on a steady register and on one the hardware has changed |
| OpenAdc.SetAdvClock | adc.go:816-821 | the advanced clock stored through the read mask; `SetAdvClockReadsBack` states its read-back |
| OpenAdc.AdcClockSource | adc.go:325-351 | the ADC clock source from bits 0-2 of `SrcAndStatus`; `ClockSourceRoundTrip` is its partner |
| OpenAdc.SetAdcClockSource | adc.go:353-391 | a valid source stored with validation and the ADC reset, an invalid one an error; `ClockSourceRoundTrip`, `SetAdcClockSourceSteps` and `InvalidClockSourceWritesNothing` state the cases |
| OpenAdc.ResetAdc | adc.go:890-899 | the ADC reset pulse on bit 4; `ResetAdcStores` and `ResetAdcKeepsSource` state that only that bit is pulsed |
| OpenAdc.ReloadClkGen | adc.go:867-876 | the CLKGEN load pulse; `ReloadClkGenStores` states that only the load flag is pulsed, and `ReloadTakesReading` that the readings after the one it takes stay in store |
| OpenAdc.ResetClkGen | adc.go:878-888 | the CLKGEN reset pulse and reload; `ResetClkGenKeepsFlags` states that only the reset and load flags change |
| OpenAdc.SetClkGenMul | adc.go:851-865 | a multiplier below 2 is an error; otherwise `uint8(mul) - 1` is stored with a load pulse; `SetClkGenMulStores`, `ClkGenMulRoundTrip` and `ClkGenFactorsTooSmall` state both cases |
| OpenAdc.SetClkGenDiv | adc.go:923-937 | a divider of 0 is an error; otherwise `uint8(div) - 1` is stored with a load pulse; `SetClkGenDivStores`, `ClkGenDivRoundTrip` and `ClkGenFactorsTooSmall` state both cases |
| OpenAdc.ClkGenMulFrom | adc.go:829-849 | the two tries of `clkGenMul` from try `tries`; `ClkGenMulSteady`, `ClkGenMulSecondTry` and `ClkGenMulNotLocked` state its three outcomes |
| OpenAdc.ClkGenMul | adc.go:829-849 | the multiplier read in up to two tries; `ClkGenMulRoundTrip`, `ClkGenMulSecondTry` and `ClkGenMulNotLocked` state what it reads |
| OpenAdc.SysFreq | adc.go:149-158 | the system-frequency word; `InputFreqReads` states that it is the CLKGEN input when bit 3 of `SrcAndStatus` is clear |
| OpenAdc.ClkGenInputSource | adc.go:468-474 | bit 3 of `SrcAndStatus`; `ClkGenInputRoundTrip` is its partner |
| OpenAdc.SetExtClockFreq | adc.go:496-501 | sets the external clock frequency without register access; `InputFreqReads` states that it is the CLKGEN input when bit 3 of `SrcAndStatus` is set |
| OpenAdc.InputFreq | adc.go:523-529 | the CLKGEN input frequency; `InputFreqReads` states that it is the external clock or the system-frequency word, as bit 3 says, and that reading it changes only the log |
| OpenAdc.SetClkGenOutputFreq | adc.go:519-535 | the searched multiplier and divider, then both resets; `SetClkGenOutputFreqStores`, `SetClkGenOutputFreqRefuses`, `ClkGenOutputFreqReadsBack` and `SlowClockInputFails` state what it stores and when it fails |
| OpenAdc.TargetClkOut | adc.go:1145-1155 | bits 5-6 of the external-clock byte; `AdcFields.ClkOutOf` bounds it and `Hs2RoundTrip` reads it back |
| OpenAdc.SetTargetClkOut | adc.go:1157-1168 | bits 5-6 replaced and written back; `AdcFields.WithClkOut` states that only those bits change |
| OpenAdc.Hs2 | adc.go:630-642 | the HS2 mode from the clock-out field, an error on an unknown field; `Hs2RoundTrip` and `AdcFields.Hs2Of` state both cases |
| OpenAdc.SetHs2 | adc.go:643-655 | the clock-out field for the mode; `Hs2RoundTrip` is its partner |
| OpenAdc.SpecialGpio | adc.go:1038-1063 | a special pin's mode from IO-route byte 6; `SpecialGpioRoundTrip` is its partner |
| OpenAdc.SetSpecialGpio | adc.go:1065-1095 | byte 6 changed and the eight bytes written back; `SetSpecialGpioStores` and `SpecialGpioRoundTrip` state the new register |
| OpenAdc.SetArmOn | adc.go:660-662 | the arm bit set; `SetArmOnSetsBit` states that it is set, every other settings bit kept, and no other register changed |
| OpenAdc.SetArmOff | adc.go:664-666 | the arm bit cleared; `SetArmOffClearsBit` states that it is cleared and every other settings bit kept |
| OpenAdc.SetTriggerNow | adc.go:1170-1177 | the trigger-now bit pulsed; `SetTriggerNowPulses` states its two stores and that the settings end with the bit clear |
| OpenAdc.Triggered | adc.go:684-686 | the status shows the trigger: the arm bit dropped and the FIFO not empty; `WaitSeesTriggerAtPoll` uses it as the stopping condition |
| OpenAdc.WaitForTrigger | adc.go:668-696 | the poll and the final disarm; `WaitForTriggerDisarms` states that after the trigger is seen the settings are written back with the arm bit cleared |
| OpenAdc.ProcessTraceData | adc.go:1181-1245 | the decoded samples and the error; `ProcessTraceDataError` states when the error is set or cleared |
| OpenAdc.WantedCount | adc.go:710-714 | the wanted byte count on the sample count as a number; `WantedCountRule` states its value |
| OpenAdc.TraceData | adc.go:698-736 | the pending count, the data read and the decoded samples cut to the sample count; the `TraceData...` lemmas state its cases |
| OpenAdc.SetResetOn | adc.go:1247-1255 | the reset bit set unvalidated, then the sample limit lowered; `SetResetOnLimit` and `ResetOnAfterError` state the new limit with and without an error |
| OpenAdc.LowerSampleLimit | adc.go:1252-1254 | the sample limit set to the count minus 45, in `uint32`, and written back; `LowerLimitStores` states that it reads back as the sample count |
| OpenAdc.SetResetOff | adc.go:1257-1260 | the reset bit cleared, validated; `SetResetOffClears` states that every other settings bit is kept |
| OpenAdc.ClkGenDivFrom | adc.go:907-921 | the divider decoded from an advanced-clock value is never zero |
| OpenAdc.ClkGenDiv | adc.go:907-921 | the CLKGEN divider read is never zero; `ClkGenDivRoundTrip` states that a divider from 1 to 256 set while the DCM reports lock reads back, `ClkGenDivSecondTry` that lock seen only on the third reading is read on the second try, and `ClkGenDivNotLocked` that without lock it reports 1 and the not-locked error |
| OpenAdc.Version | adc.go:134-147 | the register version, board type and revision; `StickyGetters` gives the unknown version after an error |
| OpenAdc.TriggerOffset | adc.go:242-251 | the 32-bit trigger offset; `TriggerOffsetRoundTrip` states that it reads back what `SetTriggerOffset` wrote |
| OpenAdc.SetTriggerOffset | adc.go:253-258 | the offset written as four little-endian bytes; `TriggerOffsetRoundTrip` is its partner |
| OpenAdc.PreTriggerSamples | adc.go:260-275 | the presample register, times three on a CW-Lite or CW1200 in 32-bit arithmetic; `PreTriggerSamplesTripled` states the read-back |
| OpenAdc.SetPreTriggerSamples | adc.go:277-290 | the count written as given on a CW-Lite or CW1200, otherwise an error; `PreTriggerSamplesTripled` and `PreTriggerSamplesUnreliable` state both cases |
| OpenAdc.ActiveCount | adc.go:311-320 | the 32-bit active-trigger count; `StickyGetters` gives 0 after an error |
| OpenAdc.ScaleFreq | adc.go:516 | the input frequency times the multiplier over the divider, in 32-bit arithmetic |
| OpenAdc.ClkGenOutputFreq | adc.go:503-517 | the CLKGEN output frequency; `ClkGenOutputFreqRule` states that with the DCM locked it is the input frequency times the multiplier over the divider the register holds, and `ClkGenOutputFreqReadsBack` that after `SetClkGenOutputFreq` it is the input times the searched pair |
| OpenAdc.FreqCounterSource | adc.go:442-448 | bit 3 of the CLKGEN flags as the frequency-counter source; `FreqCounterRoundTrip` is its partner |
| OpenAdc.SetFreqCounterSource | adc.go:450-466 | the flag set with validation, then the CLKGEN and ADC resets; `FreqCounterRoundTrip` states that the source read back is the one set |
| OpenAdc.SetClkGenInputSource | adc.go:476-490 | bit 3 of `SrcAndStatus` set with validation; `ClkGenInputRoundTrip` states that the source read back is the one set |
| OpenAdc.ClkGenDcmLocked | adc.go:537-539 | bit 5 of `SrcAndStatus`; `StickyGetters` gives false after an error |
| OpenAdc.DcmLocked | adc.go:420-422 | bit 6 of `SrcAndStatus`; `StickyGetters` gives false after an error |
| OpenAdc.TriggerPinState | adc.go:208-210 | the external-trigger bit of the status register; `StickyGetters` gives false after an error |
| OpenAdc.TriggerTargetIoPins | adc.go:546-568 | the trigger pins whose bits are set; `TriggerPinRoundTrip` is its partner |
| OpenAdc.SetTriggerTargetIoPin | adc.go:570-593 | one pin's bit in mode OR, and an error for any other pin value; `TriggerPinRoundTrip` and `InvalidTriggerPinWritesNothing` state both cases |
| OpenAdc.Tio | adc.go:968-984 | the IO-route byte of a pin without its GPIO level bit, or an error for an unknown mode |
| OpenAdc.SetTio | adc.go:986-996 | the eight IO-route bytes written back with one replaced; `SetTioStores` states the new register |
| OpenAdc.Gpio | adc.go:998-1014 | a pin's GPIO state from its route byte |
| OpenAdc.SetGpio | adc.go:1016-1036 | a pin's GPIO level bit, an error when the pin is not routed to GPIO; `SetGpioStores` and `SetGpioNotRouted` state both cases |
| OpenAdc.TargetIo | adc.go:1097-1123 | a target IO pin's mode from its route byte; `TargetIoRoundTrip` and `TargetIoNeverHighZ` state what it reports |
| OpenAdc.SetTargetIo | adc.go:1125-1143 | a target IO pin set to a serial line or a GPIO level, other modes an error; `SetTargetIoStores`, `TargetIoRoundTrip` and `SetTargetIoUnsupported` state the cases |
| OpenAdc.RefreshParams | adc.go:1262-1276 | every setting read and written back in the source's order; `RefreshParamsKeeps`, `RefreshParamsKeepsClock`, `RefreshParamsTriplesPresamples` and `RefreshParamsRetunes` state what a refresh of a healthy controller leaves, and `RefreshAfterError` that it changes nothing after an error |
| OpenAdc.DefaultSetup | adc.go:1278-1292 | the CW-Lite defaults, applied only on a CW-Lite; `DefaultSetupSettings`, `DefaultSetupClock` and `DefaultSetupRoutes` state the gain, samples, offset, trigger mode, clock and routes it leaves, and `DefaultSetupAfterError` that it changes nothing after an error |
| OpenAdc.Setup | adc.go:1294-1301 | `NewAdc`'s steps: reset on, reset off, refresh, defaults; `AdcOpen.SetupSettings`, `AdcOpen.SetupClock` and `AdcOpen.SetupRoutes` state the controller a healthy CW-Lite opens into, and `NewAdcFailsOnSettings` is one of its failures |
| OpenAdc.PollTrigger | adc.go:674-691 | the wait loop's status polls before the timer fires, then the forced trigger; `WaitSeesTriggerAtPoll`, `WaitTimesOutWithoutTrigger`, `WaitStopsWhenTriggered` and `WaitTimesOutAfterError` state how it ends |
| OpenAdc.WantedBytes | adc.go:709-714 | the wanted byte count in 32-bit arithmetic; `WantedBytesRule`, `WantedCountRule` and `WantedBytesWraps` state its value with and without wrap-around |
| OpenAdc.ReadLength | adc.go:709-717 | the wanted bytes capped at what is pending; `ReadLengthRule` states its value |
| AdcBus.Fit | memory.go:75-90 | a register read into a `len`-byte value yields exactly `len` bytes: the stored bytes, cut or padded with zeros |
| AdcBus.ReadReg | memory.go:75-90 | a read is logged and first takes the reading the hardware has in store at the address, if any; it succeeds exactly when that reading (or, with none left, the register) does not fail, and yields the register's new value fitted to the width |
| AdcBus.WriteReg | memory.go:160-179 | a write is logged, stores the data unless the register is faulty, leaves the readings in store alone, and passes exactly when the register is not faulty and any mask has the data's length |
| AdcBus.ReadAfterWrite | memory.go:75-179 | a register that neither fails nor changes on its own reads back what was last written to it, and the reads of other registers are unaffected |
| AdcBus.AdvanceEffect | memory.go:75-90 | the change the hardware makes before a read takes the first reading in store at that address: a new value replaces the contents, a failed reading keeps them, and no other address changes |
| AdcBus.ReadSteady | memory.go:75-90 | a register with no readings in store that does not fail reads as what it holds, and the read changes only the log |
| AdcBus.ReadSeesChange | memory.go:75-90 | a register whose next reading is a new value returns that value whatever was stored, holds it afterwards, and keeps the later readings in store |
| AdcBus.RegisterFile.constructor | memory.go:181-183 | a fresh register file has the given contents, faults and readings in store, and an empty log |
| AdcBus.RegisterFile.Read | memory.go:75-90 | the result and new state are those of `ReadReg` |
| AdcBus.RegisterFile.Write | memory.go:160-179 | the outcome and new state are those of `WriteReg` |
| AdcClock.MaxDiv | adc.go:947-953 | below 52 MHz the divider bound is the input frequency over 500 kHz, and from 52 MHz on it is 256 |
| AdcClock.ConsiderStep | adc.go:957-961 | one loop body keeps the best pair so far, one candidate further on |
| AdcClock.NextMultiplier | adc.go:955-956 | past the last divider the candidates already scanned are those before the next multiplier |
| AdcClock.ScanDivsBest | adc.go:956-962 | the inner loop leaves the best pair over every divider of the multiplier |
| AdcClock.ScanMulsBest | adc.go:955-963 | the outer loop leaves the best pair over every multiplier from 2 to 256 |
| AdcClock.ClkGenMulDivOptimal | adc.go:940-966 | the search returns (0, 0) exactly when no divider is allowed; otherwise it returns the first candidate of least error in the search order |
| AdcClock.SlowInputGivesZero | adc.go:949-956 | below 1 MHz of input no divider is allowed and the search returns (0, 0) |
| AdcClock.UnitRatio | adc.go:940-966 | asking for the input frequency itself, between 1.5 MHz and 52 MHz, gives multiplier 2 and divider 2 |
| AdcClock.CalcClkGenMulDiv | adc.go:940-966 | the nested loops return `ClkGenMulDiv` |
| AdcClock.ScanDividers | adc.go:956-962 | the inner loop agrees with `ScanDivs` |
| AdcDriver.Adc.constructor | adc.go:1295 | a new controller has no error, no sample limit yet and a 10 MHz external clock, over the given registers |
| AdcDriver.Adc.Error | adc.go:127-129 | returns the recorded error |
| AdcDriver.Adc.Fetch | adc.go:746 | an unguarded register read; its value and new state are those of `OpenAdc.Fetch` |
| AdcDriver.Adc.Load | adc.go:741-750 | a guarded register read; its value and new state are those of `OpenAdc.Load` |
| AdcDriver.Adc.Put | adc.go:765 | an unguarded register write; the new state is that of `OpenAdc.Put` |
| AdcDriver.Adc.Store | adc.go:761-766 | a guarded register write; the new state is that of `OpenAdc.Store` |
| AdcDriver.Adc.Status | adc.go:741-750 | the status byte and new state are those of `OpenAdc.Status` |
| AdcDriver.Adc.Settings | adc.go:752-759 | the settings byte and new state are those of `OpenAdc.Settings` |
| AdcDriver.Adc.SetSettings | adc.go:761-766 | the new state is that of `OpenAdc.SetSettings` |
| AdcDriver.Adc.GainMode | adc.go:167-173 | the gain mode and new state are those of `OpenAdc.GainMode` |
| AdcDriver.Adc.SetGainMode | adc.go:175-181 | the new state is that of `OpenAdc.SetGainMode` |
| AdcDriver.Adc.Gain | adc.go:183-192 | the gain and new state are those of `OpenAdc.Gain` |
| AdcDriver.Adc.SetGain | adc.go:194-203 | the new state is that of `OpenAdc.SetGain`, which refuses a gain above 78 |
| AdcDriver.Adc.TriggerMode | adc.go:212-224 | the trigger mode and new state are those of `OpenAdc.TriggerMode` |
| AdcDriver.Adc.SetTriggerMode | adc.go:226-240 | the new state is that of `OpenAdc.SetTriggerMode` |
| AdcDriver.Adc.NumSamples | adc.go:768-777 | the sample count and new state are those of `OpenAdc.NumSamples` |
| AdcDriver.Adc.SetNumSamples | adc.go:779-784 | the new state is that of `OpenAdc.SetNumSamples` |
| AdcDriver.Adc.SetTotalSamples | adc.go:296-302 | the new state is that of `OpenAdc.SetTotalSamples`, which refuses more than the hardware limit |
| AdcDriver.Adc.Decimate | adc.go:786-795 | the downsample factor and new state are those of `OpenAdc.Decimate` |
| AdcDriver.Adc.SetDecimate | adc.go:797-803 | the new state is that of `OpenAdc.SetDecimate` |
| AdcDriver.Adc.AdvClock | adc.go:805-814 | the advanced-clock value and new state are those of `OpenAdc.AdvClock` |
| AdcDriver.Adc.SetAdvClock | adc.go:816-821 | the new state is that of `OpenAdc.SetAdvClock` |
| AdcDriver.Adc.AdcClockSource | adc.go:325-351 | the clock source and new state are those of `OpenAdc.AdcClockSource` |
| AdcDriver.Adc.SetAdcClockSource | adc.go:353-391 | the new state is that of `OpenAdc.SetAdcClockSource` |
| AdcDriver.Adc.ResetAdc | adc.go:890-899 | the new state is that of `OpenAdc.ResetAdc` |
| AdcDriver.Adc.ReloadClkGen | adc.go:867-876 | the new state is that of `OpenAdc.ReloadClkGen` |
| AdcDriver.Adc.ResetClkGen | adc.go:878-888 | the new state is that of `OpenAdc.ResetClkGen` |
| AdcDriver.Adc.SetClkGenMul | adc.go:851-865 | the new state is that of `OpenAdc.SetClkGenMul`, which refuses a multiplier below 2 |
| AdcDriver.Adc.SetClkGenDiv | adc.go:923-937 | the new state is that of `OpenAdc.SetClkGenDiv`; `SetClkGenDivStores`, `ClkGenDivRoundTrip` and `ClkGenFactorsTooSmall` state what it stores and when it refuses |
| AdcDriver.Adc.ClkGenMul | adc.go:829-849 | the two-try read of a locked multiplier agrees with `OpenAdc.ClkGenMul` |
| AdcDriver.Adc.ClkGenDiv | adc.go:907-921 | the two-try read of the divider agrees with `OpenAdc.ClkGenDiv`; `ClkGenDivRoundTrip`, `ClkGenDivSecondTry` and `ClkGenDivNotLocked` state what it reads |
| AdcDriver.Adc.SysFreq | adc.go:149-158 | the system frequency and new state are those of `OpenAdc.SysFreq` |
| AdcDriver.Adc.ClkGenInputSource | adc.go:468-474 | the CLKGEN input source and new state are those of `OpenAdc.ClkGenInputSource` |
| AdcDriver.Adc.SetExtClockFreq | adc.go:496-501 | the new state is that of `OpenAdc.SetExtClockFreq` |
| AdcDriver.Adc.InputFreq | adc.go:523-529 | the CLKGEN input frequency and new state are those of `OpenAdc.InputFreq` |
| AdcDriver.Adc.SetClkGenOutputFreq | adc.go:519-535 | the searched multiplier and divider and the resets give the state of `OpenAdc.SetClkGenOutputFreq`; `SetClkGenOutputFreqStores`, `SetClkGenOutputFreqRefuses` and `ClkGenOutputFreqReadsBack` state what it stores and reads back |
| AdcDriver.Adc.TargetClkOut | adc.go:1145-1155 | the clock-out field and new state are those of `OpenAdc.TargetClkOut` |
| AdcDriver.Adc.SetTargetClkOut | adc.go:1157-1168 | the new state is that of `OpenAdc.SetTargetClkOut` |
| AdcDriver.Adc.Hs2 | adc.go:630-642 | the HS2 mode and new state are those of `OpenAdc.Hs2` |
| AdcDriver.Adc.SetHs2 | adc.go:643-655 | the new state is that of `OpenAdc.SetHs2` |
| AdcDriver.Adc.SpecialGpio | adc.go:1038-1063 | the pin mode and new state are those of `OpenAdc.SpecialGpio` |
| AdcDriver.Adc.SetSpecialGpio | adc.go:1065-1095 | the new state is that of `OpenAdc.SetSpecialGpio` |
| AdcDriver.Adc.SetArmOn | adc.go:660-662 | the new state is that of `OpenAdc.SetArmOn`; `SetArmOnSetsBit` states that the arm bit is set and every other settings bit kept |
| AdcDriver.Adc.SetArmOff | adc.go:664-666 | the new state is that of `OpenAdc.SetArmOff`; `SetArmOffClearsBit` states that the arm bit is cleared and every other settings bit kept |
| AdcDriver.Adc.SetTriggerNow | adc.go:1170-1177 | the new state is that of `OpenAdc.SetTriggerNow`; `SetTriggerNowPulses` states the pulse and the settings it leaves |
| AdcDriver.Adc.WaitForTrigger | adc.go:668-696 | the status polling, the forced trigger on timeout and the final disarm agree with `OpenAdc.WaitForTrigger`; `WaitSeesTriggerAtPoll`, `WaitTimesOutWithoutTrigger` and `WaitForTriggerDisarms` state how it ends |
| AdcDriver.Adc.ProcessTraceData | adc.go:1181-1245 | the decoded samples and new state are those of `OpenAdc.ProcessTraceData` |
| AdcDriver.Adc.TraceData | adc.go:698-736 | the samples and new state are those of `OpenAdc.TraceData` |
| AdcDriver.Adc.SetResetOn | adc.go:1247-1255 | the new state is that of `OpenAdc.SetResetOn`; `SetResetOnLimit` states the lowered sample limit and the settings bit |
| AdcDriver.Adc.SetResetOff | adc.go:1257-1260 | the new state is that of `OpenAdc.SetResetOff`; `SetResetOffClears` states that only the reset bit is cleared |
| AdcDriver.Adc.Version | adc.go:134-147 | the version and new state are those of `OpenAdc.Version` |
| AdcDriver.Adc.TriggerOffset | adc.go:242-251 | the offset and new state are those of `OpenAdc.TriggerOffset` |
| AdcDriver.Adc.SetTriggerOffset | adc.go:253-258 | the new state is that of `OpenAdc.SetTriggerOffset` |
| AdcDriver.Adc.PreTriggerSamples | adc.go:260-275 | the count and new state are those of `OpenAdc.PreTriggerSamples` |
| AdcDriver.Adc.SetPreTriggerSamples | adc.go:277-290 | the new state is that of `OpenAdc.SetPreTriggerSamples` |
| AdcDriver.Adc.ActiveCount | adc.go:311-320 | the count and new state are those of `OpenAdc.ActiveCount` |
| AdcDriver.Adc.ClkGenOutputFreq | adc.go:503-517 | the frequency and new state are those of `OpenAdc.ClkGenOutputFreq`; `ClkGenOutputFreqRule` states its value |
| AdcDriver.Adc.FreqCounterSource | adc.go:442-448 | the source and new state are those of `OpenAdc.FreqCounterSource` |
| AdcDriver.Adc.SetFreqCounterSource | adc.go:450-466 | the new state is that of `OpenAdc.SetFreqCounterSource` |
| AdcDriver.Adc.SetClkGenInputSource | adc.go:476-490 | the new state is that of `OpenAdc.SetClkGenInputSource` |
| AdcDriver.Adc.ClkGenDcmLocked | adc.go:537-539 | the lock bit and new state are those of `OpenAdc.ClkGenDcmLocked` |
| AdcDriver.Adc.DcmLocked | adc.go:420-422 | the lock bit and new state are those of `OpenAdc.DcmLocked` |
| AdcDriver.Adc.TriggerPinState | adc.go:208-210 | the pin level and new state are those of `OpenAdc.TriggerPinState` |
| AdcDriver.Adc.MaxSamples | adc.go:160-162 | returns the sample limit found at reset |
| AdcDriver.Adc.TriggerTargetIoPins | adc.go:546-568 | the pins and new state are those of `OpenAdc.TriggerTargetIoPins` |
| AdcDriver.Adc.SetTriggerTargetIoPin | adc.go:570-593 | the new state is that of `OpenAdc.SetTriggerTargetIoPin` |
| AdcDriver.Adc.Tio | adc.go:968-984 | the route mode and new state are those of `OpenAdc.Tio` |
| AdcDriver.Adc.SetTio | adc.go:986-996 | the new state is that of `OpenAdc.SetTio` |
| AdcDriver.Adc.Gpio | adc.go:998-1014 | the GPIO state and new state are those of `OpenAdc.Gpio` |
| AdcDriver.Adc.SetGpio | adc.go:1016-1036 | the new state is that of `OpenAdc.SetGpio` |
| AdcDriver.Adc.TargetIo | adc.go:1097-1123 | the mode and new state are those of `OpenAdc.TargetIo` |
| AdcDriver.Adc.SetTargetIo | adc.go:1125-1143 | the new state is that of `OpenAdc.SetTargetIo` |
| AdcDriver.Adc.TargetIo1 | adc.go:595-597 | the mode and new state are those of `OpenAdc.TargetIo` on pin 0 |
| AdcDriver.Adc.SetTargetIo1 | adc.go:598-600 | the new state is that of `OpenAdc.SetTargetIo` on pin 0 |
| AdcDriver.Adc.TargetIo2 | adc.go:602-604 | the mode and new state are those of `OpenAdc.TargetIo` on pin 1 |
| AdcDriver.Adc.SetTargetIo2 | adc.go:605-607 | the new state is that of `OpenAdc.SetTargetIo` on pin 1 |
| AdcDriver.Adc.Nrst | adc.go:609-611 | the mode and new state are those of `OpenAdc.SpecialGpio` on nRST |
| AdcDriver.Adc.SetNrst | adc.go:612-614 | the new state is that of `OpenAdc.SetSpecialGpio` on nRST |
| AdcDriver.Adc.Pdic | adc.go:616-618 | the mode and new state are those of `OpenAdc.SpecialGpio` on PDIC |
| AdcDriver.Adc.SetPdic | adc.go:619-621 | the new state is that of `OpenAdc.SetSpecialGpio` on PDIC |
| AdcDriver.Adc.Pdid | adc.go:623-625 | the mode and new state are those of `OpenAdc.SpecialGpio` on PDID |
| AdcDriver.Adc.SetPdid | adc.go:626-628 | the new state is that of `OpenAdc.SetSpecialGpio` on PDID |
| AdcDriver.Adc.RefreshParams | adc.go:1262-1276 | the new state is that of `OpenAdc.RefreshParams`; `RefreshParamsKeeps`, `RefreshParamsKeepsClock`, `RefreshParamsTriplesPresamples` and `RefreshParamsRetunes` state what it leaves |
| AdcDriver.Adc.DefaultSetup | adc.go:1278-1292 | the new state is that of `OpenAdc.DefaultSetup`; `DefaultSetupSettings`, `DefaultSetupClock` and `DefaultSetupRoutes` state what it leaves on a healthy CW-Lite |
| AdcDriver.NewAdc | adc.go:1294-1306 | the error and the registers are those of `OpenAdc.Setup`, and a fresh controller in that state is returned exactly when there is no error; `AdcOpen.SetupSettings`, `AdcOpen.SetupClock` and `AdcOpen.SetupRoutes` state the controller it opens on a healthy CW-Lite |
| AdcFields.WithGainMode | adc.go:175-181 | the new settings byte reads back the gain mode set and keeps every other bit |
| AdcFields.GainModeFixpoint | adc.go:167-181 | writing back the gain mode just read leaves the settings byte as it was |
| AdcFields.WithTriggerMode | adc.go:226-240 | the new settings byte reads back the trigger mode set and changes only bits 0x04 and 0x20 |
| AdcFields.TriggerModeFixpoint | adc.go:212-240 | writing back the trigger mode just read leaves the settings byte as it was |
| AdcFields.ClockSourceOf | adc.go:325-351 | the reported clock source is always one of the valid modes |
| AdcFields.WithClockSource | adc.go:353-391 | a mode outside the enumeration is an error; any other replaces exactly bits 0-2 and reads back as set |
| AdcFields.SourceBits | adc.go:353-391 | a valid clock source is encoded in bits 0-2 only and decodes back to itself |
| AdcFields.ClockSourceLowBits | adc.go:325-351 | the clock source depends only on bits 0-2 |
| AdcFields.ClockSourceFixpoint | adc.go:325-391 | setting the clock source just read leaves the register as it was |
| AdcFields.SpecialBit | adc.go:1038-1063 | the enable bit of a special pin is bit 0, 2 or 4 of the IO-route byte 6 |
| AdcFields.WithSpecialGpio | adc.go:1065-1095 | the new byte reads back the pin mode set and changes only that pin's two bits |
| AdcFields.SpecialGpioIndependent | adc.go:1065-1095 | setting one special pin leaves the mode of every other special pin |
| AdcFields.ClkOutOf | adc.go:1145-1155 | the clock-out field is below 4 |
| AdcFields.WithClkOut | adc.go:1157-1168 | a field below 4 reads back as set and only bits 5-6 change |
| AdcFields.Hs2Of | adc.go:630-642 | the clock-out field is an error exactly when it is not 0, 2 or 3 |
| AdcFields.Hs2Field | adc.go:643-655 | the field `SetHs2` stores is one `Hs2` reads back as the same mode |
| AdcFields.Hs2FieldOnto | adc.go:630-655 | every field `Hs2` accepts is the encoding of the mode it reports |
| AdcFields.DecimateRaw | adc.go:797-803 | the stored value decodes back to the factor, and factor 0 is stored as 0xFFFF |
| AdcFields.DecimateRawOnto | adc.go:786-803 | every register value is the encoding of the factor it decodes to |
| AdcFields.AdvClkBytes | adc.go:805-821 | the advanced-clock value is four bytes that decode back to it |
| AdcFields.ClkGenValue | adc.go:829-849 | a register value stands for a multiplier or divider between 1 and 256 |
| AdcFields.ClkGenRoundTrip | adc.go:851-865 | multipliers from 2 to 256 and dividers from 1 to 256 survive the 8-bit register |
| AdcFields.ClkGenTruncates | adc.go:860 | above 256 only the low eight bits are kept, so 257 reads back as 1 |
| AdcFields.HwVersionOf | adc.go:142-146 | the board type is bits 3-7 and the revision bits 0-2 of the second version byte, which they rebuild |
| AdcFields.CountsPresamplesInThrees | adc.go:268-272 | the boards whose presample register counts in threes: CW-Lite and CW1200 |
| AdcFields.FreqCounterOf | adc.go:442-448 | bit 3 of the flags chooses the CLKGEN output, otherwise the external clock input |
| AdcFields.WithFreqCounter | adc.go:455-462 | the new flags read back the source set and change only bit 3 |
| AdcFields.FreqCounterFixpoint | adc.go:442-466 | writing back the frequency-counter source just read leaves the flags as they were |
| AdcFields.WithClkGenInput | adc.go:480-487 | the new `SrcAndStatus` reads back the input source set and changes only bit 3 |
| AdcFields.ClkGenInputFixpoint | adc.go:468-490 | writing back the CLKGEN input just read leaves `SrcAndStatus` as it was |
| AdcFields.TriggerPinsOf | adc.go:555-567 | a pin is listed exactly when its bit is set, and the pins are in increasing order |
| AdcFields.TriggerPinByte | adc.go:574-591 | pins 0 to 3 give a byte that decodes to that pin alone; any other pin is the invalid-pin error |
| AdcFields.TioModeOf | adc.go:976-983 | a route byte decodes exactly when its mode without the level bit is known, to that mode with only the level bit cleared; otherwise the unknown-mode error |
| AdcFields.GpioOf | adc.go:1006-1013 | a pin reads as GPIO-disabled exactly when its GPIO-enable bit is clear |
| AdcFields.WithGpio | adc.go:1029-1034 | only the level bit changes, disabled changes nothing, and on an enabled pin the level set reads back |
| AdcLemmas.StickyGetters | adc.go:741-795 | once an error is recorded every getter makes no access and returns its zero value: the register reads, the version (unknown), the trigger, clock and lock bits, and the IO-route modes of all eight pins |
| AdcLemmas.StickySetters | adc.go:761-803 | once an error is recorded every setter and reset makes no access and changes nothing, the IO-route setters of all eight pins included |
| AdcLemmas.TotalSamplesOverLimit | adc.go:296-302 | more samples than the hardware limit is an error that replaces any earlier one, and nothing is written |
| AdcLemmas.GainOverLimit | adc.go:198-201 | a gain above 78 is an error and nothing is written |
| AdcLemmas.InvalidClockSourceWritesNothing | adc.go:353-391 | an invalid clock source is an error after the one read of the advanced-clock register, and nothing is written |
| AdcLemmas.Fit4 | memory.go:75-90 | a four-byte register read back in four bytes returns the stored bytes |
| AdcLemmas.TriggerModeRoundTrip | adc.go:212-240 | the trigger mode set is the mode read back, and only bits 0x04 and 0x20 of the settings change |
| AdcLemmas.GainRoundTrip | adc.go:183-203 | a gain in range reads back as set without error |
| AdcLemmas.TotalSamplesRoundTrip | adc.go:292-302 | a sample count within the limit reads back as set without error |
| AdcLemmas.DecimateRoundTrip | adc.go:304-309 | setting and then reading the downsample factor gives it back, factor 0 included |
| AdcLemmas.ClkGenMulRoundTrip | adc.go:829-865 | a multiplier from 2 to 256 set while the DCM reports lock is what the first try reads back |
| AdcLemmas.SetClkGenMulStores | adc.go:851-865 | the register ends with the new multiplier field, the old flags and the load flag cleared |
| AdcLemmas.SetAdvClockReadsBack | adc.go:805-821 | an advanced-clock value stored without error is what the next read returns |
| AdcLemmas.ResetAdcKeepsSource | adc.go:890-899 | the ADC reset leaves no error behind, and the advanced-clock value is the old one with only bit 4 of the source register cleared, so the clock source is kept |
| AdcLemmas.ClockSourceRoundTrip | adc.go:325-391 | the clock source set is the one read back, since the ADC reset pulses only bit 4 |
| AdcLemmas.SetAdcClockSourceSteps | adc.go:353-391 | a valid clock source is stored with validation, and then the ADC is reset |
| AdcLemmas.Hs2RoundTrip | adc.go:630-655 | setting and then reading HS2 gives the mode back without error |
| AdcLemmas.SpecialGpioRoundTrip | adc.go:1038-1095 | a special pin reads back the mode set, the other special pins keep theirs, and the other seven IO-route bytes are unchanged |
| AdcLemmas.SetSpecialGpioStores | adc.go:1065-1095 | the eight IO-route bytes are written back with only byte 6 changed |
| AdcLemmas.SlowClockInputFails | adc.go:519-535 | an input clock below 1 MHz gives multiplier 0, which is refused, so setting the output frequency fails |
| AdcLemmas.TraceDataIgnoresError | adc.go:698-702 | reading trace data does not look at an earlier error |
| AdcLemmas.TraceDataClearsError | adc.go:698-736 | reading trace data successfully after an error clears that error |
| AdcLemmas.TraceDataNothingPending | adc.go:699-705 | nothing pending, or a pending count that cannot be read, gives no samples and no further access |
| AdcLemmas.TraceDataAtMostSamples | adc.go:731-733 | trace data never has more samples than the sample count |
| AdcLemmas.TraceDataReadLength | adc.go:709-721 | with data pending, the data read fetches `ReadLength` bytes |
| AdcLemmas.RoundUpToThree | adc.go:711-713 | rounding up to a multiple of three without wrap-around is `3 * ceil(n / 3)` |
| AdcLemmas.WantedBytesRule | adc.go:710-714 | without wrap-around the wanted byte count is `4 * ceil(samples / 3) + 256` |
| AdcLemmas.WantedCountRule | adc.go:710-714 | the same rule on the sample count as a number |
| AdcLemmas.ReadLengthRule | adc.go:710-717 | below 2^30 - 2 samples the read length is the lesser of what is pending and `4 * ceil(samples / 3) + 256` |
| AdcLemmas.WantedBytesWraps | adc.go:714 | from 2^30 samples the 32-bit product wraps, so 2^30 samples ask for only 258 bytes |
| AdcLemmas.WaitTimesOutAfterError | adc.go:668-696 | once an error is recorded the status reads as zero, so the wait always runs into the timeout |
| AdcLemmas.WaitStopsWhenTriggered | adc.go:684-689 | the wait stops at the first status read showing the trigger, without forcing it |
| AdcLemmas.NthShift | adc.go:684 | `k` status reads after one status read are `k + 1` status reads |
| AdcLemmas.ResetOnAfterError | adc.go:1247-1255 | after an error the sample count reads as 0, so the limit wraps to 2^32 - 45 |
| AdcLemmas.ProcessTraceDataError | adc.go:1187-1205 | a framing error sets the error, and a framed trace of at least one word clears it |
| AdcLemmas.TriggerOffsetRoundTrip | adc.go:242-258 | a trigger offset set without error reads back as set |
| AdcLemmas.PreTriggerSamplesTripled | adc.go:260-290 | on a CW-Lite or CW1200 a count set reads back tripled, in 32-bit arithmetic, so every refresh triples it |
| AdcLemmas.PreTriggerSamplesUnreliable | adc.go:277-290 | on any other board setting the count is an error and writes nothing |
| AdcLemmas.ResetClkGenKeepsFlags | adc.go:878-888 | the CLKGEN reset changes only the reset and load flags and keeps `SrcAndStatus` |
| AdcLemmas.FreqCounterRoundTrip | adc.go:442-466 | the frequency-counter source set is read back, through both resets |
| AdcLemmas.ClkGenInputRoundTrip | adc.go:468-490 | the CLKGEN input source set is read back |
| AdcLemmas.TriggerPinRoundTrip | adc.go:546-593 | pins 0 to 3 set as the trigger read back as that pin alone |
| AdcLemmas.InvalidTriggerPinWritesNothing | adc.go:570-593 | any other pin value is the invalid-pin error with no register access |
| AdcLemmas.SetTioStores | adc.go:986-996 | setting a route mode writes the eight bytes read with only that pin's byte replaced |
| AdcLemmas.IoRouteReadsBack | adc.go:968-996 | the IO-route bytes stored are the next eight read |
| AdcLemmas.SetGpioStores | adc.go:1016-1036 | on a pin routed to GPIO only that pin's level bit changes |
| AdcLemmas.SetGpioNotRouted | adc.go:1024-1027 | on a pin not routed to GPIO setting the level is an error and writes nothing |
| AdcLemmas.SetTargetIoStores | adc.go:1125-1143 | a supported mode is stored as its route byte and only that pin's byte changes |
| AdcLemmas.TargetIoRoundTrip | adc.go:1097-1143 | a supported mode set reads back without error, and the other pins' bytes are written back unchanged |
| AdcLemmas.SetTargetIoUnsupported | adc.go:1139-1142 | high impedance and GPIO-disabled are the unsupported-mode error with no register access |
| AdcLemmas.TargetIoNeverHighZ | adc.go:1097-1123 | a pin never reads as high impedance, and a high-impedance route byte is the unsupported-mode error |
| AdcLemmas.RefreshAfterError | adc.go:1262-1276 | after an error the refresh makes no access and changes nothing |
| AdcLemmas.DefaultSetupAfterError | adc.go:1278-1292 | after an error the default setup makes no access and changes nothing |
| AdcLemmas.NewAdcFailsOnSettings | adc.go:1294-1306 | a settings register that cannot be read makes `NewAdc` fail with the register-access error |
| AdcLemmas.PutPasses | adc.go:761-766 | a store to a working register with a well-formed mask clears the error and leaves the data in the register |
| AdcLemmas.AdvClockSteady | adc.go:805-814 | a steady advanced-clock register reads as the four bytes it holds, changing only the log |
| AdcLemmas.AdvClockTakesReading | adc.go:805-814 | an advanced-clock read that takes a reading returns the value the hardware put there and keeps the later readings in store |
| AdcLemmas.ResetAdcStores | adc.go:890-899 | on a steady register the ADC reset pulses bit 4 of `SrcAndStatus` and changes nothing else |
| AdcLemmas.StatusTakesReading | adc.go:741-750 | one status read returns the next reading in store and leaves the later ones; no other register changes |
| AdcLemmas.WaitSeesTriggerAtPoll | adc.go:674-691 | a status that shows the trigger first at poll `k`, before the timer fires, stops the wait after exactly `k + 1` status reads without forcing the trigger, leaving the later readings in store |
| AdcLemmas.WaitTimesOutWithoutTrigger | adc.go:674-691 | when no status reading shows the trigger before the timer fires, the wait forces the trigger after exactly `polls` status reads |
| AdcLemmas.WaitForTriggerDisarms | adc.go:668-696 | once the trigger is seen at poll `k`, `WaitForTigger` returns false with the arm bit cleared and the other settings bits as before, after `k + 3` accesses |
| AdcLemmas.SettingsSteady | adc.go:752-759 | a steady settings register reads as the byte it holds |
| AdcLemmas.SetSettingsStores | adc.go:761-766 | a settings store to a working register passes and the register holds the byte |
| AdcLemmas.SetSettingsReadsBack | adc.go:752-766 | a settings byte stored without error is read back, and no other register changes |
| AdcLemmas.RewriteSettings | adc.go:752-766 | a settings read followed by a validated store leaves the byte stored, and logs exactly those two accesses |
| AdcLemmas.SetArmOnSetsBit | adc.go:660-662 | the settings are read and written back validated with the arm bit set and every other bit kept; no other register changes |
| AdcLemmas.SetArmOffClearsBit | adc.go:664-666 | the settings are read and written back validated with the arm bit cleared and every other bit kept |
| AdcLemmas.SetTriggerNowPulses | adc.go:1170-1177 | the trigger-now bit is raised and dropped in two validated stores, and the settings end with that bit clear and every other bit as read |
| AdcLemmas.NumSamplesSteady | adc.go:768-777 | a steady sample-count register reads as the little-endian word it holds |
| AdcLemmas.SetNumSamplesReadsBack | adc.go:768-784 | a sample count stored on a steady register is the next one read |
| AdcLemmas.SetResetOnLimit | adc.go:1247-1255 | the reset bit is set with the other settings kept, the sample limit becomes the count read minus 45 in `uint32`, and that limit is the sample count written back |
| AdcLemmas.LowerLimitStores | adc.go:1252-1254 | the lowered limit is stored as the sample count and reads back as the limit |
| AdcLemmas.SetResetOffClears | adc.go:1257-1260 | the reset bit is cleared, validated, and every other settings bit kept |
| AdcLemmas.ReloadClkGenStores | adc.go:867-876 | on a steady register the reload pulses only the load flag |
| AdcLemmas.ReloadTakesReading | adc.go:867-876 | a reload whose read takes a reading passes, and the later readings stay in store |
| AdcLemmas.ClkGenMulSecondTry | adc.go:829-849 | a DCM that reports lock only at the third advanced-clock reading has its multiplier read on the second try, after one reload |
| AdcLemmas.ClkGenDivSecondTry | adc.go:907-921 | as `ClkGenMulSecondTry`, for the divider |
| AdcLemmas.ClkGenMulSteady | adc.go:829-849 | a locked CLKGEN with a non-zero multiplier field reads the multiplier on the first try |
| AdcLemmas.ClkGenDivSteady | adc.go:907-921 | a locked CLKGEN reads the divider on the first try |
| AdcLemmas.ClkGenMulNotLocked | adc.go:829-849 | a DCM that never reports lock makes `clkGenMul` fail after two tries with 0 and the not-locked error |
| AdcLemmas.ClkGenDivNotLocked | adc.go:907-921 | a DCM that never reports lock makes `clkGenDiv` fail after two tries with 1 and the not-locked error |
| AdcLemmas.ClkGenFactorsTooSmall | adc.go:851-937 | a multiplier below 2 and a divider of 0 are errors with no register access |
| AdcLemmas.SetClkGenDivStores | adc.go:923-937 | the new divider field and the old flags, load flag cleared, are stored, and no other register changes |
| AdcLemmas.ClkGenDivRoundTrip | adc.go:907-937 | a divider from 1 to 256 set while the DCM reports lock is read back on the first try |
| AdcLemmas.InputFreqReads | adc.go:523-529 | on steady registers the CLKGEN input is the external clock frequency or the system-frequency word, as bit 3 of `SrcAndStatus` says, and reading it changes only the log |
| AdcLemmas.ClkGenOutputFreqRule | adc.go:503-517 | with the DCM locked and a non-zero multiplier field, the output frequency is the input times the multiplier over the divider the register holds |
| AdcLemmas.SearchRange | adc.go:940-966 | the search returns a multiplier in [2, 256] and a divider in [1, 256] when a divider is allowed, and (0, 0) otherwise |
| AdcLemmas.StoreMulDiv | adc.go:851-899 | the multiplier, divider and both resets in a row store the new fields and keep DONE and the CLKGEN input |
| AdcLemmas.SetClkGenOutputFreqRefuses | adc.go:519-535 | an input too slow for any divider makes the search return multiplier 0, which is refused with the multiplier error |
| AdcLemmas.SetClkGenOutputFreqStores | adc.go:519-535 | on a healthy state the searched pair is stored, DONE and the CLKGEN input are kept, and no other register changes |
| AdcLemmas.ClkGenOutputFreqReadsBack | adc.go:503-535 | after a successful `SetClkGenOutputFreq` with the DCM locked, the multiplier and divider read back are the searched pair, the input is unchanged, and the output frequency is the input times that pair |
| AdcLemmas.ReadBackAfterStore | adc.go:503-535 | a state that differs only in the advanced-clock fields stored reads back those factors, the same input frequency and their scaled output |
| AdcSetup.WordsRead | adc.go:741-777 | a healthy state's gain, sample count, trigger offset and settings read as what their registers hold |
| AdcSetup.RoutesRead | adc.go:968-1123 | a healthy state's trigger pins, HS2 mode and serial routes decode from what the registers hold |
| AdcSetup.ClockReads | adc.go:805-814 | on a healthy state the advanced clock and the CLKGEN input frequency read what the registers hold |
| AdcSetup.SetGainStep | adc.go:194-203 | a gain of at most 78 is stored and no other register changes |
| AdcSetup.SetTotalSamplesStep | adc.go:296-302 | a sample count within the limit is stored and no other register changes |
| AdcSetup.SetTriggerOffsetStep | adc.go:253-258 | the trigger offset is stored and no other register changes |
| AdcSetup.SetTriggerModeStep | adc.go:226-240 | the trigger mode is stored into the settings byte as read, and no other register changes |
| AdcSetup.SetAdcClockSourceStep | adc.go:353-391 | a valid clock source replaces bits 0-2 of `SrcAndStatus` and pulses bit 4; the factors and flags stay |
| AdcSetup.SetTriggerPinStep | adc.go:570-590 | a pin from 0 to 3 is stored as its trigger byte and no other register changes |
| AdcSetup.SetSerialStep | adc.go:1125-1143 | a serial route replaces byte `pin` of the eight IO-route bytes read, and no other register changes |
| AdcSetup.SetHs2Step | adc.go:643-655 | the HS2 field replaces the clock-out bits of the byte read, and no other register changes |
| AdcSetup.DefaultFieldsStage | adc.go:1281-1284 | gain 45, 3000 samples, offset 0 and the rising-edge trigger are stored, the input frequency kept |
| AdcSetup.DefaultClockStage | adc.go:1285-1288 | CLKGEN gets the searched pair for 7.37 MHz, the ADC clock source CLKGEN x4 through the DCM, and the trigger pin index 3 |
| AdcSetup.DefaultIoStage | adc.go:1289-1291 | TargetIO1 receives, TargetIO2 transmits, and HS2 carries the CLKGEN output |
| AdcSetup.DefaultSetupStages | adc.go:1278-1292 | on a CW-Lite `defaultSetup` is the version read followed by the three stages |
| AdcSetup.DefaultSetupStores | adc.go:1278-1292 | on a healthy CW-Lite with room for 3000 samples and an input that allows a divider, all three stages run without an error |
| AdcSetup.DefaultSetupSettings | adc.go:1278-1292 | after `defaultSetup` on a healthy CW-Lite: no error, the sample limit kept, gain 45, 3000 samples, offset 0, rising-edge trigger |
| AdcSetup.DefaultSetupClock | adc.go:1278-1292 | after `defaultSetup` on a healthy CW-Lite with DONE set: the ADC clocked from CLKGEN x4 through the DCM, and CLKGEN at the searched pair for 7.37 MHz and its scaled frequency |
| AdcSetup.DefaultSetupRoutes | adc.go:1278-1292 | after `defaultSetup` on a healthy CW-Lite: trigger on pin index 3, TargetIO1 RX, TargetIO2 TX, HS2 from CLKGEN |
| AdcRefresh.RefreshParamsPasses | adc.go:1262-1276 | `refreshParams` is the eleven read-and-write-back pairs in the order of adc.go |
| AdcRefresh.ResetsIdempotent | adc.go:878-899 | the ADC reset and the CLKGEN reset pulses are idempotent |
| AdcRefresh.ResetsKeepReadBits | adc.go:878-899 | neither reset pulse touches a bit any getter reads |
| AdcRefresh.PresamplesRefreshStep | adc.go:260-290 | on a board that counts in threes the presample count read is three times the register, and that is what is written back |
| AdcRefresh.OutputFreqRefreshStep | adc.go:1275 | the output frequency read is searched again and its pair stored |
| AdcRefresh.RefreshParamsStores | adc.go:1262-1276 | on a refreshable state every pair runs without an error and leaves what `Refreshed` describes |
| AdcRefresh.ReadyIsRefreshable | adc.go:1262-1276 | the getter-level condition implies the register-level one, and the output and input frequencies read are those the registers hold |
| AdcRefresh.RefreshedWithin | adc.go:1262-1276 | a refresh changes only the seven registers it writes, and keeps the system frequency and the version |
| AdcRefresh.RefreshParamsKeeps | adc.go:1262-1276 | after a refresh of a healthy controller the gain mode, gain, trigger mode, trigger offset, sample count and decimation read as before, with no error |
| AdcRefresh.RefreshParamsTriplesPresamples | adc.go:1262-1276 | after a refresh the pre-trigger count is three times what it was, in `uint32` |
| AdcRefresh.RefreshParamsKeepsClock | adc.go:1262-1276 | after a refresh the clock source, the frequency-counter source and the CLKGEN input read as before |
| AdcRefresh.RefreshParamsRetunes | adc.go:1262-1276 | after a refresh CLKGEN runs at the searched pair for the output frequency read before, and the output reads as the input times that pair |
| AdcOpen.ResetPulseStores | adc.go:1247-1260 | the reset pulse on a healthy state leaves the reset bit clear with the other settings as read, and the sample limit the count read minus 45, which is also the count written back |
| AdcOpen.ReadyIsOpenable | adc.go:1294-1300 | the getter-level opening condition implies the register-level one |
| AdcOpen.PulseStep | adc.go:1297-1298 | the reset pulse on an openable state keeps the board and CLKGEN input and leaves a refreshable state with room for 3000 samples |
| AdcOpen.RefreshStep | adc.go:1299 | a refresh keeps the board, the sample limit, the CLKGEN input and DONE |
| AdcOpen.OpenStages | adc.go:1297-1299 | the reset pulse and the refresh from an openable state lead to the CW-Lite path of `defaultSetup` |
| AdcOpen.SetupIs | adc.go:1294-1300 | `NewAdc`'s state is `defaultSetup` after `refreshParams` after the reset pulse, from a fresh controller |
| AdcOpen.PathStages | adc.go:1294-1300 | from a controller ready to open, the reset pulse and refresh leave a healthy CW-Lite with the sample limit the count minus 45, at least 3000, and the input and DONE kept |
| AdcOpen.SetupSettings | adc.go:1294-1306 | a healthy `NewAdc` opens a controller without error whose sample limit is the count found minus 45, with gain 45, 3000 samples, offset 0 and a rising-edge trigger |
| AdcOpen.SetupClock | adc.go:1294-1306 | a healthy `NewAdc` leaves the ADC clocked from CLKGEN x4 through the DCM, and CLKGEN at the searched pair for 7.37 MHz from the input found on opening |
| AdcOpen.SetupRoutes | adc.go:1294-1306 | a healthy `NewAdc` triggers on pin index 3, routes TargetIO1 to RX and TargetIO2 to TX, and drives HS2 from CLKGEN |
| TraceDecode.M1 | adc.go:1208 | the first sample of a word is a 10-bit value |
| TraceDecode.M2 | adc.go:1209 | the second sample of a word is a 10-bit value |
| TraceDecode.M3 | adc.go:1210 | the third sample of a word is a 10-bit value |
| TraceDecode.Tag | adc.go:1217 | the trigger tag of a word is below 4 |
| TraceDecode.Words | adc.go:1199-1205 | the loop reads `(len - 4) / 4` words, word `k` being the big-endian value of bytes `1 + 4k` to `4 + 4k` |
| TraceDecode.FirstSamples | adc.go:1218-1237 | the trigger word yields at most three 10-bit samples |
| TraceDecode.Samples | adc.go:1197-1242 | the words yield at most three 10-bit samples each |
| TraceDecode.Decode | adc.go:1181-1245 | decoding fails exactly on a bad length or a bad sync byte, reporting the length first |
| TraceDecode.FirstSamplesOrder | adc.go:1219-1235 | the trigger word's samples come out as m3, then m2, then m1: tag 2 gives `[m3]` and tag 1 gives `[m3, m2]`, not `[m2, m3]` as the comment beside the code says |
| TraceDecode.SkipBeforeTrigger | adc.go:1223-1226 | words before the trigger word contribute nothing |
| TraceDecode.TriggerSplit | adc.go:1197-1242 | the output is the first triggered word's leading samples followed by three samples of every later word, and a trace with no trigger word is empty |
| TraceDecode.FullWords | adc.go:1239-1241 | once the trigger is seen every word yields exactly three samples |
| TraceDecode.AfterTrigger | adc.go:1239-1241 | after the trigger, word `j` supplies samples `3j`, `3j+1` and `3j+2` in the order m1, m2, m3 |
| TraceDecode.SamplesStep | adc.go:1199-1242 | one loop step is word `k`'s contribution followed by the rest |
| TraceDecode.AppendFirst | adc.go:1227-1235 | the trigger word's appends add `FirstSamples` |
| TraceDecode.DecodeWord | adc.go:1207-1241 | one word adds its contribution, and the trigger counts as seen from the first word tagged below 3 |
| TraceDecode.DecodeTrace | adc.go:1181-1245 | the loop computes `Decode` |
| TraceDecode.DecodeWords | adc.go:1197-1242 | the loop over a well-framed trace yields the samples of its words |
| TraceDecode.DecodeAt | adc.go:1199-1242 | the loop body at byte `i` consumes word `k` and keeps the invariant |
| Stm32Boot.Release | programmer/stm32f/programmer.go:121-125 | releasing the chip drives boot-select low and pulses reset, consuming no reply and keeping the timeout |
| Stm32Boot.ReleaseEnds | programmer/stm32f/programmer.go:121-125 | after a release the last calls on the line are the release |
| Stm32Boot.AwaitAck | programmer/stm32f/programmer.go:79-98 | an acknowledgement wait reads exactly one byte |
| Stm32Boot.AckDecoding | programmer/stm32f/programmer.go:79-98 | the wait passes exactly on 0x79; 0x1F is a NACK, an empty read is a timeout, and any other byte or a read error fails |
| Stm32Boot.Calls | programmer/stm32f/programmer.go:127-285 | a script that runs to its end makes one call per step |
| Stm32Boot.Drop | programmer/stm32f/programmer.go:79-98 | the replies left once `k` are used |
| Stm32Boot.RunPasses | programmer/stm32f/programmer.go:127-285 | a command script passes exactly when each of its acknowledgement steps gets 0x79 |
| Stm32Boot.RunKeepsTimeout | programmer/stm32f/programmer.go:127-285 | a command script leaves the timeout as it was |
| Stm32Boot.RunLog | programmer/stm32f/programmer.go:127-285 | a command script makes a prefix of its calls, in order, and no others |
| Stm32Boot.RunShape | programmer/stm32f/programmer.go:127-285 | a command script that passes has made all its calls, one reply each |
| Stm32Boot.DropStep | programmer/stm32f/programmer.go:79-98 | dropping one reply and then `k` more is dropping `k + 1` |
| Stm32Boot.RunAppend | programmer/stm32f/programmer.go:127-285 | running two scripts one after the other is running their concatenation |
| Stm32Boot.RunPut | programmer/stm32f/programmer.go:129-130 | a script that starts with a write makes the write and goes on whatever it was answered |
| Stm32Boot.RunAck | programmer/stm32f/programmer.go:131 | a failed acknowledgement ends a script, otherwise the rest follows |
| Stm32Boot.GenericAck | programmer/stm32f/programmer.go:127-132 | a generic command writes the command byte and its complement whatever they were answered, and succeeds exactly when the third reply is 0x79 |
| Stm32Boot.SyncOnce | programmer/stm32f/programmer.go:104-111 | one sync attempt pulses reset on the first two attempts only, then flushes, writes 0x7F and reads the acknowledgement |
| Stm32Boot.SyncFromAfter | programmer/stm32f/programmer.go:103-116 | after `k` failed attempts the loop goes on from attempt `k` on the line they left |
| Stm32Boot.AttemptFailed | programmer/stm32f/programmer.go:103-116 | one more failed attempt extends the failed prefix by one |
| Stm32Boot.SyncPassesAt | programmer/stm32f/programmer.go:111-114 | after `k` failed attempts an attempt that passes ends the loop with its own result |
| Stm32Boot.SyncFailsAll | programmer/stm32f/programmer.go:103-118 | after five failed attempts the loop fails with chip-not-found |
| Stm32Boot.AttemptsStep | programmer/stm32f/programmer.go:103-116 | attempt `fails` followed by the later attempts are the attempts from `fails` on |
| Stm32Boot.AttemptsSplit | programmer/stm32f/programmer.go:103-116 | the attempts from one index to another split at any index between |
| Stm32Boot.SyncShape | programmer/stm32f/programmer.go:100-119 | synchronisation makes whole attempts in order, at least one when any is left, and fails with chip-not-found only after all five |
| Stm32Boot.OneAttempt | programmer/stm32f/programmer.go:104-111 | one attempt's calls are the attempts from `fails` to `fails + 1` |
| Stm32Boot.SyncKeepsTimeout | programmer/stm32f/programmer.go:100-119 | synchronisation leaves the timeout as it was |
| Stm32Boot.SynchroniseLog | programmer/stm32f/programmer.go:100-119 | synchronisation drives boot-select high and then makes a prefix of the five attempts |
| Stm32Boot.SyncAttemptsInOrder | programmer/stm32f/programmer.go:103-116 | the full sync sequence is two attempts with resets and three without, each flushing and sending 0x7F and reading the acknowledgement |
| Stm32Boot.IdSize | programmer/stm32f/programmer.go:173 | the ID length is the announced byte plus one, on eight bits, so 0xFF wraps to zero |
| Stm32Boot.GetIdSize | programmer/stm32f/programmer.go:163-181 | a successful ID query returns one byte more than announced, except that 0xFF wraps to an empty ID |
| Stm32Boot.EraseSelection | programmer/stm32f/programmer.go:202-214 | erasing uses the extended command exactly when 0x44 was reported, and leaves the timeout as it was |
| Stm32Boot.ExtendedEraseCalls | programmer/stm32f/programmer.go:183-200 | an extended erase sends the global mass-erase code and checksum, waits under a 30-second timeout, and restores the previous timeout |
| Stm32Boot.EncodeAddr | programmer/stm32f/programmer.go:216-227 | an encoded address is five bytes |
| Stm32Boot.EncodeAddrChecksum | programmer/stm32f/programmer.go:216-227 | the five address bytes XOR to zero, and the first four are the address big-endian |
| Stm32Boot.LowByte | programmer/stm32f/programmer.go:250 | Go's `byte(k)` keeps `k` modulo 256, so `byte(-1)` is 0xFF |
| Stm32Boot.Ones | programmer/stm32f/programmer.go:235-237 | `k` padding bytes |
| Stm32Boot.OnesAreFF | programmer/stm32f/programmer.go:236 | every padding byte is 0xFF |
| Stm32Boot.Pad | programmer/stm32f/programmer.go:231-238 | the data padded with 0xFF to a multiple of four bytes; `PadShape` states that the data stays a prefix and fewer than four bytes are added |
| Stm32Boot.PadShape | programmer/stm32f/programmer.go:230-240 | padding keeps the data as a prefix, adds fewer than four 0xFF bytes up to a multiple of four, and leaves whole words alone |
| Stm32Boot.Puts | programmer/stm32f/programmer.go:254-257 | one write step per data byte |
| Stm32Boot.PutsAreWrites | programmer/stm32f/programmer.go:254-257 | step `j` writes byte `j` alone |
| Stm32Boot.PutsPass | programmer/stm32f/programmer.go:254-257 | sending the data byte by byte never ends the script |
| Stm32Boot.PutsStep | programmer/stm32f/programmer.go:254-257 | one more byte is one more write |
| Stm32Boot.XorStep | programmer/stm32f/programmer.go:253-257 | the checksum over one more byte is the old checksum XOR that byte |
| Stm32Boot.WriteStepsAcks | programmer/stm32f/programmer.go:229-263 | a write's acknowledgement steps come after the command, after the address and last |
| Stm32Boot.WriteMemory | programmer/stm32f/programmer.go:229-263 | `cmdWriteMemory`: the generic command, the address and its ACK, the padded frame and its ACK; `WriteMemoryAcks` and `WriteMemoryFrame` state its outcome and frame |
| Stm32Boot.WriteMemoryAcks | programmer/stm32f/programmer.go:229-263 | a write succeeds exactly when its three acknowledgement steps get 0x79, and then it has made every call of its script |
| Stm32Boot.WriteMemoryFrame | programmer/stm32f/programmer.go:250-258 | the length byte, the data and the checksum XOR to zero, and for one to 256 padded bytes the length byte is their count minus one |
| Stm32Boot.ReadMemory | programmer/stm32f/programmer.go:265-285 | a memory read never delivers more bytes than asked |
| Stm32Boot.ReadMemoryFrame | programmer/stm32f/programmer.go:275-277 | for one to 256 bytes the length byte is the count minus one and is followed by its complement |
| Stm32Boot.WriteBlocks | programmer/stm32f/programmer.go:294-310 | the chunked writer's loop, one write command per block of at most 64 bytes at an advancing address; `WriteBlocksStep` and `WriteBlocksProgress` state its progress |
| Stm32Boot.WriteBlocksStep | programmer/stm32f/programmer.go:294-310 | a chunked write is its first block followed by the rest, or stops at that block when it fails |
| Stm32Boot.WriteBlocksProgress | programmer/stm32f/programmer.go:294-310 | a chunked write succeeds having written every byte or fails a whole number of blocks short of the end, and the address advances by exactly the bytes written |
| Stm32Boot.ReadMemoryBounded | programmer/stm32f/programmer.go:265-285 | the memory read used by the chunked reader never returns more than asked |
| Stm32Boot.ReadBlockAdvance | programmer/stm32f/programmer.go:323-339 | the first block of a chunked read fails with its command's error or moves the read on past that block |
| Stm32Boot.Lookup | programmer/stm32f/programmer.go:361-365 | a chip is found only with the signature read, and none is found exactly when no supported chip has it |
| Stm32Boot.IdentifySupported | programmer/stm32f/programmer.go:345-369 | a chip is found only with a supported signature |
| Stm32Boot.IdentifyReleases | programmer/stm32f/programmer.go:345-369 | on every failure the last calls made release the chip |
| Stm32Boot.IdentifyCommands | programmer/stm32f/programmer.go:155-157 | finding the chip only adds to the set of known commands |
| Stm32Boot.Programmer.constructor | programmer/stm32f/programmer.go:375 | a new programmer has its port, no known commands and no chip |
| Stm32Boot.Programmer.SetBoot | programmer/stm32f/programmer.go:64-70 | the new line state is that of `BootSelect` |
| Stm32Boot.Programmer.Reset | programmer/stm32f/programmer.go:72-77 | the new line state is that of `ResetPulse` |
| Stm32Boot.Programmer.WaitForAck | programmer/stm32f/programmer.go:79-98 | the outcome and new line state are those of `AwaitAck` |
| Stm32Boot.Programmer.Sync | programmer/stm32f/programmer.go:104-111 | the outcome and new line state are those of `SyncOnce` |
| Stm32Boot.Attempt | programmer/stm32f/programmer.go:103-110 | the calls of one sync attempt: a reset pulse on the first two attempts only, then flush, 0x7F and the ACK read; `SyncAttemptsInOrder` and `SynchroniseLog` state the sequence |
| Stm32Boot.Synchronise | programmer/stm32f/programmer.go:100-119 | `initChip`: boot mode, then up to five sync attempts; `SynchroniseLog` and `SyncFailsAll` state its calls and failure, and `Programmer.InitChip` is proved against it |
| Stm32Boot.Programmer.InitChip | programmer/stm32f/programmer.go:100-119 | the outcome and new line state are those of `Synchronise` |
| Stm32Boot.Programmer.SyncStep | programmer/stm32f/programmer.go:103-116 | a passing attempt ends the loop with the loop's result, and a failing one extends the failed prefix |
| Stm32Boot.Programmer.ReleaseChip | programmer/stm32f/programmer.go:121-125 | the new line state is that of `Release` |
| Stm32Boot.Generic | programmer/stm32f/programmer.go:127-132 | `cmdGeneric`: the command, its complement and the ACK; `GenericAck` states its outcome, and `Programmer.CmdGeneric` is proved against it |
| Stm32Boot.Programmer.CmdGeneric | programmer/stm32f/programmer.go:127-132 | the outcome and new line state are those of `Generic` |
| Stm32Boot.GetCommands | programmer/stm32f/programmer.go:134-154 | `cmdGetAvailableCommands`: the count, the version, that many command codes and an ACK, each read into a zeroed buffer; `Programmer.QueryCommands` is proved against it |
| Stm32Boot.Programmer.CmdGetAvailableCommands | programmer/stm32f/programmer.go:134-161 | the outcome and line state are those of `GetCommands`, and on success the codes received join the known commands |
| Stm32Boot.Programmer.QueryCommands | programmer/stm32f/programmer.go:134-154 | the codes and new line state are those of `GetCommands` |
| Stm32Boot.Programmer.AddCommands | programmer/stm32f/programmer.go:155-157 | the known commands grow by exactly the codes given, and the chip is unchanged |
| Stm32Boot.GetId | programmer/stm32f/programmer.go:163-181 | `cmdGetId`: a length byte N and N+1 ID bytes in byte arithmetic, then an ACK; `GetIdSize` states the size read, and `Programmer.CmdGetId` is proved against it |
| Stm32Boot.Programmer.CmdGetId | programmer/stm32f/programmer.go:163-181 | the ID and new line state are those of `GetId` |
| Stm32Boot.ExtendedErase | programmer/stm32f/programmer.go:183-200 | `cmdExtendedEraseMemory`: mass erase under a 30-second timeout, the old timeout restored after the generic command; `ExtendedEraseCalls` states its calls |
| Stm32Boot.EraseMemory | programmer/stm32f/programmer.go:202-214 | `cmdEraseMemory`: extended erase when the chip offers it, otherwise global erase; `EraseSelection` states the choice |
| Stm32Boot.Programmer.CmdExtendedEraseMemory | programmer/stm32f/programmer.go:183-200 | the outcome and new line state are those of `ExtendedErase` |
| Stm32Boot.Programmer.CmdEraseMemory | programmer/stm32f/programmer.go:202-214 | the outcome and new line state are those of `EraseMemory` for the known commands |
| Stm32Boot.Programmer.Erase | programmer/stm32f/programmer.go:428-430 | the outcome and new line state are those of `EraseMemory` |
| Stm32Boot.Programmer.PadToWords | programmer/stm32f/programmer.go:230-240 | the buffer sent is `Pad(data)` |
| Stm32Boot.Programmer.SendBytes | programmer/stm32f/programmer.go:253-257 | the checksum is the XOR of the length byte and every data byte, and the line state is that of one write per byte |
| Stm32Boot.Programmer.SendFrame | programmer/stm32f/programmer.go:250-261 | the outcome and new line state are those of the data steps |
| Stm32Boot.Programmer.CmdWriteMemory | programmer/stm32f/programmer.go:229-263 | the outcome and new line state are those of `WriteMemory` |
| Stm32Boot.Programmer.CmdReadMemory | programmer/stm32f/programmer.go:265-285 | the bytes and new line state are those of `ReadMemory` |
| Stm32Boot.Programmer.SendLength | programmer/stm32f/programmer.go:275-280 | the outcome and new line state are those of the length steps |
| Stm32Boot.Programmer.SendAddress | programmer/stm32f/programmer.go:246-249 | sending the encoded address and reading its acknowledgement runs the address steps |
| Stm32Boot.Programmer.LookupChip | programmer/stm32f/programmer.go:361-365 | the loop over the supported chips computes `Lookup` |
| Stm32Boot.Programmer.FindChip | programmer/stm32f/programmer.go:345-369 | the chip, known commands and line state are those of `Identify` |
| Stm32Boot.Programmer.NewProgrammerDeps | programmer/stm32f/programmer.go:372-383 | a programmer is returned exactly when `Identify` from no known commands finds a chip, and it holds that chip |
| Stm32Boot.Programmer.Close | programmer/stm32f/programmer.go:415-418 | closing releases the chip exactly when one was found |
| Stm32Boot.Programmer.NewMemoryWriter | programmer/stm32f/programmer.go:312-314 | a fresh writer on this programmer at the given address |
| Stm32Boot.Programmer.NewMemoryReader | programmer/stm32f/programmer.go:341-343 | a fresh reader on this programmer at the given address |
| Stm32Boot.MemWriter.constructor | programmer/stm32f/programmer.go:312-314 | the writer keeps its programmer and address |
| Stm32Boot.MemWriter.Write | programmer/stm32f/programmer.go:294-310 | the count, outcome, line state and address are those of `WriteBlocks` over `WriteMemory` |
| Stm32Boot.MemWriter.WriteBlock | programmer/stm32f/programmer.go:297-307 | one pass writes the block ending at `BlockEnd` and agrees with `WriteBlocks` |
| Stm32Boot.MemReader.constructor | programmer/stm32f/programmer.go:341-343 | the reader keeps its programmer and address |
| Stm32Boot.MemReader.Read | programmer/stm32f/programmer.go:323-339 | the count, outcome, line state, address and buffer are those of `ReadBlocks` over `ReadMemory` |
| Stm32Boot.MemReader.ReadBlock | programmer/stm32f/programmer.go:325-337 | one pass reads the block ending at `BlockEnd` and agrees with `ReadBlocks` |
| Stm32Boot.MemReader.Accept | programmer/stm32f/programmer.go:331-337 | a block that arrived lands in the buffer at `n`, and the address moves past the block |
| Xmega.Le32Bytes | programmer/xmega/programmer.go:160 | a 32-bit field is four bytes |
| Xmega.Le16Bytes | programmer/xmega/programmer.go:213 | the `uint16` length field is two bytes |
| Xmega.Le32Value | programmer/xmega/programmer.go:160 | the four bytes decode back to the word, little-endian |
| Xmega.Le16Value | programmer/xmega/programmer.go:213 | the two bytes decode back to the length truncated to 16 bits |
| Xmega.ReadInfoFields | programmer/xmega/programmer.go:197-214 | the read info block is seven bytes that decode back to type 0, the address and the 16-bit length |
| Xmega.WriteInfoFields | programmer/xmega/programmer.go:248-270 | the write info block is eight bytes that decode back to the memory type, the page-write flag, the address and the 16-bit length |
| Xmega.TimeoutParamFields | programmer/xmega/programmer.go:157-165 | the timeout parameter block is five bytes: parameter 8, then the ticks little-endian |
| Xmega.Commands | programmer/xmega/programmer.go:121-133 | the commands a transcript sent are among its transfers |
| Xmega.CommandsSnoc | programmer/xmega/programmer.go:121-133 | one more transfer adds itself to the commands exactly when it is a control transfer out |
| Xmega.Query | programmer/xmega/programmer.go:111-118 | a low-level read is one control transfer in of exactly `len` bytes under the command's code |
| Xmega.StatusOk | programmer/xmega/programmer.go:145-155 | the status check reads the status block and passes exactly when a three-byte block with error byte zero arrives |
| Xmega.Reply | programmer/xmega/programmer.go:121-133 | the reply due now is the device's next one |
| Xmega.Issue | programmer/xmega/programmer.go:121-133 | a command goes out, the status is read only when checking and the transfer went through, and the command passes exactly when the transfer is accepted in full and, when checking, the status is good |
| Xmega.IssuePassed | programmer/xmega/programmer.go:121-133 | a checked command that passes used exactly two replies |
| Xmega.IssueUnchecked | programmer/xmega/programmer.go:124-126 | an unchecked command is exactly one control transfer out |
| Xmega.IssueCommands | programmer/xmega/programmer.go:121-133 | a command adds itself, and only itself, to the commands sent |
| Xmega.EraseFlow | programmer/xmega/programmer.go:361-373 | `Erase`: a chip erase, otherwise leave and re-enter programming mode and erase the application section; `EraseFallback` states the fallback, and `Programmer.Erase` is proved against it |
| Xmega.EraseFallback | programmer/xmega/programmer.go:361-373 | a chip erase that passes is all erasing does; one that fails is followed by exactly leave, enter and an application erase, whose outcome is the result |
| Xmega.Shutdown | programmer/xmega/programmer.go:337-345 | closing an already closed programmer does nothing and passes; closing an open one sends leave-programming-mode and ends with the device closed |
| Xmega.ReadChunk | programmer/xmega/programmer.go:203-225 | a chunk read delivers exactly `len` bytes after the checked read command and the RAM-buffer fetch |
| Xmega.ReadChunkBounded | programmer/xmega/programmer.go:219 | a chunk read never delivers more than asked |
| Xmega.WriteChunk | programmer/xmega/programmer.go:272-278 | a chunk write never reports the short-write error |
| Xmega.WriteChunkCommands | programmer/xmega/programmer.go:272-278 | a chunk write puts the data in the RAM buffer unchecked and then, if the device took all of it, sends the checked write command for the memory type, address and length |
| Xmega.StagingNeverShort | programmer/xmega/programmer.go:272-278 | only the writer's own bound check reports a short write |
| Xmega.WriteChunks | programmer/xmega/programmer.go:247-284 | the writer's loop over chunks of at most 64 bytes, checking the next address against `maxAddr` in 32-bit arithmetic; `WriteChunksStep`, `WriteChunksProgress`, `WriteChunksStops` and `WriteChunksFits` state its progress and bounds |
| Xmega.WriteChunksStep | programmer/xmega/programmer.go:256-282 | a chunked write is its first chunk followed by the rest, or stops at that chunk |
| Xmega.WriteChunksProgress | programmer/xmega/programmer.go:256-283 | a chunked write succeeds having written every byte or fails a whole number of chunks short of the end, and the address advances by exactly the bytes written |
| Xmega.WriteChunksStops | programmer/xmega/programmer.go:262-264 | a write stops with the short-write error exactly when the chunk it stopped at would end past the region's end |
| Xmega.WriteChunksFits | programmer/xmega/programmer.go:262-264 | the writer never moves past the region's end, and a write that fits never stops with the short-write error |
| Xmega.Lookup | programmer/xmega/programmer.go:298-302 | a chip is found only with the signature read, and none exactly when no supported chip has it |
| Xmega.Signature | programmer/xmega/programmer.go:292-296 | the signature read fills three bytes |
| Xmega.Identify | programmer/xmega/programmer.go:291-305 | a chip found is a supported one, and identifying never closes the device |
| Xmega.SignatureOneChunk | programmer/xmega/programmer.go:292-296 | the three signature bytes take one chunk, so the reader's result is that chunk's |
| Xmega.IdentifyReadsSignature | programmer/xmega/programmer.go:291-305 | with no chip known, identification makes exactly one read command, for three bytes at 0x01000090, and a chip it reports has that signature |
| Xmega.IssueExtends | programmer/xmega/programmer.go:121-133 | a command only adds transfers, never a close |
| Xmega.ReadChunkExtends | programmer/xmega/programmer.go:203-225 | a chunk read only adds transfers, never a close |
| Xmega.Open | programmer/xmega/programmer.go:308-326 | opening first sets the 400 ms timeout as 1000 ticks, a chip found is supported, and the device ends closed exactly when programming mode was entered and identification failed |
| Xmega.Opened | programmer/xmega/programmer.go:315-326 | after the timeout: the device ends closed exactly when programming mode was entered and identification failed |
| Xmega.Identified | programmer/xmega/programmer.go:319-325 | the chip is identified, or the programmer is closed, and never both |
| Xmega.Programmer.constructor | programmer/xmega/programmer.go:310 | a new programmer is open over its device with no chip |
| Xmega.Programmer.DoRead | programmer/xmega/programmer.go:111-118 | the bytes and new device state are those of `Query` |
| Xmega.Programmer.CheckStatusOk | programmer/xmega/programmer.go:145-155 | the outcome and new device state are those of `StatusOk` |
| Xmega.Programmer.DoWrite | programmer/xmega/programmer.go:121-133 | the outcome and new device state are those of `Issue` |
| Xmega.Programmer.SetTimeout | programmer/xmega/programmer.go:157-170 | the outcome and new device state are those of the checked parameter command |
| Xmega.Programmer.EnablePdi | programmer/xmega/programmer.go:173-178 | the outcome and new device state are those of the checked enter command |
| Xmega.Programmer.DisablePdi | programmer/xmega/programmer.go:181-186 | the outcome and new device state are those of the checked leave command |
| Xmega.Programmer.EraseChip | programmer/xmega/programmer.go:347-352 | the outcome and new device state are those of a checked chip erase |
| Xmega.Programmer.EraseApp | programmer/xmega/programmer.go:354-359 | the outcome and new device state are those of a checked application erase |
| Xmega.Programmer.Erase | programmer/xmega/programmer.go:361-373 | the outcome and new device state are those of `EraseFlow` |
| Xmega.Programmer.Close | programmer/xmega/programmer.go:337-345 | afterwards the programmer is closed with its chip kept, and the outcome and device state are those of `Shutdown` |
| Xmega.Programmer.FindChip | programmer/xmega/programmer.go:291-305 | the chip and new device state are those of `Identify` |
| Xmega.Programmer.NewProgrammerDeps | programmer/xmega/programmer.go:308-326 | a programmer is returned exactly when `Open` succeeds, holding the chip found |
| Xmega.Programmer.EnterAndIdentify | programmer/xmega/programmer.go:315-326 | the result and device state are those of `Opened`, and success keeps the programmer open with the chip found |
| Xmega.Programmer.IdentifyOrClose | programmer/xmega/programmer.go:319-325 | the result and device state are those of `Identified`, and success keeps the programmer open with the chip found |
| Xmega.Programmer.NewMemoryWriter | programmer/xmega/programmer.go:286-289 | a fresh writer over the known chip's flash, from its offset to its end, whatever address is given |
| Xmega.ReaderStart | programmer/xmega/programmer.go:230-235 | where a new reader starts: the flash offset of a known chip, else the given address; `Programmer.NewMemoryReader` is proved against it |
| Xmega.Programmer.NewMemoryReader | programmer/xmega/programmer.go:230-235 | a fresh reader from the given address, or from the flash offset once a chip is known |
| Xmega.MemWriter.constructor | programmer/xmega/programmer.go:288 | the writer keeps its programmer, memory type, address and bound |
| Xmega.MemWriter.Write | programmer/xmega/programmer.go:247-284 | the count, outcome, device state and address are those of `WriteChunks` |
| Xmega.MemWriter.WriteOne | programmer/xmega/programmer.go:257-281 | one pass does the bound check and writes the chunk ending at `BlockEnd`, agreeing with `WriteChunks` |
| Xmega.ReadOneFails | programmer/xmega/programmer.go:215-221 | a chunked read stops at a chunk that fails, with that chunk's error |
| Xmega.ReadOnePasses | programmer/xmega/programmer.go:219-224 | a chunked read goes on after a chunk that succeeds, with the bytes placed and the address advanced |
| Xmega.MemReader.constructor | programmer/xmega/programmer.go:234 | the reader keeps its programmer and address |
| Xmega.MemReader.Read | programmer/xmega/programmer.go:196-228 | the count, outcome, device state, address and buffer are those of `ReadBlocks` over `ReadChunk` |
| Xmega.MemReader.ReadOne | programmer/xmega/programmer.go:204-224 | one pass reads the chunk ending at `BlockEnd` and agrees with `ReadBlocks` |
| Xmega.MemReader.ReadChunkAt | programmer/xmega/programmer.go:210-224 | the chunk is read as `ReadChunk`, and on success its bytes land in the buffer and the address advances past it |
| XmegaUsart.Code | third_party/chipwhisperer/firmware/hal/xmega/usart_driver.c:163 | a DRE interrupt level is encoded within the level field of CTRLA |
| XmegaUsart.WithDreLevel | third_party/chipwhisperer/firmware/hal/xmega/usart_driver.c:162-164 | CTRLA gets the level field replaced and every other bit kept |
| XmegaUsart.Pow2 | third_party/chipwhisperer/firmware/hal/xmega/usart_driver.c:126 | a ring size `2^k` is at least one |
| XmegaUsart.And | third_party/chipwhisperer/firmware/hal/xmega/usart_driver.c:126 | C's `&` on non-negative integers never exceeds either operand |
| XmegaUsart.AndBelow | third_party/chipwhisperer/firmware/hal/xmega/usart_driver.c:126 | masking a value below `2^k` with `2^k - 1` keeps it |
| XmegaUsart.AndPow | third_party/chipwhisperer/firmware/hal/xmega/usart_driver.c:126 | masking `2^k` with `2^k - 1` gives zero |
| XmegaUsart.Wrap | third_party/chipwhisperer/firmware/hal/xmega/usart_driver.c:159 | the next index round a ring stays inside it |
| XmegaUsart.MaskedAdvance | third_party/chipwhisperer/firmware/hal/xmega/usart_driver.c:159 | `(i + 1) & MASK` in a ring of `2^k` slots is the next index round the ring |
| XmegaUsart.NextIndex | third_party/chipwhisperer/firmware/hal/xmega/usart_driver.c:159 | the driver's masked advance computes `Wrap` |
| XmegaUsart.Count | third_party/chipwhisperer/firmware/hal/xmega/usart_driver.c:181-189 | fewer bytes are queued than the ring has slots, and none exactly when head equals tail |
| XmegaUsart.Slot | third_party/chipwhisperer/firmware/hal/xmega/usart_driver.c:210 | a position after the tail is a slot of the ring |
| XmegaUsart.Ring | third_party/chipwhisperer/firmware/hal/xmega/usart_driver.c:143-281 | the queue holds `Count` bytes, the oldest first, read round the ring from the tail |
| XmegaUsart.FullRing | third_party/chipwhisperer/firmware/hal/xmega/usart_driver.c:123-131 | the driver's full test holds exactly when the ring holds one byte fewer than its slots |
| XmegaUsart.Push | third_party/chipwhisperer/firmware/hal/xmega/usart_driver.c:156-159 | storing at the head and advancing it appends the byte to the queue |
| XmegaUsart.Pop | third_party/chipwhisperer/firmware/hal/xmega/usart_driver.c:210-213 | advancing the tail removes the oldest byte |
| XmegaUsart.Usart.constructor | third_party/chipwhisperer/firmware/hal/xmega/usart_driver.c:81-92 | a fresh USART has clear registers and has sent nothing |
| XmegaUsart.UsartData.constructor | third_party/chipwhisperer/firmware/hal/xmega/usart_driver.c:81-92 | initialisation binds the USART, records the DRE level and empties both rings |
| XmegaUsart.UsartData.SetDreLevel | third_party/chipwhisperer/firmware/hal/xmega/usart_driver.c:106-110 | the stored DRE level changes and both rings are untouched |
| XmegaUsart.UsartData.TxFreeSpace | third_party/chipwhisperer/firmware/hal/xmega/usart_driver.c:123-131 | there is room exactly when fewer than `2^k - 1` bytes are queued for sending |
| XmegaUsart.UsartData.PutByte | third_party/chipwhisperer/firmware/hal/xmega/usart_driver.c:143-167 | with room the byte joins the end of the transmit queue and the DRE interrupt is enabled at the stored level; without room nothing changes, and the result says which |
| XmegaUsart.UsartData.RxAvailable | third_party/chipwhisperer/firmware/hal/xmega/usart_driver.c:181-189 | data is available exactly when the receive queue is not empty |
| XmegaUsart.UsartData.GetByte | third_party/chipwhisperer/firmware/hal/xmega/usart_driver.c:204-216 | the oldest received byte is returned and removed, and the transmit side is unchanged |
| XmegaUsart.UsartData.RxComplete | third_party/chipwhisperer/firmware/hal/xmega/usart_driver.c:227-248 | the received byte joins the receive queue unless the ring is full, in which case it is dropped, and the result says which |
| XmegaUsart.UsartData.DataRegEmpty | third_party/chipwhisperer/firmware/hal/xmega/usart_driver.c:260-281 | with nothing queued the DRE interrupt is turned off; otherwise the oldest queued byte goes to DATA and leaves the queue |
| XmegaUsart.NinthBitOut | third_party/chipwhisperer/firmware/hal/xmega/usart_driver.c:292-298 | TXB8 follows bit 8 of the character and the other bits of CTRLB stay |
| XmegaUsart.NineBitsPutChar | third_party/chipwhisperer/firmware/hal/xmega/usart_driver.c:292-301 | bit 8 goes to TXB8, the low byte is sent, and the other registers are unchanged |
| XmegaUsart.Char9 | third_party/chipwhisperer/firmware/hal/xmega/usart_driver.c:313-320 | the 9-bit character has the data byte below and the ninth bit taken from the register it reads |
| XmegaUsart.NineBitsGetChar | third_party/chipwhisperer/firmware/hal/xmega/usart_driver.c:313-320 | as written: the ninth bit is taken from CTRLB |
| XmegaUsart.NineBitsGetCharStatus | third_party/chipwhisperer/firmware/hal/xmega/usart_driver.c:313-320 | corrected: the ninth bit is taken from STATUS, where the receiver stores it |
| XmegaUsart.ReceiveRoundTrip | third_party/chipwhisperer/firmware/hal/xmega/usart_driver.c:313-320 | reading RXB8 from STATUS recovers every received 9-bit character |
| XmegaUsart.CtrlbLosesNinthBit | third_party/chipwhisperer/firmware/hal/xmega/usart_driver.c:315 | reading CTRLB with TXB8 clear turns a received 0x1AB into 0x0AB |
| XmegaUsart.LoopbackRoundTrip | third_party/chipwhisperer/firmware/hal/xmega/usart_driver.c:292-320 | on a line looped back to itself a character put with the ninth bit reads back whole, since TXB8 and RXB8 then agree |
| Flash.Answer | util/programmer.go:30-52 | every programmer call is appended to the transcript |
| Flash.EraseStep | util/programmer.go:33-35 | an erase is recorded and passes exactly when the programmer accepts it |
| Flash.WriteStep | util/programmer.go:37-40 | a write at the image's address is recorded and passes exactly when the programmer accepts it |
| Flash.ReadStep | util/programmer.go:42-46 | a read into a zeroed buffer of `len` bytes passes exactly when at most `len` bytes arrive, and the buffer then starts with them |
| Flash.EraseFailureStops | util/programmer.go:33-35 | a failed erase is reported and nothing is written or read |
| Flash.ProgramCalls | util/programmer.go:30-52 | the calls are erase, write at the image's address, read of the image's length, in that order, stopping at the first failure; success makes all three |
| Flash.ProgramPasses | util/programmer.go:30-52 | programming passes exactly when erase and write pass and the read delivers bytes that, after zero filling, equal the image |
| Flash.ProgramVerified | util/programmer.go:44-49 | on success every byte read back equals the byte written |
| Flash.Programmer.constructor | util/programmer.go:30 | a fresh programmer has an empty transcript and the given replies |
| Flash.Programmer.Erase | util/programmer.go:33 | the outcome and new state are those of `EraseStep` |
| Flash.Programmer.Write | util/programmer.go:37-38 | the outcome and new state are those of `WriteStep` |
| Flash.Programmer.Read | util/programmer.go:42-44 | the bytes and new state are those of `ReadStep` |
| Flash.ProgramDevice | util/programmer.go:30-52 | the outcome and programmer state are those of `Program` |
| P256.Magnitude | util/p256_encoder.go:26 | `x.Bytes()` has no leading zero byte |
| P256.Zeros | util/p256_encoder.go:25 | a zeroed buffer of `n` bytes |
| P256.EncodeInt | util/p256_encoder.go:24-28 | an encoded coordinate is 32 bytes |
| P256.EncodePoint | util/p256_encoder.go:31-36 | an encoded point is 64 bytes, the encoding of `x` followed by that of `y` |
| P256.DecodeInt | util/p256_encoder.go:38-44 | a decoded 32-byte string is an integer below 2^256 |
| P256.DecodePoint | util/p256_encoder.go:46-51 | both decoded coordinates are below 2^256 |
| P256.MagnitudeFits | util/p256_encoder.go:26 | the magnitude of an integer below 256^n has at most n bytes |
| P256.BeBytesZero | util/p256_encoder.go:25 | zero in `n` big-endian bytes is `n` zero bytes |
| P256.PaddedMagnitude | util/p256_encoder.go:25-26 | left-padding the magnitude with zeros to `n` bytes is the `n`-byte big-endian encoding |
| P256.EncodeIsI2osp | util/p256_encoder.go:24-28 | the encoding is I2OSP(x, 32) of RFC 8017 section 4.1 |
| P256.DecodeEncodeInt | util/p256_encoder.go:24-44 | decoding undoes encoding for every integer below 2^256 |
| P256.EncodeDecodeInt | util/p256_encoder.go:24-44 | every 32-byte string is the encoding of its value |
| P256.DecodeEncodePoint | util/p256_encoder.go:31-51 | decoding a point undoes its encoding |
| P256.EncodeDecodePoint | util/p256_encoder.go:31-51 | every 64-byte string is the encoding of the point it decodes to |
| P256.EncodeIntInjective | util/p256_encoder.go:24-28 | distinct coordinates have distinct encodings |
| AesSbox.SubInverse | cmd/attack_sbox_cpa.go:59-76 | the S-box table takes every byte to a byte, and the inverse table (FIPS 197 section 5.3.2) takes it back |
| AesSbox.InvSubInverse | cmd/attack_sbox_cpa.go:59-76 | every byte is the S-box entry of the byte that the inverse table gives |
| AesSbox.SubByte | cmd/attack_sbox_cpa.go:100 | `sbox[b]`; `SubByteInverse`, `InvSubByteInverse` and `SubByteInjective` state that the table is a permutation of the bytes with `InvSubByte` its inverse |
| AesSbox.InvSubByte | cmd/attack_sbox_cpa.go:59-76 | the inverse S-box entry; `SubByteInverse` and `InvSubByteInverse` state that it undoes `SubByte` both ways |
| AesSbox.SubByteInverse | cmd/attack_sbox_cpa.go:100 | the inverse S-box undoes `sbox[b]` for every byte |
| AesSbox.InvSubByteInverse | cmd/attack_sbox_cpa.go:100 | the S-box undoes the inverse S-box, so `sbox` is a permutation of the bytes |
| AesSbox.SubByteInjective | cmd/attack_sbox_cpa.go:100 | distinct bytes have distinct S-box entries |
| Cpa.OnesCount8 | cmd/attack_sbox_cpa.go:101 | the Hamming weight is at most 8, and zero exactly for the zero byte |
| Cpa.Leak | cmd/attack_sbox_cpa.go:99-101 | the predicted leakage of a trace is at most 8 |
| Cpa.GuessesDiffer | cmd/attack_sbox_cpa.go:99-100 | two key guesses that predict the same S-box output for a plaintext byte are equal |
| Cpa.LeakModel | cmd/attack_sbox_cpa.go:96-104 | one prediction per trace, in trace order, each the weight of `sbox[pt ^ key]` |
| Dpa.LeakModel | cmd/attack_sbox_dpa.go:83-100 | two indicator vectors, one entry per trace, each entry 0 or 1, adding up to 1; the second is 1 exactly when bit 2 of `sbox[pt ^ key]` is set |
| Dpa.Window | cmd/attack_sbox_dpa.go:127-131 | one row per trace, holding the samples from the window start up to the window end, where an end of 0 means the length of the first trace; later traces are at least that long |
| KeyGuess.Abs | cmd/attack_sbox_cpa.go:166 | the magnitude is non-negative and is either x or -x |
| KeyGuess.SelectBest | cmd/attack_sbox_cpa.go:148-170 | the guess's key is a byte; its score bounds every score's magnitude; a non-zero score is the first entry with that magnitude, in scan order, at its key and offset column; with no non-zero score the initial guess stays (also cmd/attack_sbox_dpa.go:141-164) |
| Template.Diff | cmd/ecdh_zero_point_template_attack.go:92 | the sample difference is non-negative |
| Template.Candidates | cmd/ecdh_zero_point_template_attack.go:90-93 | one candidate per sample, with its location and the magnitude of the mean difference |
| Template.Locations | cmd/ecdh_zero_point_template_attack.go:100-111 | the locations of the points, in order |
| Template.AcceptKeepsSeparated | cmd/ecdh_zero_point_template_attack.go:103-111 | accepting a candidate that is not within 10 samples of an accepted one keeps all points more than 10 apart |
| Template.AheadStep | cmd/ecdh_zero_point_template_attack.go:99-111 | one scan step keeps the accepted points separated and in diff order, none below a later candidate |
| Template.Pick | cmd/ecdh_zero_point_template_attack.go:99-113 | the peak-picking loop as written, which checks the count only at the top of an iteration; `PickAgrees` and `LastPickLost` state where it agrees with the intended loop and where it loses the fifth point |
| Template.PickFixed | cmd/ecdh_zero_point_template_attack.go:99-113 | the loop as intended, stopping at the fifth point; `PickFixedResult` and `PickFixedIsScanPrefix` state what it returns |
| Template.Scan | cmd/ecdh_zero_point_template_attack.go:99-113 | the same selection without stopping; `ScanExtends`, `ScanAppend` and `ScanSkips` state how it accepts and skips candidates |
| Template.PickFixedResult | cmd/ecdh_zero_point_template_attack.go:97-114 | a successful selection is exactly five points, pairwise more than 10 samples apart, in the candidates' diff order |
| Template.PickAgrees | cmd/ecdh_zero_point_template_attack.go:97-114 | whenever the loop as written returns, it returns what the intended loop returns |
| Template.ScanExtends | cmd/ecdh_zero_point_template_attack.go:103-111 | the scan only appends to the accepted points |
| Template.PickFixedIsScanPrefix | cmd/ecdh_zero_point_template_attack.go:97-114 | the intended loop succeeds exactly when the unstopped scan accepts at least five points, and then returns its first five |
| Template.PickAcross | cmd/ecdh_zero_point_template_attack.go:99-111 | below five acceptances, both loops continue from where the scan of the first part stopped |
| Template.LastPickLost | cmd/ecdh_zero_point_template_attack.go:99-113 | with four points accepted and the fifth acceptable candidate last, the loop as written fails while the intended one returns five points |
| Template.ScanAppend | cmd/ecdh_zero_point_template_attack.go:99-111 | scanning a concatenation scans the second part from the state the first part left |
| Template.ScanSkips | cmd/ecdh_zero_point_template_attack.go:103-108 | candidates that each lie near an accepted point are all skipped |
| Template.Between | cmd/ecdh_zero_point_template_attack.go:92 | the 40 remaining samples of the defect instance, each within 10 of a peak |
| Template.PeaksAccepted | cmd/ecdh_zero_point_template_attack.go:99-111 | the scan accepts each of the four peaks at 0, 11, 22 and 33 |
| Template.BetweenSkipped | cmd/ecdh_zero_point_template_attack.go:103-108 | once the peaks are accepted, every sample between them is skipped |
| Template.DefectOrderSorted | cmd/ecdh_zero_point_template_attack.go:94 | the defect instance's candidate order is one the descending sort may produce |
| Template.DefectInstance | cmd/ecdh_zero_point_template_attack.go:89-114 | for the 45-sample instance the loop as written ends in the fatal error, and the intended loop returns the four peaks and sample 44 |
| Template.PickFirst | cmd/ecdh_zero_point_template_attack.go:99-111 | the first candidate, the largest difference, is always the first point chosen |
| Template.SelectionProperties | cmd/ecdh_zero_point_template_attack.go:89-114 | whatever order the sort leaves ties in, a successful selection is five samples of the trace, pairwise more than 10 apart, in non-increasing difference order, the first at the largest difference of all |
| Template.SelectionPropertiesAsWritten | cmd/ecdh_zero_point_template_attack.go:89-114 | the selection as written has the same properties whenever it returns |
| Template.BuildCandidates | cmd/ecdh_zero_point_template_attack.go:90-93 | the filled `poi` array is the candidate list |
| Template.TooClose | cmd/ecdh_zero_point_template_attack.go:103-108 | the skip flag is set exactly when some accepted location lies within 10 samples of the candidate |
| Template.FindPointsOfInterest | cmd/ecdh_zero_point_template_attack.go:89-114 | the result is the picking loop's locations, and `None` stands for the fatal error; a result has the points-of-interest properties |
| Template.FindPointsOfInterestFixed | cmd/ecdh_zero_point_template_attack.go:89-114 | the intended selection's locations, with the same properties |
| Template.SplitTraces | cmd/ecdh_zero_point_template_attack.go:186-191 | the training and validation rows together are the matrix, with the first 80% (rounded down) for training |
| Template.AtPoints | cmd/ecdh_zero_point_template_attack.go:173-176 | the samples of a trace at the points of interest, in their order |
| Template.TestValidationSet | cmd/ecdh_zero_point_template_attack.go:169-184 | one verdict per validation trace: "zero point" exactly when the zero template's log-probability exceeds the rand template's |

## Findings

| source | as written | input that shows it | evidently intended | confidence | as-written member | corrected member |
|---|---|---|---|---|---|---|
| fpga.go:68-77 | the DONE poll loop runs `for attempts := 0; attempts < 5; attempts--`; the counter goes down from 0, so the five-attempt bound never applies and the loop ends only on DONE, a failed status read, or 64-bit wrap-around | a board that reports DONE only on its seventh status read: the code polls seven times and succeeds | `attempts++`: give up with an error after five polls | not executed | FpgaLoader.PollNeverGivesUp, FpgaLoader.SeventhPollExample, FpgaLoader.SixthPollOpens, FpgaLoader.Fpga.Program, FpgaLoader.NewFpga | FpgaLoader.PollBoundedGivesUp, FpgaLoader.PollBoundedReads, FpgaLoader.Fpga.ProgramBounded, FpgaLoader.NewFpgaBounded |
| cmd/ecdh_zero_point_template_attack.go:99-113 | the count of accepted points is checked only at the top of each iteration, so when the fifth acceptable candidate is the last one the loop falls through to `glog.Fatal("Did not find enough points-of-interest")` | 45 samples whose mean differences are 4.0 at samples 0, 11, 22 and 33, 0.0 at sample 44 and 1.0 everywhere else: the descending sort may order them peaks, the other 40, then sample 44, and the fifth point (44) is accepted last | the five points found are returned | not executed | Template.LastPickLost, Template.DefectInstance, Template.FindPointsOfInterest | Template.PickFixedIsScanPrefix, Template.SelectionProperties, Template.FindPointsOfInterestFixed |
| third_party/chipwhisperer/firmware/hal/xmega/usart_driver.c:313-320 | `USART_NineBits_GetChar` takes the received ninth bit RXB8 from the CTRLB register, where bit 0 is the transmit bit TXB8 | a received 9-bit character 0x1AB while TXB8 is clear reads as 0x0AB | RXB8 is bit 0 of STATUS | not executed | XmegaUsart.CtrlbLosesNinthBit, XmegaUsart.NineBitsGetChar | XmegaUsart.ReceiveRoundTrip, XmegaUsart.NineBitsGetCharStatus |

The comment at adc.go:1219-1222 says that a first word with tag 1 contributes its samples in the order m2, m3. The code appends m3, then m2, in the same order as the other tags. The model follows the code (`TraceDecode.FirstSamplesOrder`).

## Left out

- Floating point. This covers:
  - the sample scaling `value/1024 - 0.5`;
  - `AdcFreq`, `AdcSampleRate` and `FreqCounter`, which scale a counter register by `float64(sysFreq) / 2^23`;
  - the Pearson correlation of the CPA tool and the means of the DPA tool;
  - the averages, covariances and multivariate normal log-probabilities of the template attack.

  The decoder keeps the raw 10-bit samples. The attack scores are `real` values given to the selection logic, and the two log-probability functions are parameters of `Template.TestValidationSet`.
- Goroutines and timers:
  - `WaitForTigger`'s timer and the `Usart.Read` deadline are poll counts: the loop iterations that start before the timer fires.
  - The 16 goroutines of the CPA and DPA tools, which fill the full key, are not modelled; `KeyGuess.SelectBest` is the scan each goroutine runs for one key byte.
- `time.Sleep` delays, `glog` logging, flag parsing and the command-line `main` functions are not modelled. This includes the template attack's `main`, `buildTemplate`, `averageTraces` and `loadCapture`, and the CPA/DPA `main` loops apart from the scan above.
- `sort.Sort(sort.Reverse(ByDiff{poi}))` is not stable. `Template` takes the sorted candidates as any reordering with non-increasing differences (`Template.SortedCandidates`), so every tie order is covered.
- Opening real hardware is not modelled: `OpenCwLiteUsbDevice`, the `NewProgrammer` and `NewCapture` wrappers that open the USB device, and libusb handles. The devices are the scripted transcripts described above.
- `SaveIo`/`LoadCaptureIo` (gzip and JSON from the standard library) are not modelled.
- The `bufio` line buffering of `ResponseLine` is not modelled; a line is one answer of the serial transcript.
- `io.Copy` of the bitstream is modelled as writes of 32 KiB, its default buffer size.
- Xmega: the `setTimeout` tick count `d.Seconds() * 2500` is floating point; `Xmega.StartTicks` is its value, 1000, for the 400 ms the programmer sets.
- Xmega: the supported-chip table is searched in a fixed order; a map with an unspecified iteration order would behave the same, because the signatures are distinct.
- Xmega: using the programmer after `Close` dereferences a nil device and panics in the source; the methods require `open` instead. `NewMemoryWriter` likewise requires a known chip, without which the source panics.
- Usart.Usart.Read: the bytes received are placed into the caller's buffer once, at the end, rather than chunk by chunk, so the order of the writes into `p` is not modelled; the final contents are.
- XmegaUsart: usart_driver.h is not part of this model, so the buffer sizes (a power of two up to 256) are parameters, and the register file is fields of the class.
- P256: `big.Int` values are non-negative here (`nat`); the source's behaviour on a negative `big.Int`, whose magnitude is encoded without a sign, is not modelled.
- Flash: the programmer behind `ProgramDevice` is a transcript of erase, write and read calls, not one of the two concrete programmers; each of those is modelled on its own.
- TraceCapture.SamplesMatrix: requires a non-empty capture whose first trace has samples and whose later traces are at least as long. On an empty capture `c[0]` is out of range, on a first trace without samples `mat.NewDense` refuses zero columns, and a shorter later trace is indexed past its end; the source panics in each case.
- AdcOpen.SetupSettings, AdcOpen.SetupClock, AdcOpen.SetupRoutes: state the controller `NewAdc` opens only on its healthy path (`OpenReady`). That path needs a CW-Lite whose registers neither fail nor change on their own, a gain `SetGain` accepts, a sample count of at least 3045, and CLKGEN with DONE set, a non-zero multiplier and an input that allows a divider. On the other paths the opening sets an error. `NewAdcFailsOnSettings` and the sticky-error lemmas state some of those cases; the final state of every failure path is not enumerated.
- `Adc.Close` returns nil and touches nothing, so it is not modelled.
- P256.EncodeInt, P256.EncodePoint: require coordinates below 2^256 (`Fits`). For a larger `big.Int`, `buf[32-len(x.Bytes()):32]` in util/p256_encoder.go:26 has a negative start and the source panics.
- P256.DecodeInt, P256.DecodePoint: require a 32-byte and a 64-byte buffer. On any other length util/p256_encoder.go:39-40 and :47-48 panic.
- Cpa.LeakModel, Dpa.LeakModel: require every trace's plaintext to have byte `keyIdx` (`HasByte`). A shorter plaintext makes `capture[i].Pt[keyIdx]` go out of range and panic.
- Dpa.Window: requires a non-empty capture whose later traces are at least as long as the first (`AtLeast`), and `t1 <= end <= width`. These are the inputs on which `SamplesMatrix` and `Slice` do not panic.
- Template.FindPointsOfInterest, Template.FindPointsOfInterestFixed: require at least 10 samples. With fewer, `poi[:10]` in the log line panics before any point is picked.
- Template.AtPoints, Template.TestValidationSet: require every point of interest to index into each row (`poi[j] < |row|`, `Covers`). Otherwise `validation.At(i, p)` panics.
- AdcBus: the validation read-back of `Mem.Write` sees the value just stored, so validation fails only on a malformed mask; a register that changes between the write and its read-back is not modelled. The readings the hardware has in store are fixed in advance, not produced by a model of the FPGA's timing.
- `util/broker.go`, `util/intel_hex.go`, `viewer/`, the smoke tests and the hardware-register firmware (HAL, AES driver, firmware mains) lie outside this model.
