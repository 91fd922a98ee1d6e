/**
 * Host-side driver for the DirtyJTAG USB adapter (src/dirtyjtag.cpp): the
 * command and signal identifiers of its wire protocol, the SET_FREQUENCY
 * command encoder, and the shift operations, which the driver leaves as
 * stubs returning fixed values.
 *
 * The USB session (libusb init, open, claim, close) and the bulk transfer are
 * outside the model; the status a bulk transfer returns is a parameter.
 */
module DirtyJtag {
  import opened Wrappers
  import opened MachineInts

  /** USB vendor and product identifiers the driver opens. */
  const DJTAG_VID: uint16 := 0x1209
  const DJTAG_PID: uint16 := 0xC0CA
  /** Bulk OUT endpoint for command frames and bulk IN endpoint for replies. */
  const ENDPOINT_WRITE: uint8 := 0x01
  const ENDPOINT_READ: uint8 := 0x82
  /** Timeout of every bulk transfer, in milliseconds. */
  const TRANSFER_TIMEOUT: nat := 1000

  // ---------------------------------------------------------------------------
  // Command identifiers

  /** The commands of the DirtyJTAG protocol (`CommandIdentifier`). */
  datatype Command = Stop | Info | Freq | Xfer | SetSig | GetSig | Clk

  /** The byte that opens a frame carrying command `c`. */
  function Opcode(c: Command): (r: uint8)
    ensures r <= 6
  {
    match c
    case Stop => 0x00
    case Info => 0x01
    case Freq => 0x02
    case Xfer => 0x03
    case SetSig => 0x04
    case GetSig => 0x05
    case Clk => 0x06
  }

  /** The command an opcode byte stands for; `None` for bytes no command uses. */
  function CommandOf(b: uint8): (r: Option<Command>)
    ensures r.Some? <==> b <= 6
  {
    if b == 0x00 then Some(Stop)
    else if b == 0x01 then Some(Info)
    else if b == 0x02 then Some(Freq)
    else if b == 0x03 then Some(Xfer)
    else if b == 0x04 then Some(SetSig)
    else if b == 0x05 then Some(GetSig)
    else if b == 0x06 then Some(Clk)
    else None
  }

  /** Opcodes and commands are in one-to-one correspondence. */
  lemma OpcodeRoundTrip(c: Command, b: uint8)
    ensures CommandOf(Opcode(c)) == Some(c)
    ensures CommandOf(b) == Some(c) <==> Opcode(c) == b
  {
  }

  /** No two commands share an opcode. */
  lemma OpcodesDistinct(a: Command, b: Command)
    ensures Opcode(a) == Opcode(b) <==> a == b
  {
  }

  // ---------------------------------------------------------------------------
  // Signal identifiers

  /** The adapter lines that SET_SIGNAL / GET_SIGNAL address (`SignalIdentifier`). */
  datatype Signal = Tck | Tdi | Tdo | Tms | Trst | Srst

  /** `b` has exactly one bit set. */
  predicate SingleBit(b: bv8)
  {
    b != 0 && b & (b - 1) == 0
  }

  /** The bit mask of a signal in a SET_SIGNAL / GET_SIGNAL byte. */
  function Mask(s: Signal): (r: bv8)
    ensures SingleBit(r)
    ensures r & 1 == 0
  {
    match s
    case Tck => 1 << 1
    case Tdi => 1 << 2
    case Tdo => 1 << 3
    case Tms => 1 << 4
    case Trst => 1 << 5
    case Srst => 1 << 6
  }

  /** The signal whose mask is `b`, if any. */
  function SignalOf(b: bv8): (r: Option<Signal>)
    ensures r.Some? ==> Mask(r.value) == b
    ensures r.None? ==> forall s: Signal :: Mask(s) != b
  {
    if b == 1 << 1 then Some(Tck)
    else if b == 1 << 2 then Some(Tdi)
    else if b == 1 << 3 then Some(Tdo)
    else if b == 1 << 4 then Some(Tms)
    else if b == 1 << 5 then Some(Trst)
    else if b == 1 << 6 then Some(Srst)
    else None
  }

  /** Masks of different signals share no bit; a mask overlaps only itself. */
  lemma MasksDisjoint(a: Signal, b: Signal)
    ensures Mask(a) & Mask(b) == 0 <==> a != b
  {
  }

  // ---------------------------------------------------------------------------
  // SET_FREQUENCY

  /**
   * What `setClkFreq` decides for a frequency: `Rejected` when it throws
   * before any transfer, or `Send(frame)` with the frame of its one bulk write.
   */
  datatype FreqCommand = Rejected | Send(frame: seq<uint8>)

  /** Length of a SET_FREQUENCY frame: opcode, two payload bytes, a zero byte. */
  const FREQ_FRAME_LENGTH: nat := 4

  /**
   * The clock in kHz as the driver holds it: `clkHZ / 1000` (unsigned
   * division) stored into a `uint16_t`.
   */
  function KHz(clkHZ: uint32): (k: uint16)
    ensures (clkHZ as int / 1000 - k as int) % HALF_WORD_RANGE == 0
    ensures clkHZ as int < 1000 * HALF_WORD_RANGE ==> k as int * 1000 <= clkHZ as int < k as int * 1000 + 1000
  {
    Narrow16(clkHZ as nat / 1000)
  }

  /**
   * The kHz value truncates the frequency and then wraps modulo 65536; below
   * 65 536 000 Hz no wrap occurs, so it is the largest whole kHz not above
   * `clkHZ`.
   */
  lemma KHzTruncatesThenWraps(clkHZ: uint32)
    ensures KHz(clkHZ) as int == (clkHZ as int / 1000) % HALF_WORD_RANGE
    ensures clkHZ as int < 1000 * HALF_WORD_RANGE ==>
              KHz(clkHZ) as int * 1000 <= clkHZ as int < KHz(clkHZ) as int * 1000 + 1000
  {
  }

  /** The big-endian SET_FREQUENCY frame for a kHz value. */
  function FreqFrame(khz: uint16): (f: seq<uint8>)
    ensures DecodeFreqFrame(f) == Some(khz)
  {
    [Opcode(Freq), Narrow8(khz as nat / BYTE_RANGE), Narrow8(khz as nat), 0x00]
  }

  /**
   * Reads back the kHz value of a SET_FREQUENCY frame: high byte first, then
   * low byte. `None` for anything that is not such a frame.
   */
  function DecodeFreqFrame(f: seq<uint8>): (r: Option<uint16>)
    ensures r.Some? <==> |f| == FREQ_FRAME_LENGTH && f[0] == Opcode(Freq) && f[3] == 0
    ensures r.Some? ==> r.value as int / BYTE_RANGE == f[1] as int
    ensures r.Some? ==> r.value as int % BYTE_RANGE == f[2] as int
  {
    if |f| == FREQ_FRAME_LENGTH && f[0] == Opcode(Freq) && f[3] == 0 then
      Some((f[1] as int * BYTE_RANGE + f[2] as int) as uint16)
    else
      None
  }

  /**
   * The frequency encoder of `setClkFreq(uint32_t)`. The range check compares
   * the already narrowed kHz value, so its upper bound can never trip: the call
   * is rejected exactly when the wrapped kHz value is zero.
   */
  function EncodeFreq(clkHZ: uint32): (r: FreqCommand)
    ensures r.Rejected? <==> (clkHZ as int / 1000) % HALF_WORD_RANGE == 0
    ensures r.Send? ==> |r.frame| == FREQ_FRAME_LENGTH
    ensures r.Send? ==> r.frame[0] == Opcode(Freq) && r.frame[3] == 0
    ensures r.Send? ==> r.frame[1] as int * BYTE_RANGE + r.frame[2] as int
                        == (clkHZ as int / 1000) % HALF_WORD_RANGE
  {
    var khz := KHz(clkHZ);
    if khz < 1 || khz as int > 65535 then Rejected
    else Send(FreqFrame(khz))
  }

  /** An accepted frequency's frame decodes back to the driver's kHz value. */
  lemma EncodeFreqRoundTrip(clkHZ: uint32)
    ensures EncodeFreq(clkHZ).Send? ==> DecodeFreqFrame(EncodeFreq(clkHZ).frame) == Some(KHz(clkHZ))
  {
  }

  /**
   * Every SET_FREQUENCY frame with a non-zero payload is what the encoder
   * sends for that many kHz.
   */
  lemma DecodeFreqRoundTrip(f: seq<uint8>, khz: uint16)
    requires DecodeFreqFrame(f) == Some(khz) && khz != 0
    ensures EncodeFreq(khz as uint32 * 1000) == Send(f)
  {
  }

  /**
   * Outcome of a `setClkFreq` call: `Threw` (no transfer took place), or
   * `Returned` with the frame handed to the single bulk write and the value
   * the call returns.
   */
  datatype ClkCall = Threw | Returned(written: seq<uint8>, code: int)

  /**
   * `setClkFreq(uint32_t)`, with `transferStatus` standing for what
   * `libusb_bulk_transfer` returns for the frame.
   */
  function SetClkFreq(clkHZ: uint32, transferStatus: int): (r: ClkCall)
    ensures r.Threw? <==> EncodeFreq(clkHZ).Rejected?
    ensures r.Returned? ==> EncodeFreq(clkHZ) == Send(r.written)
    ensures r.Returned? ==> (r.code == 0 <==> transferStatus == 0)
    ensures r.Returned? ==> r.code in {0, -1}
  {
    match EncodeFreq(clkHZ)
    case Rejected => Threw
    case Send(frame) => Returned(frame, if transferStatus != 0 then -1 else 0)
  }

  /** `setClkFreq(uint32_t, char)`: the divide-by-5 flag is ignored. */
  function SetClkFreqDivideBy5(clkHZ: uint32, useDivideBy5: char, transferStatus: int): (r: ClkCall)
    ensures r == SetClkFreq(clkHZ, transferStatus)
  {
    SetClkFreq(clkHZ, transferStatus)
  }

  /** Both overloads agree for every frequency, flag and transfer status. */
  lemma DivideBy5Ignored(clkHZ: uint32, a: char, b: char, transferStatus: int)
    ensures SetClkFreqDivideBy5(clkHZ, a, transferStatus) == SetClkFreqDivideBy5(clkHZ, b, transferStatus)
    ensures SetClkFreqDivideBy5(clkHZ, a, transferStatus) == SetClkFreq(clkHZ, transferStatus)
  {
  }

  // ---------------------------------------------------------------------------
  // Corrected SET_FREQUENCY encoder

  /**
   * The encoder with the range check done on the unnarrowed quotient, as the
   * bounds 1..65535 kHz evidently intend: out-of-range frequencies are
   * rejected instead of wrapping.
   */
  function EncodeFreqChecked(clkHZ: uint32): (r: FreqCommand)
    ensures r.Rejected? <==> clkHZ < 1000 || clkHZ as int >= 1000 * HALF_WORD_RANGE
    ensures r.Send? ==> DecodeFreqFrame(r.frame).Some?
    ensures r.Send? ==> DecodeFreqFrame(r.frame).value as int == clkHZ as int / 1000
  {
    var khz := clkHZ as int / 1000;
    if khz < 1 || khz > 65535 then Rejected
    else Send(FreqFrame(khz as uint16))
  }

  /** Below the wrap point the corrected and the original encoder agree. */
  lemma CheckedAgreesBelowWrap(clkHZ: uint32)
    requires clkHZ as int < 1000 * HALF_WORD_RANGE
    ensures EncodeFreqChecked(clkHZ) == EncodeFreq(clkHZ)
  {
  }

  /**
   * The original encoder rejects 65536000 Hz only because it wraps to 0 kHz,
   * and accepts 65537000 Hz as 1 kHz; the corrected encoder rejects both.
   */
  lemma NarrowingDefeatsRangeCheck()
    ensures EncodeFreq(65536000) == Rejected
    ensures EncodeFreq(65537000) == Send([0x02, 0x00, 0x01, 0x00])
    ensures EncodeFreqChecked(65536000) == Rejected
    ensures EncodeFreqChecked(65537000) == Rejected
  {
  }

  // ---------------------------------------------------------------------------
  // Shift operations (unimplemented in the driver)

  /** `storeTMS`: does nothing and reports failure. */
  function StoreTms(tms: seq<uint8>, nbBit: int, tdi: uint8, read: bool): (r: int)
    ensures r == -1
  {
    -1
  }

  /** `writeTMS`: reads nothing into `tdo` and reports failure. */
  function WriteTms(tdo: seq<uint8>, len: int): (r: int)
    ensures r == -1
  {
    -1
  }

  /** `storeTDI(uint8_t, int, bool)`: does nothing and reports failure. */
  function StoreTdiBits(tdi: uint8, nbBit: int, read: bool): (r: int)
    ensures r == -1
  {
    -1
  }

  /** `storeTDI(uint8_t *, int, bool)`: does nothing and reports failure. */
  function StoreTdiBytes(tdi: seq<uint8>, nbByte: int, read: bool): (r: int)
    ensures r == -1
  {
    -1
  }

  /** `writeTDI`: reads nothing into `tdo` and reports failure. */
  function WriteTdi(tdo: seq<uint8>, nbBit: int): (r: int)
    ensures r == -1
  {
    -1
  }

  /** `get_buffer_size`: reports failure instead of a size. */
  function GetBufferSize(): (r: int)
    ensures r == -1
  {
    -1
  }

  /** `isFull`: always reports room in the buffer. */
  function IsFull(): (r: bool)
    ensures !r
  {
    false
  }

  /** Whatever their arguments, the shift operations return their fixed values. */
  lemma ShiftOperationsAreStubs(bits: seq<uint8>, n: int, b: uint8, read: bool)
    ensures StoreTms(bits, n, b, read) == -1
    ensures WriteTms(bits, n) == -1
    ensures StoreTdiBits(b, n, read) == -1
    ensures StoreTdiBytes(bits, n, read) == -1
    ensures WriteTdi(bits, n) == -1
    ensures GetBufferSize() == -1
    ensures !IsFull()
  {
  }
}
