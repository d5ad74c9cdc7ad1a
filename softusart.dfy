/**
 * The bit-banged UART of flight/PiOS/STM32F10x/pios_softusart.c, as built
 * there: without PARITY and BIT9, with SLOW_STREAM.  One timer overflow at
 * twice the baud rate drives the transmit pin; the capture/compare interrupt
 * of the receive channel first catches the falling edge of a start bit and
 * then samples the line at twice the baud rate, every other interrupt.
 *
 * The pin levels read by the receiver, the bytes the COM layer hands over and
 * whether it accepts a received byte are inputs.  The state of the device
 * record is kept twice: as the fields of SoftUsartDevice, which the interrupt
 * handlers update in place, and as a Uart value, on which the tick functions
 * that specify those handlers are defined.
 */
module SoftUsart {

  datatype Option<T> = None | Some(value: T)

  /** Data bits and stop bits of a frame: 8N1 (pios_softusart_priv.h, which defines them, is not part of this model). */
  const DATA_LENGTH: nat := 8
  const STOP_BITS: nat := 1
  /** The index of the last bit of a frame: start bit 0, data bits 1 to 8, stop bit 9. */
  const FRAME_END: nat := DATA_LENGTH + STOP_BITS

  /** The data bit masks, least significant bit first; the ninth entry is zero. */
  const MSK_TAB: seq<bv8> := [0x01, 0x02, 0x04, 0x08, 0x10, 0x20, 0x40, 0x80, 0x00]

  /** Entry i of the mask table, as a shift: bit i, which for i = 8 falls off the byte. */
  function Msk(i: nat): bv8
    requires i <= DATA_LENGTH
  {
    (1 as bv8) << i
  }

  lemma MskTable(i: nat)
    requires i <= DATA_LENGTH
    ensures MSK_TAB[i] == Msk(i)
    ensures i < DATA_LENGTH ==> Msk(i) != 0
  {
  }

  /** The low k bits of a byte. */
  function LowMask(k: nat): bv8
    requires k <= DATA_LENGTH
  {
    Msk(k) - 1
  }

  /**
   * The flags of the status register.  Every call sets, clears or tests one
   * flag, so the register is modelled as the set of flags that are set.
   */
  datatype Flag =
    | TransmitInProgress      // TRANSMIT_IN_PROGRESS
    | TransmitDataRegEmpty    // TRANSMIT_DATA_REG_EMPTY
    | ReceiveInProgress       // RECEIVE_IN_PROGRESS
    | ReceiveBufferOverflow   // RECEIVE_BUFFER_OVERFLOW
    | ReceiveFrameError       // RECEIVE_FRAME_ERROR
    | ReceiveNoiseError       // RECEIVE_NOISE_ERROR

  const MASTER_CLOCK: nat := 72000000
  /** The baud rate Init programs. */
  const DEFAULT_BAUD: nat := 4800
  const UINT16_MODULUS: nat := 0x1_0000
  const UINT32_MODULUS: nat := 0x1_0000_0000

  // ---------------------------------------------------------------------
  // Status flags
  // ---------------------------------------------------------------------

  /** TestStatus: the flag is set. */
  predicate TestStatus(status: set<Flag>, flag: Flag)
  {
    flag in status
  }

  /** SetStatus: the flag becomes set, every other flag keeps its value. */
  function SetStatus(status: set<Flag>, flag: Flag): (r: set<Flag>)
    ensures TestStatus(r, flag)
    ensures forall other :: other != flag ==> (TestStatus(r, other) <==> TestStatus(status, other))
  {
    status + {flag}
  }

  /** ClrStatus: the flag becomes clear, every other flag keeps its value. */
  function ClrStatus(status: set<Flag>, flag: Flag): (r: set<Flag>)
    ensures !TestStatus(r, flag)
    ensures forall other :: other != flag ==> (TestStatus(r, other) <==> TestStatus(status, other))
  {
    status - {flag}
  }

  // ---------------------------------------------------------------------
  // Baud rate
  // ---------------------------------------------------------------------

  /** Unsigned division on the Cortex-M3: a zero divisor gives 0 while the divide-by-zero trap is off. */
  function UDiv(a: nat, b: nat): nat
  {
    if b == 0 then 0 else a / b
  }

  lemma MulMonotone(a: nat, b: nat, c: nat)
    requires a <= b
    ensures a * c <= b * c
  {
  }

  lemma Distributes(x: nat, y: nat, b: nat)
    ensures (x + y) * b == x * b + y * b
  {
  }

  /** (c / b) / 2 is the floor of c / (2 b). */
  lemma HalvedQuotient(c: nat, b: nat)
    requires b > 0
    ensures (c / b / 2) * (2 * b) <= c < (c / b / 2 + 1) * (2 * b)
  {
    var q, r := c / b, c % b;
    var d, e := q / 2, q % 2;
    assert c == q * b + r && r < b;
    assert q == 2 * d + e && e <= 1;
    Distributes(2 * d, e, b);
    assert e * b <= b by {
      MulMonotone(e, 1, b);
    }
    assert d * (2 * b) == (2 * d) * b;
    Distributes(2 * d, 2, b);
    assert (d + 1) * (2 * b) == (2 * d) * b + 2 * b;
  }

  /**
   * The autoreload value ChangeBaud computes: half a bit period in ticks of
   * the prescaled timer clock, rounded down (0 for a zero baud rate).
   */
  function BaudDivisor(prescaler: nat, baud: nat): (d: nat)
    ensures baud == 0 ==> d == 0
    ensures baud > 0 ==> d * (2 * baud) <= MASTER_CLOCK / (prescaler + 1) < (d + 1) * (2 * baud)
  {
    var clockRate := MASTER_CLOCK / (prescaler + 1);
    assert baud > 0 ==> UDiv(clockRate, baud) / 2 * (2 * baud) <= clockRate < (UDiv(clockRate, baud) / 2 + 1) * (2 * baud) by {
      if baud > 0 {
        HalvedQuotient(clockRate, baud);
      }
    }
    UDiv(UDiv(clockRate, baud), 2)
  }

  /** TIM_SetAutoreload takes a 16-bit value: the divisor as the timer holds it. */
  function AutoReload(prescaler: nat, baud: nat): (arr: nat)
    ensures arr < UINT16_MODULUS
    ensures BaudDivisor(prescaler, baud) < UINT16_MODULUS ==> arr == BaudDivisor(prescaler, baud)
  {
    BaudDivisor(prescaler, baud) % UINT16_MODULUS
  }

  /** At the default 4800 baud and an undivided 72 MHz clock a half bit lasts 7500 ticks. */
  lemma DefaultBaudReload()
    ensures AutoReload(0, DEFAULT_BAUD) == 7500
  {
    assert MASTER_CLOCK / 1 / DEFAULT_BAUD == 15000;
  }

  // ---------------------------------------------------------------------
  // The device record as a value
  // ---------------------------------------------------------------------

  /** The fields of pios_softusart_dev the two handlers update, and the level driven on the TX pin. */
  datatype Uart = Uart(
    status: set<Flag>,
    txPhase: bool, txBit: nat, txData: bv8, txLine: bool,
    rxPhase: bool, rxBit: nat, rxSamp: nat, rxBuff: bv8, rxDropped: nat)

  /**
   * The invariant of the record: the bit counters stay within a frame, the
   * sample count within three samples, rx_dropped within 32 bits; the device
   * never transmits and receives at once; the data register of a frame in
   * flight is full; an idle transmitter is at bit 0.
   */
  predicate Consistent(u: Uart)
  {
    && u.txBit <= FRAME_END && u.rxBit <= FRAME_END && u.rxSamp <= 3 && u.rxDropped < UINT32_MODULUS
    && !(TestStatus(u.status, TransmitInProgress) && TestStatus(u.status, ReceiveInProgress))
    && (TestStatus(u.status, TransmitInProgress) ==> !TestStatus(u.status, TransmitDataRegEmpty))
    && (!TestStatus(u.status, TransmitInProgress) ==> u.txBit == 0)
  }

  /** The interrupt is served: the device is active and the channel index is in range. */
  predicate ChannelInRange(channel: nat, halfDuplex: bool)
  {
    channel < (if halfDuplex then 1 else 2)
  }

  // ---------------------------------------------------------------------
  // Transmitter
  // ---------------------------------------------------------------------

  /** The level of bit k of a frame: the start bit low, the data bits least significant first, the stop bit high. */
  function TxLevel(data: bv8, k: nat): bool
    requires k <= FRAME_END
  {
    if k == 0 then false
    else if k <= DATA_LENGTH then data & Msk(k - 1) != 0
    else true
  }

  /** TxStart: a byte from the COM layer is loaded only into an empty data register. */
  function TxLoad(u: Uart, fetched: Option<bv8>): (r: Uart)
    requires Consistent(u)
    ensures Consistent(r)
    ensures TestStatus(u.status, TransmitDataRegEmpty) && fetched.Some? ==>
              r == u.(txData := fetched.value, status := u.status - {TransmitDataRegEmpty})
    ensures !(TestStatus(u.status, TransmitDataRegEmpty) && fetched.Some?) ==> r == u
  {
    if TestStatus(u.status, TransmitDataRegEmpty) && fetched.Some? then
      u.(txData := fetched.value, status := ClrStatus(u.status, TransmitDataRegEmpty))
    else u
  }

  /** The end of a frame: back to bit 0, the next byte (if any) loaded, and the transmitter idle. */
  function FrameEnd(u: Uart, next: Option<bv8>): Uart
  {
    match next
    case Some(b) =>
      u.(txPhase := false, txBit := 0, txData := b,
         status := ClrStatus(SetStatus(ClrStatus(u.status, TransmitDataRegEmpty), TransmitInProgress), TransmitInProgress))
    case None =>
      u.(txPhase := false, txBit := 0, status := ClrStatus(u.status, TransmitInProgress))
  }

  /** The receiver's part of the record, which the transmitter leaves alone. */
  function ReceiverOf(u: Uart): (bool, nat, nat, bv8, nat)
  {
    (u.rxPhase, u.rxBit, u.rxSamp, u.rxBuff, u.rxDropped)
  }

  /** Bit txBit on the TX pin; the stop bit also marks the data register empty. */
  function Driven(u: Uart): (r: Uart)
    requires u.txBit <= FRAME_END
    ensures r.txLine == TxLevel(u.txData, u.txBit)
    ensures r.status == if u.txBit == DATA_LENGTH + 1 then u.status + {TransmitDataRegEmpty} else u.status
    ensures r == u.(txLine := r.txLine, status := r.status)
  {
    u.(txLine := TxLevel(u.txData, u.txBit),
       status := if u.txBit == DATA_LENGTH + 1 then SetStatus(u.status, TransmitDataRegEmpty) else u.status)
  }

  /**
   * A phase tick of a frame in flight: bit txBit is driven, the stop bit
   * empties the data register, and after the stop bit the frame ends with
   * the next byte loaded (if the COM layer has one) but, under SLOW_STREAM,
   * not yet started.
   */
  function SendBit(u: Uart, next: Option<bv8>): (r: Uart)
    requires Consistent(u) && TestStatus(u.status, TransmitInProgress)
    ensures Consistent(r)
    ensures ReceiverOf(r) == ReceiverOf(u)
    ensures r.txLine == TxLevel(u.txData, u.txBit)
    ensures u.txBit < FRAME_END ==> r == u.(txLine := r.txLine, txBit := u.txBit + 1)
    ensures u.txBit == FRAME_END ==>
              && r.txBit == 0 && !r.txPhase && !TestStatus(r.status, TransmitInProgress)
              && (TestStatus(r.status, TransmitDataRegEmpty) <==> next.None?)
              && (next.Some? ==> r.txData == next.value)
  {
    var driven := Driven(u);
    if u.txBit < FRAME_END then driven.(txBit := u.txBit + 1) else FrameEnd(driven, next)
  }

  /** A phase tick of an idle transmitter: a frame starts at bit 0 when the data register is full and no reception runs. */
  function StartFrame(u: Uart): (r: Uart)
    requires Consistent(u) && !TestStatus(u.status, TransmitInProgress)
    ensures Consistent(r)
    ensures ReceiverOf(r) == ReceiverOf(u) && r.txBit == 0 && r.txData == u.txData && r.txLine == u.txLine
    ensures TestStatus(r.status, TransmitInProgress) <==>
              !TestStatus(u.status, TransmitDataRegEmpty) && !TestStatus(u.status, ReceiveInProgress)
    ensures TestStatus(r.status, TransmitInProgress) ==> !r.txPhase
    ensures !TestStatus(r.status, TransmitInProgress) ==> r == u
  {
    if !TestStatus(u.status, TransmitDataRegEmpty) && !TestStatus(u.status, ReceiveInProgress) then
      u.(txPhase := false, txBit := 0, status := SetStatus(u.status, TransmitInProgress))
    else u
  }

  /**
   * tim_overflow_cb on a served interrupt: on a phase tick the frame in
   * flight sends a bit or an idle transmitter may start a frame; every
   * served interrupt then flips the phase.
   */
  function OverflowTick(u: Uart, served: bool, next: Option<bv8>): (r: Uart)
    requires Consistent(u)
    ensures Consistent(r)
    ensures ReceiverOf(r) == ReceiverOf(u)
    ensures !served ==> r == u
    ensures served && !u.txPhase ==> r == u.(txPhase := true)
  {
    if !served then u
    else
      var v :=
        if !u.txPhase then u
        else if TestStatus(u.status, TransmitInProgress) then SendBit(u, next)
        else StartFrame(u);
      assert Consistent(v) && ReceiverOf(v) == ReceiverOf(u);
      v.(txPhase := !v.txPhase)
  }

  // ---------------------------------------------------------------------
  // Receiver
  // ---------------------------------------------------------------------

  /** The three reads of the RX pin in the middle of a bit. */
  datatype Samples = Samples(first: bool, second: bool, third: bool)

  /** Three reads of a line held at one level. */
  function Steady(level: bool): Samples
  {
    Samples(level, level, level)
  }

  /** rx_samp: how many of the three reads were high. */
  function HighCount(s: Samples): (n: nat)
    ensures n <= 3
    ensures n == 0 <==> !s.first && !s.second && !s.third
    ensures n == 3 <==> s.first && s.second && s.third
  {
    (if s.first then 1 else 0) + (if s.second then 1 else 0) + (if s.third then 1 else 0)
  }

  /** The record after an edge interrupt, and the byte handed to the COM layer, if one was. */
  datatype RxResult = RxResult(u: Uart, delivered: Option<bv8>)

  /** The transmitter's part of the record, which the receiver leaves alone. */
  function TransmitterOf(u: Uart): (bool, nat, bv8, bool)
  {
    (u.txPhase, u.txBit, u.txData, u.txLine)
  }

  /** The receive buffer with data bit k (1 to DATA_LENGTH) set when it was read high. */
  function AddBit(buff: bv8, k: nat, high: bool): (r: bv8)
    requires 1 <= k <= DATA_LENGTH
  {
    if high then buff | Msk(k - 1) else buff
  }

  /** A sampling interrupt at the start bit: only a line read low on all three reads continues the frame. */
  function StartBitSample(u: Uart): (r: Uart)
    requires Consistent(u) && TestStatus(u.status, ReceiveInProgress) && u.rxBit == 0
    ensures Consistent(r)
    ensures u.rxSamp == 0 ==> r == u.(rxBit := 1, rxBuff := 0)
    ensures u.rxSamp > 0 ==> r == u.(status := u.status - {ReceiveInProgress})
  {
    if u.rxSamp == 0 then u.(rxBit := 1, rxBuff := 0)
    else u.(status := ClrStatus(u.status, ReceiveInProgress))
  }

  /**
   * A sampling interrupt at data bit rxBit: the bit is decided by majority,
   * two or three high reads setting it, and one or two high reads flag noise.
   */
  function DataBitSample(u: Uart): (r: Uart)
    requires Consistent(u) && TestStatus(u.status, ReceiveInProgress) && 0 < u.rxBit <= DATA_LENGTH
    ensures Consistent(r)
    ensures r.rxBuff == AddBit(u.rxBuff, u.rxBit, u.rxSamp >= 2)
    ensures r.status == if u.rxSamp == 1 || u.rxSamp == 2 then u.status + {ReceiveNoiseError} else u.status
    ensures r.rxBit == u.rxBit + 1
    ensures r == u.(status := r.status, rxBuff := r.rxBuff, rxBit := r.rxBit)
  {
    var noisy := if u.rxSamp == 1 || u.rxSamp == 2 then SetStatus(u.status, ReceiveNoiseError) else u.status;
    var buff := AddBit(u.rxBuff, u.rxBit, u.rxSamp >= 2);
    u.(status := noisy, rxBuff := buff, rxBit := u.rxBit + 1)
  }

  /**
   * A sampling interrupt at the stop bit: anything but three high reads
   * flags a framing error (one or two also noise), the byte is handed to the
   * COM layer and the reception ends; a byte the COM layer refuses counts as
   * dropped and flags an overflow.
   */
  function StopBitSample(u: Uart, accepted: bool): (r: RxResult)
    requires Consistent(u) && TestStatus(u.status, ReceiveInProgress) && u.rxBit == FRAME_END
    ensures Consistent(r.u)
    ensures r.delivered == Some(u.rxBuff)
    ensures !TestStatus(r.u.status, ReceiveInProgress)
    ensures TestStatus(r.u.status, ReceiveFrameError) <==> TestStatus(u.status, ReceiveFrameError) || u.rxSamp != 3
    ensures TestStatus(r.u.status, ReceiveNoiseError) <==> TestStatus(u.status, ReceiveNoiseError) || u.rxSamp == 1 || u.rxSamp == 2
    ensures r.u.rxDropped == if accepted then u.rxDropped else (u.rxDropped + 1) % UINT32_MODULUS
    ensures TestStatus(r.u.status, ReceiveBufferOverflow) <==> TestStatus(u.status, ReceiveBufferOverflow) || !accepted
  {
    var noisy := if u.rxSamp == 1 || u.rxSamp == 2 then SetStatus(u.status, ReceiveNoiseError) else u.status;
    var framed := if u.rxSamp != 3 then SetStatus(noisy, ReceiveFrameError) else noisy;
    var dropped := if accepted then u.rxDropped else (u.rxDropped + 1) % UINT32_MODULUS;
    var flagged := if accepted then framed else SetStatus(framed, ReceiveBufferOverflow);
    RxResult(u.(status := ClrStatus(flagged, ReceiveInProgress), rxDropped := dropped), Some(u.rxBuff))
  }

  /** A sampling interrupt with n high reads: the start bit, a data bit or the stop bit. */
  function SampleBit(u: Uart, n: nat, accepted: bool): (r: RxResult)
    requires Consistent(u) && n <= 3 && TestStatus(u.status, ReceiveInProgress)
    ensures Consistent(r.u)
    ensures TransmitterOf(r.u) == TransmitterOf(u) && r.u.rxPhase == u.rxPhase && r.u.rxSamp == n
    ensures r.delivered.Some? ==> u.rxBit == FRAME_END
  {
    var counted := u.(rxSamp := n);
    if u.rxBit == 0 then RxResult(StartBitSample(counted), None)
    else if u.rxBit <= DATA_LENGTH then RxResult(DataBitSample(counted), None)
    else StopBitSample(counted, accepted)
  }

  /**
   * tim_edge_cb on a served interrupt.  While a reception runs (and no
   * transmission) every other interrupt samples the line and every
   * interrupt flips the phase; otherwise, unless a transmission runs, the
   * interrupt is the edge of a start bit and starts a reception at bit 0.
   */
  function EdgeTick(u: Uart, served: bool, s: Samples, accepted: bool): (r: RxResult)
    requires Consistent(u)
    ensures Consistent(r.u)
    ensures TransmitterOf(r.u) == TransmitterOf(u)
    ensures !served ==> r == RxResult(u, None)
    ensures r.delivered.Some? ==> served && !u.rxPhase && u.rxBit == FRAME_END
    ensures served && !TestStatus(u.status, ReceiveInProgress) && !TestStatus(u.status, TransmitInProgress) ==>
              r.u == u.(status := SetStatus(u.status, ReceiveInProgress), rxBit := 0, rxPhase := false)
    ensures served && TestStatus(u.status, ReceiveInProgress) && u.rxPhase ==>
              r == RxResult(u.(rxPhase := false), None)
  {
    if !served then RxResult(u, None)
    else if TestStatus(u.status, ReceiveInProgress) && !TestStatus(u.status, TransmitInProgress) then
      var v := if !u.rxPhase then SampleBit(u, HighCount(s), accepted) else RxResult(u, None);
      RxResult(v.u.(rxPhase := !v.u.rxPhase), v.delivered)
    else if !TestStatus(u.status, TransmitInProgress) then
      RxResult(u.(status := SetStatus(u.status, ReceiveInProgress), rxBit := 0, rxPhase := false), None)
    else RxResult(u, None)
  }

  // ---------------------------------------------------------------------
  // A frame on the wire
  // ---------------------------------------------------------------------

  /** The TX pin after each of n served overflow interrupts. */
  function TxTrace(u: Uart, n: nat, next: Option<bv8>): (levels: seq<bool>)
    requires Consistent(u)
    ensures |levels| == n
    decreases n
  {
    if n == 0 then []
    else
      var v := OverflowTick(u, true, next);
      [v.txLine] + TxTrace(v, n - 1, next)
  }

  /** Bits k to FRAME_END of a frame, two interrupts per bit but one for the stop bit. */
  function FrameLevels(data: bv8, k: nat): (levels: seq<bool>)
    requires k <= FRAME_END
    ensures |levels| == 2 * (FRAME_END - k) + 1
    decreases FRAME_END - k
  {
    if k == FRAME_END then [TxLevel(data, FRAME_END)]
    else [TxLevel(data, k), TxLevel(data, k)] + FrameLevels(data, k + 1)
  }

  /** A frame in flight at bit k, on the phase tick that drives it. */
  predicate SendingBit(u: Uart, k: nat)
  {
    Consistent(u) && TestStatus(u.status, TransmitInProgress) && u.txPhase && u.txBit == k
  }

  /** The two interrupts of bit k (before the stop bit): the first drives it, the second holds it, then bit k + 1 is next. */
  lemma SendDataBit(u: Uart, k: nat, next: Option<bv8>)
    requires SendingBit(u, k) && k < FRAME_END
    ensures OverflowTick(u, true, next).txLine == TxLevel(u.txData, k)
    ensures OverflowTick(OverflowTick(u, true, next), true, next).txLine == TxLevel(u.txData, k)
    ensures SendingBit(OverflowTick(OverflowTick(u, true, next), true, next), k + 1)
    ensures OverflowTick(OverflowTick(u, true, next), true, next).txData == u.txData
  {
    var v := OverflowTick(u, true, next);
    assert v == SendBit(u, next).(txPhase := false);
  }

  /** Two more interrupts put two more levels on the trace. */
  lemma TraceTwo(u: Uart, n: nat, next: Option<bv8>)
    requires Consistent(u)
    ensures TxTrace(u, n + 2, next)
            == [OverflowTick(u, true, next).txLine, OverflowTick(OverflowTick(u, true, next), true, next).txLine]
               + TxTrace(OverflowTick(OverflowTick(u, true, next), true, next), n, next)
  {
  }

  /** The interrupt of the stop bit drives the line high. */
  lemma SendStopBit(u: Uart, next: Option<bv8>)
    requires SendingBit(u, FRAME_END)
    ensures TxTrace(u, 1, next) == FrameLevels(u.txData, FRAME_END)
  {
    assert OverflowTick(u, true, next).txLine == SendBit(u, next).txLine;
  }

  /** The trace from bit k is bit k twice, then the trace from bit k + 1. */
  lemma TransmitStep(u: Uart, k: nat, next: Option<bv8>)
    requires SendingBit(u, k) && k < FRAME_END
    ensures SendingBit(OverflowTick(OverflowTick(u, true, next), true, next), k + 1)
    ensures OverflowTick(OverflowTick(u, true, next), true, next).txData == u.txData
    ensures TxTrace(u, 2 * (FRAME_END - k) + 1, next)
            == [TxLevel(u.txData, k), TxLevel(u.txData, k)]
               + TxTrace(OverflowTick(OverflowTick(u, true, next), true, next), 2 * (FRAME_END - (k + 1)) + 1, next)
  {
    SendDataBit(u, k, next);
    TraceTwo(u, 2 * (FRAME_END - (k + 1)) + 1, next);
  }

  /**
   * From the tick that drives bit k, the TX pin carries each remaining bit
   * of the frame for two interrupts, up to the tick that drives the stop bit.
   */
  lemma {:induction false} TransmitFrom(u: Uart, k: nat, next: Option<bv8>)
    requires k <= FRAME_END && SendingBit(u, k)
    ensures TxTrace(u, 2 * (FRAME_END - k) + 1, next) == FrameLevels(u.txData, k)
    decreases FRAME_END - k
  {
    if k == FRAME_END {
      SendStopBit(u, next);
    } else {
      TransmitStep(u, k, next);
      TransmitFrom(OverflowTick(OverflowTick(u, true, next), true, next), k + 1, next);
    }
  }

  /** The samples a receiver reads from a sequence of line levels. */
  function Sampled(levels: seq<bool>): (ss: seq<Samples>)
    ensures |ss| == |levels|
  {
    seq(|levels|, i requires 0 <= i < |levels| => Steady(levels[i]))
  }

  /** The record after a run of served edge interrupts, and the bytes handed over on the way. */
  datatype Run = Run(u: Uart, received: seq<bv8>)

  function RunEdges(u: Uart, ss: seq<Samples>, accepted: bool): (r: Run)
    requires Consistent(u)
    ensures Consistent(r.u)
    decreases |ss|
  {
    if ss == [] then Run(u, [])
    else
      var t := EdgeTick(u, true, ss[0], accepted);
      var rest := RunEdges(t.u, ss[1..], accepted);
      Run(rest.u, (if t.delivered.Some? then [t.delivered.value] else []) + rest.received)
  }

  /** A reception at bit k on the interrupt that samples it, with the first k - 1 data bits assembled. */
  predicate ReceivingBit(u: Uart, data: bv8, k: nat)
  {
    && Consistent(u) && TestStatus(u.status, ReceiveInProgress) && !u.rxPhase
    && 1 <= k <= FRAME_END && u.rxBit == k
    && Assembled(u.rxBuff, data, k - 1)
  }

  /** The receive buffer holds the low k bits of data, the bits of a frame come least significant first. */
  predicate Assembled(buff: bv8, data: bv8, k: nat)
    requires k <= DATA_LENGTH
  {
    buff == data & LowMask(k)
  }

  /** The samples of the rest of a frame from bit k: bit k read on two interrupts, then the bits after it. */
  lemma SampledFrameStep(data: bv8, k: nat)
    requires k < FRAME_END
    ensures Sampled(FrameLevels(data, k)) == [Steady(TxLevel(data, k)), Steady(TxLevel(data, k))] + Sampled(FrameLevels(data, k + 1))
  {
    var a := FrameLevels(data, k);
    var b := Sampled(a);
    var c := [Steady(TxLevel(data, k)), Steady(TxLevel(data, k))] + Sampled(FrameLevels(data, k + 1));
    forall i | 0 <= i < |b|
      ensures b[i] == c[i]
    {
      if i >= 2 {
        assert a[i] == FrameLevels(data, k + 1)[i - 2];
      }
    }
  }

  /** A served interrupt that hands nothing over leaves the run to continue from the state after it. */
  lemma QuietOne(u: Uart, s1: Samples, rest: seq<Samples>, accepted: bool)
    requires Consistent(u) && EdgeTick(u, true, s1, accepted).delivered == None
    ensures RunEdges(u, [s1] + rest, accepted) == RunEdges(EdgeTick(u, true, s1, accepted).u, rest, accepted)
  {
    assert ([s1] + rest)[0] == s1 && ([s1] + rest)[1..] == rest;
  }

  /** Two served interrupts that hand nothing over leave the run to continue from the state after them. */
  lemma QuietPair(u: Uart, s1: Samples, s2: Samples, rest: seq<Samples>, accepted: bool)
    requires Consistent(u)
    requires EdgeTick(u, true, s1, accepted).delivered == None
    requires EdgeTick(EdgeTick(u, true, s1, accepted).u, true, s2, accepted).delivered == None
    ensures RunEdges(u, [s1, s2] + rest, accepted)
            == RunEdges(EdgeTick(EdgeTick(u, true, s1, accepted).u, true, s2, accepted).u, rest, accepted)
  {
    QuietOne(u, s1, [s2] + rest, accepted);
    QuietOne(EdgeTick(u, true, s1, accepted).u, s2, rest, accepted);
    assert [s1, s2] + rest == [s1] + ([s2] + rest);
  }

  /** The interrupt that samples a data bit on a steady line adds the bit and moves on, handing nothing over. */
  lemma DataBitTick(u: Uart, level: bool, accepted: bool)
    requires Consistent(u) && TestStatus(u.status, ReceiveInProgress) && !u.rxPhase && 1 <= u.rxBit <= DATA_LENGTH
    ensures EdgeTick(u, true, Steady(level), accepted).delivered == None
    ensures EdgeTick(u, true, Steady(level), accepted).u.rxPhase
    ensures EdgeTick(u, true, Steady(level), accepted).u.rxBit == u.rxBit + 1
    ensures TestStatus(EdgeTick(u, true, Steady(level), accepted).u.status, ReceiveInProgress)
    ensures EdgeTick(u, true, Steady(level), accepted).u.rxBuff == AddBit(u.rxBuff, u.rxBit, level)
  {
    var n := HighCount(Steady(level));
    assert n == if level then 3 else 0;
    var d := DataBitSample(u.(rxSamp := n));
    assert SampleBit(u, n, accepted) == RxResult(d, None);
  }

  /** The two interrupts of data bit k assemble it and move to bit k + 1, handing nothing over. */
  lemma ReceiveDataBit(u: Uart, data: bv8, k: nat, accepted: bool)
    requires ReceivingBit(u, data, k) && k < FRAME_END
    ensures EdgeTick(u, true, Steady(TxLevel(data, k)), accepted).delivered == None
    ensures EdgeTick(EdgeTick(u, true, Steady(TxLevel(data, k)), accepted).u, true, Steady(TxLevel(data, k)), accepted).delivered == None
    ensures ReceivingBit(EdgeTick(EdgeTick(u, true, Steady(TxLevel(data, k)), accepted).u, true, Steady(TxLevel(data, k)), accepted).u, data, k + 1)
  {
    var t := EdgeTick(u, true, Steady(TxLevel(data, k)), accepted);
    DataBitTick(u, TxLevel(data, k), accepted);
    AssembledBit(data, u.rxBuff, k);
    var t2 := EdgeTick(t.u, true, Steady(TxLevel(data, k)), accepted);
    assert t2 == RxResult(t.u.(rxPhase := false), None);
  }

  /** The interrupt of the stop bit hands over the assembled byte and ends the reception. */
  lemma ReceiveStopBit(u: Uart, data: bv8, accepted: bool)
    requires ReceivingBit(u, data, FRAME_END)
    ensures RunEdges(u, [Steady(TxLevel(data, FRAME_END))], accepted).received == [data]
    ensures !TestStatus(RunEdges(u, [Steady(TxLevel(data, FRAME_END))], accepted).u.status, ReceiveInProgress)
  {
    assert LowMask(DATA_LENGTH) == 0xFF;
    assert EdgeTick(u, true, Steady(true), accepted).delivered == Some(data);
  }

  /** Data bit k, as the receiver samples it, added to the low k - 1 bits gives the low k bits. */
  lemma AssembledBit(data: bv8, buff: bv8, k: nat)
    requires 1 <= k <= DATA_LENGTH && Assembled(buff, data, k - 1)
    ensures Assembled(AddBit(buff, k, TxLevel(data, k)), data, k)
  {
  }

  /**
   * From the interrupt that samples bit k, a receiver reading the levels of
   * the rest of the frame hands over exactly the byte, and ends the reception.
   */
  lemma {:induction false} ReceiveFrom(u: Uart, data: bv8, k: nat, accepted: bool)
    requires ReceivingBit(u, data, k)
    ensures RunEdges(u, Sampled(FrameLevels(data, k)), accepted).received == [data]
    ensures !TestStatus(RunEdges(u, Sampled(FrameLevels(data, k)), accepted).u.status, ReceiveInProgress)
    decreases FRAME_END - k
  {
    if k == FRAME_END {
      assert Sampled(FrameLevels(data, k)) == [Steady(TxLevel(data, FRAME_END))];
      ReceiveStopBit(u, data, accepted);
    } else {
      var s := Steady(TxLevel(data, k));
      SampledFrameStep(data, k);
      ReceiveDataBit(u, data, k, accepted);
      QuietPair(u, s, s, Sampled(FrameLevels(data, k + 1)), accepted);
      ReceiveFrom(EdgeTick(EdgeTick(u, true, s, accepted).u, true, s, accepted).u, data, k + 1, accepted);
    }
  }

  /** The falling edge of a start bit on an idle receiver starts a reception at bit 0. */
  lemma StartReception(u: Uart, accepted: bool)
    requires Idle(u)
    ensures EdgeTick(u, true, Steady(false), accepted).delivered == None
    ensures var r := EdgeTick(u, true, Steady(false), accepted).u;
            Consistent(r) && TestStatus(r.status, ReceiveInProgress) && !r.rxPhase && r.rxBit == 0
  {
  }

  /** The two interrupts of the start bit, read low, begin the assembly at data bit 1 with an empty buffer. */
  lemma ReceiveStartBit(u: Uart, data: bv8, accepted: bool)
    requires Consistent(u) && TestStatus(u.status, ReceiveInProgress) && !u.rxPhase && u.rxBit == 0
    ensures EdgeTick(u, true, Steady(false), accepted).delivered == None
    ensures EdgeTick(EdgeTick(u, true, Steady(false), accepted).u, true, Steady(false), accepted).delivered == None
    ensures ReceivingBit(EdgeTick(EdgeTick(u, true, Steady(false), accepted).u, true, Steady(false), accepted).u, data, 1)
  {
    var t := EdgeTick(u, true, Steady(false), accepted);
    assert SampleBit(u, 0, accepted) == RxResult(u.(rxSamp := 0, rxBit := 1, rxBuff := 0), None);
    assert t.u.rxBuff == 0 && t.u.rxPhase;
    assert Assembled(0, data, 0);
  }

  /** The transmitter starts a frame on the phase tick after the data register was loaded. */
  predicate FrameStarting(u: Uart)
  {
    SendingBit(u, 0)
  }

  /** Neither a transmission nor a reception runs: the next edge is a start bit. */
  predicate Idle(u: Uart)
  {
    Consistent(u) && !TestStatus(u.status, ReceiveInProgress) && !TestStatus(u.status, TransmitInProgress)
  }

  /**
   * The round trip of a frame: a receiver that sees the falling edge of the
   * start bit and then samples the levels the transmitter drives for the
   * whole frame hands over exactly the byte that was sent, once, and goes
   * back to waiting for a start bit.
   */
  lemma TransmitThenReceive(tx: Uart, rx: Uart, next: Option<bv8>, accepted: bool)
    requires FrameStarting(tx) && Idle(rx)
    ensures RunEdges(rx, [Steady(false)] + Sampled(TxTrace(tx, 2 * FRAME_END + 1, next)), accepted).received == [tx.txData]
    ensures !TestStatus(RunEdges(rx, [Steady(false)] + Sampled(TxTrace(tx, 2 * FRAME_END + 1, next)), accepted).u.status,
                        ReceiveInProgress)
  {
    var data := tx.txData;
    var low := Steady(false);
    TransmitFrom(tx, 0, next);
    SampledFrameStep(data, 0);
    var rest := Sampled(FrameLevels(data, 1));
    var started := EdgeTick(rx, true, low, accepted);
    StartReception(rx, accepted);
    QuietOne(rx, low, [low, low] + rest, accepted);
    ReceiveStartBit(started.u, data, accepted);
    QuietPair(started.u, low, low, rest, accepted);
    ReceiveFrom(EdgeTick(EdgeTick(started.u, true, low, accepted).u, true, low, accepted).u, data, 1, accepted);
  }

  // ---------------------------------------------------------------------
  // The device
  // ---------------------------------------------------------------------

  class SoftUsartDevice {
    /** cfg->half_duplex and the prescalers of the RX and TX timers. */
    const halfDuplex: bool
    const rxPrescaler: nat
    const txPrescaler: nat

    var active: bool
    var status: set<Flag>
    var txPhase: bool
    var txBit: nat
    var txData: bv8
    /** The level last driven on the TX pin. */
    var txLine: bool
    var rxPhase: bool
    var rxBit: nat
    var rxSamp: nat
    var rxBuff: bv8
    var rxDropped: nat
    /**
     * The autoreload registers of the RX and TX timers.  A half-duplex
     * device runs both directions on the RX timer and has no TX timer of its
     * own: its txReload is never programmed and keeps the 0 of the
     * zero-filled record.
     */
    var rxReload: nat
    var txReload: nat

    function Snapshot(): Uart
      reads this
    {
      Uart(status, txPhase, txBit, txData, txLine, rxPhase, rxBit, rxSamp, rxBuff, rxDropped)
    }

    ghost predicate Valid()
      reads this
    {
      Consistent(Snapshot()) && rxReload < UINT16_MODULUS && txReload < UINT16_MODULUS
    }

    /**
     * PIOS_SOFTUSART_Init on a zero-filled device: active, 4800 baud, the
     * data register empty and nothing in flight.
     */
    constructor (halfDuplex: bool, rxPrescaler: nat, txPrescaler: nat)
      ensures Valid()
      ensures this.halfDuplex == halfDuplex && this.rxPrescaler == rxPrescaler && this.txPrescaler == txPrescaler
      ensures active && status == {TransmitDataRegEmpty}
      ensures rxReload == AutoReload(rxPrescaler, DEFAULT_BAUD)
      ensures txReload == (if halfDuplex then 0 else AutoReload(txPrescaler, DEFAULT_BAUD))
      ensures txBit == 0 && rxBit == 0 && rxDropped == 0 && !txPhase && !rxPhase
    {
      this.halfDuplex := halfDuplex;
      this.rxPrescaler := rxPrescaler;
      this.txPrescaler := txPrescaler;
      active := true;
      status := SetStatus({}, TransmitDataRegEmpty);
      txPhase, txBit, txData, txLine := false, 0, 0, true;
      rxPhase, rxBit, rxSamp, rxBuff, rxDropped := false, 0, 0, 0, 0;
      rxReload := AutoReload(rxPrescaler, DEFAULT_BAUD);
      txReload := if halfDuplex then 0 else AutoReload(txPrescaler, DEFAULT_BAUD);
    }

    /** PIOS_SOFTUSART_ChangeBaud: the RX timer, and the TX timer unless it is the same one, get the new divisor. */
    method ChangeBaud(baud: nat)
      requires Valid()
      modifies this
      ensures Valid()
      ensures rxReload == AutoReload(rxPrescaler, baud)
      ensures txReload == (if halfDuplex then old(txReload) else AutoReload(txPrescaler, baud))
      ensures Snapshot() == old(Snapshot()) && active == old(active)
    {
      var clockRate := MASTER_CLOCK / (rxPrescaler + 1);
      var divisor := UDiv(UDiv(clockRate, baud), 2);
      rxReload := divisor % UINT16_MODULUS;
      if !halfDuplex {
        clockRate := MASTER_CLOCK / (txPrescaler + 1);
        divisor := UDiv(UDiv(clockRate, baud), 2);
        txReload := divisor % UINT16_MODULUS;
      }
    }

    /** PIOS_SOFTUSART_TxStart, with `fetched` the byte the COM layer's callback hands over (None: no callback or no byte). */
    method TxStart(fetched: Option<bv8>)
      requires Valid()
      modifies this
      ensures Valid()
      ensures Snapshot() == TxLoad(old(Snapshot()), fetched)
      ensures active == old(active) && rxReload == old(rxReload) && txReload == old(txReload)
    {
      if TestStatus(status, TransmitDataRegEmpty) {
        if fetched.Some? {
          txData := fetched.value;
          status := ClrStatus(status, TransmitDataRegEmpty);
        }
      }
    }

    /** The bit switch of tim_overflow_cb: drive bit txBit, and mark the data register empty at the stop bit. */
    method DriveBit()
      requires Valid() && TestStatus(status, TransmitInProgress)
      modifies this
      ensures Snapshot() == Driven(old(Snapshot()))
      ensures active == old(active) && rxReload == old(rxReload) && txReload == old(txReload)
    {
      if txBit == 0 {
        txLine := false;
      } else if txBit == DATA_LENGTH + 1 || txBit == DATA_LENGTH + 2 {
        if txBit == DATA_LENGTH + 1 {
          status := SetStatus(status, TransmitDataRegEmpty);
        }
        txLine := true;
      } else {
        MskTable(txBit - 1);
        txLine := txData & MSK_TAB[txBit - 1] != 0;
      }
    }

    /** The phase tick of a frame in flight: drive the bit, then move to the next one or end the frame. */
    method SendCurrentBit(next: Option<bv8>)
      requires Valid() && TestStatus(status, TransmitInProgress)
      modifies this
      ensures Snapshot() == SendBit(old(Snapshot()), next)
      ensures active == old(active) && rxReload == old(rxReload) && txReload == old(txReload)
    {
      DriveBit();
      if txBit >= FRAME_END {
        txPhase := false;
        txBit := 0;
        // The stop bit has just emptied the data register.
        assert TestStatus(status, TransmitDataRegEmpty);
        match next {
          case Some(b) =>
            txData := b;
            status := ClrStatus(status, TransmitDataRegEmpty);
            status := SetStatus(status, TransmitInProgress);
            // SLOW_STREAM: the next frame is started by a later tick.
            status := ClrStatus(status, TransmitInProgress);
          case None =>
            status := ClrStatus(status, TransmitInProgress);
        }
      } else {
        txBit := txBit + 1;
      }
    }

    /**
     * PIOS_SOFTUSART_tim_overflow_cb, with `next` the byte the COM layer's
     * callback hands over at the end of a frame (None: no byte).
     */
    method TimerOverflow(channel: nat, next: Option<bv8>)
      requires Valid()
      modifies this
      ensures Valid()
      ensures Snapshot() == OverflowTick(old(Snapshot()), old(active) && ChannelInRange(channel, halfDuplex), next)
      ensures active == old(active) && rxReload == old(rxReload) && txReload == old(txReload)
    {
      if !active || !ChannelInRange(channel, halfDuplex) {
        return;
      }
      if txPhase {
        if TestStatus(status, TransmitInProgress) {
          SendCurrentBit(next);
        } else if !TestStatus(status, TransmitDataRegEmpty) && !TestStatus(status, ReceiveInProgress) {
          txPhase := false;
          txBit := 0;
          status := SetStatus(status, TransmitInProgress);
        }
      }
      txPhase := !txPhase;
    }

    /** The start bit: three low reads continue the frame with an empty buffer, anything else waits for the next start bit. */
    method SampleStartBit()
      requires Valid() && TestStatus(status, ReceiveInProgress) && rxBit == 0
      modifies this
      ensures Snapshot() == StartBitSample(old(Snapshot()))
      ensures active == old(active) && rxReload == old(rxReload) && txReload == old(txReload)
    {
      if rxSamp == 0 {
        rxBit := 1;
        rxBuff := 0;
      } else {
        status := ClrStatus(status, ReceiveInProgress);
      }
    }

    /** A data bit: the majority of the three reads decides it. */
    method SampleDataBit()
      requires Valid() && TestStatus(status, ReceiveInProgress) && 0 < rxBit <= DATA_LENGTH
      modifies this
      ensures Snapshot() == DataBitSample(old(Snapshot()))
      ensures active == old(active) && rxReload == old(rxReload) && txReload == old(txReload)
    {
      if rxSamp == 1 || rxSamp == 2 {
        status := SetStatus(status, ReceiveNoiseError);
      }
      if rxSamp >= 2 {
        MskTable(rxBit - 1);
        rxBuff := rxBuff | MSK_TAB[rxBit - 1];
      }
      rxBit := rxBit + 1;
    }

    /** The stop bit: check it, hand the byte over and end the reception. */
    method SampleStopBit(accepted: bool) returns (delivered: Option<bv8>)
      requires Valid() && TestStatus(status, ReceiveInProgress) && rxBit == FRAME_END
      modifies this
      ensures RxResult(Snapshot(), delivered) == StopBitSample(old(Snapshot()), accepted)
      ensures active == old(active) && rxReload == old(rxReload) && txReload == old(txReload)
    {
      if rxSamp == 1 || rxSamp == 2 {
        status := SetStatus(status, ReceiveNoiseError);
      }
      if rxSamp != 3 {
        status := SetStatus(status, ReceiveFrameError);
      }
      // With one stop bit the stop bit is the last bit of the frame.
      delivered := Some(rxBuff);
      if !accepted {
        rxDropped := (rxDropped + 1) % UINT32_MODULUS;
        status := SetStatus(status, ReceiveBufferOverflow);
      }
      status := ClrStatus(status, ReceiveInProgress);
    }

    /** rx_samp: the three reads of the RX pin in the middle of a bit, counting the high ones. */
    method CountHighReads(s: Samples)
      requires Valid()
      modifies this
      ensures Valid()
      ensures Snapshot() == old(Snapshot()).(rxSamp := HighCount(s))
      ensures active == old(active) && rxReload == old(rxReload) && txReload == old(txReload)
    {
      rxSamp := 0;
      if s.first {
        rxSamp := rxSamp + 1;
      }
      if s.second {
        rxSamp := rxSamp + 1;
      }
      if s.third {
        rxSamp := rxSamp + 1;
      }
    }

    /** The sampling branch of tim_edge_cb: count the high reads and act on the bit being received. */
    method Sample(s: Samples, accepted: bool) returns (delivered: Option<bv8>)
      requires Valid() && TestStatus(status, ReceiveInProgress)
      modifies this
      ensures Valid()
      ensures RxResult(Snapshot(), delivered) == SampleBit(old(Snapshot()), HighCount(s), accepted)
      ensures active == old(active) && rxReload == old(rxReload) && txReload == old(txReload)
    {
      CountHighReads(s);
      if rxBit == 0 {
        SampleStartBit();
        delivered := None;
      } else if rxBit <= DATA_LENGTH {
        SampleDataBit();
        delivered := None;
      } else {
        delivered := SampleStopBit(accepted);
      }
    }

    /**
     * PIOS_SOFTUSART_tim_edge_cb, with `s` the three reads of the RX pin and
     * `accepted` whether the COM layer takes a byte handed to it.
     */
    method TimerEdge(channel: nat, s: Samples, accepted: bool) returns (delivered: Option<bv8>)
      requires Valid()
      modifies this
      ensures Valid()
      ensures RxResult(Snapshot(), delivered) == EdgeTick(old(Snapshot()), old(active) && ChannelInRange(channel, halfDuplex), s, accepted)
      ensures active == old(active) && rxReload == old(rxReload) && txReload == old(txReload)
    {
      delivered := None;
      if !active || !ChannelInRange(channel, halfDuplex) {
        return;
      }
      if TestStatus(status, ReceiveInProgress) && !TestStatus(status, TransmitInProgress) {
        if !rxPhase {
          delivered := Sample(s, accepted);
        }
        rxPhase := !rxPhase;
      } else if !TestStatus(status, TransmitInProgress) {
        status := SetStatus(status, ReceiveInProgress);
        rxBit := 0;
        rxPhase := false;
      }
    }
  }
}
