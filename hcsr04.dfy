/**
 * The HC-SR04 sonar driver: the echo pulse is timed by the input capture
 * channel of a timer.  A two-state machine captures the rising edge, counts
 * timer overflows while the echo is high, captures the falling edge and
 * turns the two captures into a pulse width in timer ticks; a counter tells
 * the caller how many pulses completed since the last trigger.
 *
 * The driver state lives in file statics that the interrupt handler,
 * Init and Trigger update in place: the class SonarCapture holds them, and
 * the value Sonar is the same state, on which the interrupt is specified.
 */
module Hcsr04 {

  /** The statics are uint16_t, and CapCounter is uint8_t. */
  const UINT16_MODULUS: nat := 0x1_0000
  const UINT8_MODULUS: nat := 0x100

  /** The period the board programs when the timer is not shared: ARR = 0xFFFF, so 65536 ticks. */
  const DEFAULT_RELOAD: nat := 0xFFFF

  /**
   * The driver state.  ccInterrupt and updateInterrupt are the two timer
   * interrupt enables the driver switches; fallingEdge is the capture
   * polarity (rising when false).
   */
  datatype Sonar = Sonar(
    captureState: nat,
    riseValue: nat,
    fallValue: nat,
    captureValue: nat,
    capCounter: nat,
    timerCounter: nat,
    ccInterrupt: bool,
    updateInterrupt: bool,
    fallingEdge: bool)

  /** Every static within its C width, the machine in state 0 or 1, and the polarity waiting for the edge the state expects. */
  predicate Consistent(s: Sonar)
  {
    && s.captureState <= 1
    && s.riseValue < UINT16_MODULUS && s.fallValue < UINT16_MODULUS && s.captureValue < UINT16_MODULUS
    && s.timerCounter < UINT16_MODULUS && s.capCounter < UINT8_MODULUS
    && (s.fallingEdge <==> s.captureState == 1)
  }

  /** The three readings of the measurement the caller sees through Get: nothing else is touched by the overflow interrupt. */
  function Captures(s: Sonar): (nat, nat, nat, nat)
  {
    (s.captureState, s.riseValue, s.fallValue, s.captureValue)
  }

  // ---------------------------------------------------------------------
  // Pulse arithmetic
  // ---------------------------------------------------------------------

  /**
   * Which arithmetic the handler uses: the one as written (an overflow adds
   * ARR, a wrapped width counts from 0xFFFF) or the corrected one (an
   * overflow adds the period ARR + 1, a wrapped width counts from 2^16).
   */
  datatype Arithmetic = AsWritten | Corrected

  /**
   * The width of a pulse from the two 16-bit timestamps, across a
   * wrap-around of the 16-bit count: the one 16-bit value that, added to
   * the rising timestamp, gives the falling one.
   */
  function PulseWidth(rise: nat, fall: nat): (w: nat)
    requires rise < UINT16_MODULUS && fall < UINT16_MODULUS
    ensures w < UINT16_MODULUS
    ensures (rise + w) % UINT16_MODULUS == fall
    ensures fall > rise ==> w == fall - rise
  {
    if fall > rise then fall - rise else (UINT16_MODULUS - rise + fall) % UINT16_MODULUS
  }

  /**
   * The width as the handler computes it: a difference when the falling
   * timestamp is the larger, otherwise counted from 0xFFFF rather than from
   * 2^16, so equal timestamps give 0xFFFF.
   */
  function PulseWidthAsWritten(rise: nat, fall: nat): (w: nat)
    requires rise < UINT16_MODULUS && fall < UINT16_MODULUS
    ensures w < UINT16_MODULUS
    ensures fall > rise ==> w == fall - rise
    ensures fall <= rise ==> (rise + w + 1) % UINT16_MODULUS == fall
    ensures fall == rise ==> w == 0xFFFF
  {
    if fall > rise then fall - rise else 0xFFFF - rise + fall
  }

  /** The width computed at the falling edge under either arithmetic. */
  function Width(arith: Arithmetic, rise: nat, fall: nat): (w: nat)
    requires rise < UINT16_MODULUS && fall < UINT16_MODULUS
    ensures w < UINT16_MODULUS
  {
    match arith
    case AsWritten => PulseWidthAsWritten(rise, fall)
    case Corrected => PulseWidth(rise, fall)
  }

  /**
   * What an overflow adds to the 16-bit overflow counter: ARR as written,
   * although the timer period is ARR + 1 ticks.
   */
  function OverflowAdder(arith: Arithmetic, reload: nat): nat
  {
    match arith
    case AsWritten => reload
    case Corrected => reload + 1
  }

  // ---------------------------------------------------------------------
  // The interrupt
  // ---------------------------------------------------------------------

  /** An update (overflow) interrupt: the adder goes into the overflow counter, nothing else changes. */
  function OverflowTick(s: Sonar, reload: nat, arith: Arithmetic): (r: Sonar)
    requires Consistent(s)
    ensures Consistent(r)
    ensures Captures(r) == Captures(s) && r.capCounter == s.capCounter
    ensures r.timerCounter == (s.timerCounter + OverflowAdder(arith, reload)) % UINT16_MODULUS
    ensures r == s.(timerCounter := r.timerCounter)
  {
    s.(timerCounter := (s.timerCounter + OverflowAdder(arith, reload)) % UINT16_MODULUS)
  }

  /**
   * A capture-compare interrupt in state 0, the rising edge: the timestamp
   * is kept, the overflow counter restarts and overflows are counted from
   * now on.
   */
  function RisingCapture(s: Sonar, capture: nat): (r: Sonar)
    requires Consistent(s) && s.captureState == 0 && capture < UINT16_MODULUS
    ensures r.riseValue == capture && r.timerCounter == 0 && r.updateInterrupt
    ensures r == s.(riseValue := capture, timerCounter := 0, updateInterrupt := true)
  {
    s.(riseValue := capture, timerCounter := 0, updateInterrupt := true)
  }

  /** A capture-compare interrupt in state 1, the falling edge: its timestamp is the capture plus the overflows counted. */
  function FallingCapture(s: Sonar, capture: nat): (r: Sonar)
    requires Consistent(s) && s.captureState == 1 && capture < UINT16_MODULUS
    ensures r.fallValue == (s.timerCounter + capture) % UINT16_MODULUS
    ensures r == s.(fallValue := r.fallValue)
  {
    s.(fallValue := (s.timerCounter + capture) % UINT16_MODULUS)
  }

  /**
   * The state switch that ends every interrupt other than an overflow: from
   * state 0 the machine waits for the falling edge; from state 1 the width
   * is computed, the completion counter goes up (modulo 256), both
   * interrupts are disabled and the machine waits for a rising edge again.
   */
  function SwitchState(s: Sonar, arith: Arithmetic): (r: Sonar)
    requires Consistent(s) && s.captureState <= 1
    ensures Consistent(r)
    ensures r.captureState == 1 - s.captureState
    ensures s.captureState == 0 ==> r == s.(captureState := 1, fallingEdge := true)
    ensures s.captureState == 1 ==>
              && r.captureValue == Width(arith, s.riseValue, s.fallValue)
              && r.capCounter == (s.capCounter + 1) % UINT8_MODULUS
              && !r.ccInterrupt && !r.updateInterrupt
              && r.riseValue == s.riseValue && r.fallValue == s.fallValue && r.timerCounter == s.timerCounter
  {
    if s.captureState == 0 then s.(captureState := 1, fallingEdge := true)
    else
      s.(captureValue := Width(arith, s.riseValue, s.fallValue), captureState := 0,
         capCounter := (s.capCounter + 1) % UINT8_MODULUS,
         ccInterrupt := false, updateInterrupt := false, fallingEdge := false)
  }

  /**
   * The interrupt handler.  `update` and `cc` are what the two interrupt
   * status reads return, and `capture` the value of the capture register.
   * An overflow is handled alone; any other entry takes a capture when the
   * capture flag is set and then switches state, whether or not it was set.
   */
  function IrqStep(s: Sonar, update: bool, cc: bool, capture: nat, reload: nat, arith: Arithmetic): (r: Sonar)
    requires Consistent(s) && capture < UINT16_MODULUS
    ensures Consistent(r)
    ensures update ==> Captures(r) == Captures(s) && r.capCounter == s.capCounter
    ensures !update ==> r.captureState == 1 - s.captureState
    ensures !update && !cc ==> r.riseValue == s.riseValue && r.fallValue == s.fallValue && r.timerCounter == s.timerCounter
  {
    if update then OverflowTick(s, reload, arith)
    else
      var taken :=
        if !cc then s
        else if s.captureState == 0 then RisingCapture(s, capture)
        else FallingCapture(s, capture);
      SwitchState(taken, arith)
  }

  /** The state after k overflow interrupts. */
  function Overflows(s: Sonar, k: nat, reload: nat, arith: Arithmetic): (r: Sonar)
    requires Consistent(s)
    ensures Consistent(r)
    decreases k
  {
    if k == 0 then s else Overflows(OverflowTick(s, reload, arith), k - 1, reload, arith)
  }

  /** k overflows add k adders to the overflow counter, modulo 2^16, and change nothing else. */
  lemma {:induction false} OverflowsAccumulate(s: Sonar, k: nat, reload: nat, arith: Arithmetic)
    requires Consistent(s)
    ensures Overflows(s, k, reload, arith)
              == s.(timerCounter := (s.timerCounter + k * OverflowAdder(arith, reload)) % UINT16_MODULUS)
    decreases k
  {
    if k > 0 {
      var p := OverflowAdder(arith, reload);
      var t := OverflowTick(s, reload, arith);
      OverflowsAccumulate(t, k - 1, reload, arith);
      AddPeriods(s.timerCounter, p, k);
    }
  }

  /** One period and then k - 1 more, modulo 2^16, are k periods. */
  lemma AddPeriods(c: nat, p: nat, k: nat)
    requires k > 0
    ensures ((c + p) % UINT16_MODULUS + (k - 1) * p) % UINT16_MODULUS == (c + k * p) % UINT16_MODULUS
  {
    ModAddLeft(c + p, (k - 1) * p);
    assert p + (k - 1) * p == k * p;
  }

  /** Reducing the left summand first does not change a sum modulo 2^16. */
  lemma ModAddLeft(a: int, b: int)
    ensures (a % UINT16_MODULUS + b) % UINT16_MODULUS == (a + b) % UINT16_MODULUS
  {
  }

  /** The state after a rising capture at `rise`, k overflows and a falling capture at `fall`. */
  function Measure(s: Sonar, rise: nat, k: nat, fall: nat, reload: nat, arith: Arithmetic): (r: Sonar)
    requires Consistent(s) && rise < UINT16_MODULUS && fall < UINT16_MODULUS
    ensures Consistent(r)
  {
    IrqStep(Overflows(IrqStep(s, false, true, rise, reload, arith), k, reload, arith), false, true, fall, reload, arith)
  }

  /**
   * Under either arithmetic, a whole measurement hands Get the width of the
   * rising timestamp and the falling one, the capture plus k adders modulo
   * 2^16; the completion counter goes up by one and the machine waits for a
   * rising edge again with both interrupts off.
   */
  lemma MeasureSteps(s: Sonar, rise: nat, k: nat, fall: nat, reload: nat, arith: Arithmetic)
    requires Consistent(s) && s.captureState == 0
    requires rise < UINT16_MODULUS && fall < UINT16_MODULUS
    ensures var r := Measure(s, rise, k, fall, reload, arith);
            && r.captureValue == Width(arith, rise, (k * OverflowAdder(arith, reload) + fall) % UINT16_MODULUS)
            && r.capCounter == (s.capCounter + 1) % UINT8_MODULUS
            && r.captureState == 0 && !r.ccInterrupt && !r.updateInterrupt
  {
    var risen := IrqStep(s, false, true, rise, reload, arith);
    assert risen == RisingCapture(s, rise).(captureState := 1, fallingEdge := true);
    var counted := Overflows(risen, k, reload, arith);
    OverflowsAccumulate(risen, k, reload, arith);
    var ticks := k * OverflowAdder(arith, reload);
    assert counted.captureState == 1 && counted.riseValue == rise && counted.timerCounter == ticks % UINT16_MODULUS;
    ModAddLeft(ticks, fall);
    assert FallingCapture(counted, fall).fallValue == (ticks + fall) % UINT16_MODULUS;
  }

  /**
   * With the corrected arithmetic, the width handed to Get is the elapsed
   * time in ticks modulo 2^16, which is the elapsed time itself for any
   * pulse shorter than 65536 ticks.
   */
  lemma MeasurePulse(s: Sonar, rise: nat, k: nat, fall: nat, reload: nat)
    requires Consistent(s) && s.captureState == 0
    requires rise < UINT16_MODULUS && fall < UINT16_MODULUS
    ensures var r := Measure(s, rise, k, fall, reload, Corrected);
            && r.captureValue == (k * OverflowAdder(Corrected, reload) + fall - rise) % UINT16_MODULUS
            && r.capCounter == (s.capCounter + 1) % UINT8_MODULUS
            && r.captureState == 0 && !r.ccInterrupt && !r.updateInterrupt
  {
    MeasureSteps(s, rise, k, fall, reload, Corrected);
    var end := k * OverflowAdder(Corrected, reload) + fall;
    var w := PulseWidth(rise, end % UINT16_MODULUS);
    WidthIsDifference(rise, end, w);
  }

  /** A width that takes rise to the falling timestamp modulo 2^16 is the difference modulo 2^16. */
  lemma WidthIsDifference(rise: nat, end: int, w: nat)
    requires w < UINT16_MODULUS && (rise + w) % UINT16_MODULUS == end % UINT16_MODULUS
    ensures w == (end - rise) % UINT16_MODULUS
  {
    ModAddLeft(rise + w, -(rise as int));
    ModAddLeft(end, -(rise as int));
  }

  /**
   * The closed form of a measurement as written: ARR per overflow on the
   * falling timestamp, and the width counted from 0xFFFF when it wrapped.
   */
  function MeasureAsWritten(rise: nat, k: nat, fall: nat, reload: nat): (w: nat)
    requires rise < UINT16_MODULUS && fall < UINT16_MODULUS
    ensures w < UINT16_MODULUS
    ensures fall + k * reload < UINT16_MODULUS && fall + k * reload > rise ==> w == fall + k * reload - rise
  {
    PulseWidthAsWritten(rise, (k * reload + fall) % UINT16_MODULUS)
  }

  /** The handler as written, run over a rising capture, k overflows and a falling capture, hands MeasureAsWritten to Get. */
  lemma HandlerAsWritten(s: Sonar, rise: nat, k: nat, fall: nat, reload: nat)
    requires Consistent(s) && s.captureState == 0
    requires rise < UINT16_MODULUS && fall < UINT16_MODULUS
    ensures Measure(s, rise, k, fall, reload, AsWritten).captureValue == MeasureAsWritten(rise, k, fall, reload)
  {
    MeasureSteps(s, rise, k, fall, reload, AsWritten);
  }

  /**
   * With the default period of 65536 ticks, an echo that rises at tick 65000
   * and falls at tick 100 of the next period lasts 636 ticks; the handler as
   * written hands 634 to Get.
   */
  lemma AsWrittenLosesTicks(s: Sonar)
    requires Consistent(s) && s.captureState == 0
    ensures 1 * OverflowAdder(Corrected, DEFAULT_RELOAD) + 100 - 65000 == 636
    ensures Measure(s, 65000, 1, 100, DEFAULT_RELOAD, AsWritten).captureValue == 634
  {
    HandlerAsWritten(s, 65000, 1, 100, DEFAULT_RELOAD);
  }

  /** The same echo through the corrected handler: the width it hands to Get is 636. */
  lemma CorrectedMeasuresTicks(s: Sonar)
    requires Consistent(s) && s.captureState == 0
    ensures Measure(s, 65000, 1, 100, DEFAULT_RELOAD, Corrected).captureValue == 636
  {
    MeasurePulse(s, 65000, 1, 100, DEFAULT_RELOAD);
  }

  // ---------------------------------------------------------------------
  // The driver
  // ---------------------------------------------------------------------

  class SonarCapture {
    /** The timer's autoreload register, ARR. */
    const reload: nat

    var captureState: nat
    var riseValue: nat
    var fallValue: nat
    var captureValue: nat
    var capCounter: nat
    var timerCounter: nat
    var ccInterrupt: bool
    var updateInterrupt: bool
    var fallingEdge: bool

    function Snapshot(): Sonar
      reads this
    {
      Sonar(captureState, riseValue, fallValue, captureValue, capCounter, timerCounter, ccInterrupt, updateInterrupt, fallingEdge)
    }

    ghost predicate Valid()
      reads this
    {
      Consistent(Snapshot()) && reload < UINT16_MODULUS
    }

    /** The statics zero-filled at start-up. */
    constructor (reload: nat)
      requires reload < UINT16_MODULUS
      ensures Valid() && this.reload == reload
      ensures Snapshot() == Sonar(0, 0, 0, 0, 0, 0, false, false, false)
    {
      this.reload := reload;
      capCounter := 0;
      timerCounter := 0;
      captureState := 0;
      riseValue := 0;
      fallValue := 0;
      captureValue := 0;
      ccInterrupt := false;
      updateInterrupt := false;
      fallingEdge := false;
    }

    /** PIOS_HCSR04_Init: the machine and the three timestamps back to zero, rising polarity, both interrupts off. */
    method Init()
      requires Valid()
      modifies this
      ensures Valid()
      ensures captureState == 0 && riseValue == 0 && fallValue == 0 && captureValue == 0
      ensures !ccInterrupt && !updateInterrupt && !fallingEdge
      ensures capCounter == old(capCounter) && timerCounter == old(timerCounter)
    {
      captureState := 0;
      riseValue := 0;
      fallValue := 0;
      captureValue := 0;
      fallingEdge := false;
      ccInterrupt := false;
      updateInterrupt := false;
    }

    /** PIOS_HCSR04_Get: the last pulse width. */
    function Get(): (width: nat)
      requires Valid()
      reads this
      ensures width < UINT16_MODULUS
      ensures width == Snapshot().captureValue
    {
      captureValue
    }

    /** PIOS_HCSR04_Completed: the pulses completed since the last trigger. */
    function Completed(): (count: nat)
      requires Valid()
      reads this
      ensures count < UINT8_MODULUS
      ensures count == Snapshot().capCounter
    {
      capCounter
    }

    /** PIOS_HCSR04_Trigger: the completion counter restarts and the capture interrupt is enabled. */
    method Trigger()
      requires Valid()
      modifies this
      ensures Valid()
      ensures Completed() == 0 && ccInterrupt
      ensures Snapshot() == old(Snapshot()).(capCounter := 0, ccInterrupt := true)
    {
      capCounter := 0;
      ccInterrupt := true;
    }

    /**
     * The interrupt handler, with the two interrupt status reads and the
     * capture register as inputs, and the corrected arithmetic.
     */
    method Irq(update: bool, cc: bool, capture: nat)
      requires Valid() && capture < UINT16_MODULUS
      modifies this
      ensures Valid()
      ensures Snapshot() == IrqStep(old(Snapshot()), update, cc, capture, reload, Corrected)
    {
      if update {
        timerCounter := (timerCounter + OverflowAdder(Corrected, reload)) % UINT16_MODULUS;
        return;
      }
      if cc {
        if captureState == 0 {
          riseValue := capture;
          timerCounter := 0;
          updateInterrupt := true;
        } else {
          fallValue := (timerCounter + capture) % UINT16_MODULUS;
        }
      }
      if captureState == 0 {
        captureState := 1;
        fallingEdge := true;
      } else {
        if fallValue > riseValue {
          captureValue := fallValue - riseValue;
        } else {
          captureValue := (UINT16_MODULUS - riseValue + fallValue) % UINT16_MODULUS;
        }
        captureState := 0;
        capCounter := (capCounter + 1) % UINT8_MODULUS;
        ccInterrupt := false;
        updateInterrupt := false;
        fallingEdge := false;
      }
    }
  }
}
