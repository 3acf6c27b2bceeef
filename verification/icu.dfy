/** The Timer1 input-capture unit (ICU) driver of an ATmega32, as pure
    transformers of an immutable register file plus the single callback slot.

    Bit positions are those of the ATmega32 register map (TCCR1A, TCCR1B,
    TIMSK); every register resets to zero at power-on. */
module Icu {
  import opened Base

  /** Edge polarity, in the order of the `ICU_Edge` enumeration. */
  datatype Edge = Falling | Rising

  /** Timer1 clock source, in the order of the `ICU_CPU_Clocks` enumeration. */
  datatype Clock = NoClock | CpuClock | Cpu8 | Cpu64 | Cpu256 | Cpu1024

  /** `ICU_Configuration`: exactly an edge and a clock. */
  datatype Config = Config(edge: Edge, clock: Clock)

  /** The C enumeration value of an edge: FALLING is 0, RISING is 1. */
  function EdgeCode(e: Edge): (code: bv8)
    ensures code <= 1
    ensures (code << 6) == (if e == Rising then ICES1 else 0)
  {
    match e
    case Falling => 0
    case Rising => 1
  }

  /** The C enumeration value of a clock: NO_CLOCK .. F_CPU_1024 are 0 .. 5,
      all inside the three clock-select bits. */
  function ClockCode(c: Clock): (code: bv8)
    ensures code <= 5
    ensures code & !CS_MASK == 0
  {
    match c
    case NoClock => 0
    case CpuClock => 1
    case Cpu8 => 2
    case Cpu64 => 3
    case Cpu256 => 4
    case Cpu1024 => 5
  }

  // Bit masks of the fields the driver touches.
  const FOC1A: bv8 := 0x08   // TCCR1A bit 3
  const FOC1B: bv8 := 0x04   // TCCR1A bit 2
  const CS_MASK: bv8 := 0x07 // TCCR1B bits 0-2, CS12:CS10
  const ICES1: bv8 := 0x40   // TCCR1B bit 6, input capture edge select
  const TICIE1: bv8 := 0x20  // TIMSK bit 5, input capture interrupt enable

  /** The Timer1 registers the driver reads or writes. */
  datatype Registers = Registers(tccr1a: bv8, tccr1b: bv8, timsk: bv8, tcnt1: bv16, icr1: bv16)

  /** Driver state: the registers and the callback slot; `H` names callbacks. */
  datatype Driver<H> = Driver(regs: Registers, callback: Option<H>)

  const PowerOnRegisters := Registers(0, 0, 0, 0, 0)

  /** `x` and `y` agree on every bit outside `mask`. */
  predicate SameOutside(x: bv8, y: bv8, mask: bv8) {
    x & !mask == y & !mask
  }

  /** The edge that TCCR1B selects (ICES1 set means rising). */
  function EdgeOf(tccr1b: bv8): Edge {
    if tccr1b & ICES1 == 0 then Falling else Rising
  }

  /** The clock that TCCR1B selects; codes 6 and 7 (external clock) have no
      `Clock` value. */
  function ClockOf(tccr1b: bv8): Option<Clock> {
    var cs := tccr1b & CS_MASK;
    if cs == 0 then Some(NoClock)
    else if cs == 1 then Some(CpuClock)
    else if cs == 2 then Some(Cpu8)
    else if cs == 3 then Some(Cpu64)
    else if cs == 4 then Some(Cpu256)
    else if cs == 5 then Some(Cpu1024)
    else None
  }

  predicate CaptureInterruptEnabled(r: Registers) {
    r.timsk & TICIE1 != 0
  }

  /** Reading the clock back from its code gives the clock: the encoding is
      injective and decodable. */
  lemma ClockCodeRoundTrip(c: Clock)
    ensures ClockOf(ClockCode(c)) == Some(c)
  {
  }

  /** `(TCCR1B & 0xF8) | clock`: programs the clock-select bits. */
  function SelectClock(tccr1b: bv8, c: Clock): (r: bv8)
    ensures ClockOf(r) == Some(c)
    ensures SameOutside(r, tccr1b, CS_MASK)
    ensures EdgeOf(r) == EdgeOf(tccr1b)
  {
    (tccr1b & 0xF8) | ClockCode(c)
  }

  /** `(TCCR1B & 0xBF) | (edge << 6)`: programs the edge-select bit. */
  function SelectEdge(tccr1b: bv8, e: Edge): (r: bv8)
    ensures EdgeOf(r) == e
    ensures SameOutside(r, tccr1b, ICES1)
    ensures ClockOf(r) == ClockOf(tccr1b)
  {
    (tccr1b & 0xBF) | (EdgeCode(e) << 6)
  }

  /** `ICU_Init`: force-compare bits on in TCCR1A, clock and edge programmed in
      TCCR1B, counter and capture register cleared, capture interrupt enabled.
      The callback slot is untouched. */
  function Init<H>(d: Driver<H>, cfg: Config): (r: Driver<H>)
    ensures ClockOf(r.regs.tccr1b) == Some(cfg.clock)
    ensures EdgeOf(r.regs.tccr1b) == cfg.edge
    ensures SameOutside(r.regs.tccr1b, d.regs.tccr1b, CS_MASK | ICES1)
    ensures r.regs.tccr1a & FOC1A != 0 && r.regs.tccr1a & FOC1B != 0
    ensures SameOutside(r.regs.tccr1a, d.regs.tccr1a, FOC1A | FOC1B)
    ensures CaptureInterruptEnabled(r.regs)
    ensures SameOutside(r.regs.timsk, d.regs.timsk, TICIE1)
    ensures r.regs.tcnt1 == 0 && r.regs.icr1 == 0
    ensures r.callback == d.callback
  {
    var tccr1a := d.regs.tccr1a | FOC1A | FOC1B;
    var tccr1b := SelectEdge(SelectClock(d.regs.tccr1b, cfg.clock), cfg.edge);
    var timsk := d.regs.timsk | TICIE1;
    Driver(Registers(tccr1a, tccr1b, timsk, 0, 0), d.callback)
  }

  /** `ICU_SetCallBack`: the slot holds exactly the given callback (which may
      be null); no register changes. */
  function SetCallBack<H>(d: Driver<H>, callback: Option<H>): (r: Driver<H>)
    ensures r.callback == callback
    ensures r.regs == d.regs
  {
    d.(callback := callback)
  }

  /** The slot is a single cell: the last registration wins. */
  lemma LastCallBackWins<H>(d: Driver<H>, first: Option<H>, second: Option<H>)
    ensures SetCallBack(SetCallBack(d, first), second) == SetCallBack(d, second)
  {
  }

  /** `ICU_setEdgeDetectionType`: only the ICES1 bit of TCCR1B may change. */
  function SetEdgeDetectionType<H>(d: Driver<H>, e: Edge): (r: Driver<H>)
    ensures EdgeOf(r.regs.tccr1b) == e
    ensures SameOutside(r.regs.tccr1b, d.regs.tccr1b, ICES1)
    ensures r.regs.(tccr1b := d.regs.tccr1b) == d.regs
    ensures r.callback == d.callback
  {
    d.(regs := d.regs.(tccr1b := SelectEdge(d.regs.tccr1b, e)))
  }

  /** Setting the same edge twice is the same as setting it once, and a later
      edge setting overrides an earlier one. */
  lemma SetEdgeDetectionTypeIdempotent<H>(d: Driver<H>, e: Edge, e': Edge)
    ensures SetEdgeDetectionType(SetEdgeDetectionType(d, e), e) == SetEdgeDetectionType(d, e)
    ensures SetEdgeDetectionType(SetEdgeDetectionType(d, e), e') == SetEdgeDetectionType(d, e')
  {
  }

  /** `ICU_getInputCaptureValue`: the value in ICR1; writing it back would
      leave the register file as it is. */
  function GetInputCaptureValue<H>(d: Driver<H>): (v: bv16)
    ensures d.regs.(icr1 := v) == d.regs
  {
    d.regs.icr1
  }

  /** `ICU_clearTimerValue`: TCNT1 becomes zero and nothing else changes. */
  function ClearTimerValue<H>(d: Driver<H>): (r: Driver<H>)
    ensures r.regs.tcnt1 == 0
    ensures r.regs.(tcnt1 := d.regs.tcnt1) == d.regs
    ensures r.callback == d.callback
  {
    d.(regs := d.regs.(tcnt1 := 0))
  }

  /** `ICU_deInit`: TCCR1A, TCCR1B, TCNT1 and ICR1 zeroed, only TICIE1 cleared
      in TIMSK, callback slot emptied. */
  function DeInit<H>(d: Driver<H>): (r: Driver<H>)
    ensures r.regs.tccr1a == 0 && r.regs.tccr1b == 0
    ensures r.regs.tcnt1 == 0 && r.regs.icr1 == 0
    ensures !CaptureInterruptEnabled(r.regs)
    ensures SameOutside(r.regs.timsk, d.regs.timsk, TICIE1)
    ensures r.callback == None
  {
    var timsk := d.regs.timsk & !TICIE1;
    Driver(Registers(0, 0, timsk, 0, 0), None)
  }

  /** Hardware, not driver: on a qualifying edge the running counter value is
      copied into ICR1. The counter's value is supplied by the environment. */
  function LatchCapture<H>(d: Driver<H>, captured: bv16): (r: Driver<H>)
    ensures GetInputCaptureValue(r) == captured
    ensures r.regs.(icr1 := d.regs.icr1) == d.regs
    ensures r.callback == d.callback
  {
    d.(regs := d.regs.(icr1 := captured))
  }

  /** Reading the capture register has nothing to do with the counter or the
      edge setting: clearing the counter or switching the edge keeps the
      latched value readable. */
  lemma CaptureValueSurvivesDriverCalls<H>(d: Driver<H>, captured: bv16, e: Edge)
    ensures GetInputCaptureValue(ClearTimerValue(LatchCapture(d, captured))) == captured
    ensures GetInputCaptureValue(SetEdgeDetectionType(LatchCapture(d, captured), e)) == captured
  {
  }

  /** After `ICU_deInit` from power-on TIMSK contents the registers are back
      at their power-on values, and a second `ICU_deInit` changes nothing. */
  lemma DeInitRestoresPowerOn<H>(d: Driver<H>)
    requires d.regs.timsk & !TICIE1 == 0
    ensures DeInit(d).regs == PowerOnRegisters
    ensures DeInit(DeInit(d)) == DeInit(d)
  {
  }
}
