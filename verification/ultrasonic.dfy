/** The ultrasonic sensor layer: the ICU configuration and callback it
    installs, and the conversion of the latched pulse width to centimetres.
    The trigger pulse and the GPIO pin set-up write output pins only and are
    not part of the state modelled here. */
module Ultrasonic {
  import opened Base
  import opened Icu
  import opened EdgeCapture

  /** Rising edge, F_CPU/8 prescaler. */
  const SensorConfig := Config(Rising, Cpu8)

  /** Timer ticks per centimetre of distance at the F_CPU/8 prescaler; it
      folds the tick period and the round trip of sound into one divisor, so
      it is only right for the clock `SensorConfig` selects. */
  const TicksPerCm := 112

  /** `Ultrasonic_init`: initialises the ICU with `SensorConfig` and installs
      `Ultrasonic_edgeProcessing`; the globals are untouched. */
  function Init(s: System): (r: System)
    ensures ClockOf(r.icu.regs.tccr1b) == Some(Cpu8)
    ensures r.icu.regs.tccr1b & CS_MASK == 2
    ensures EdgeOf(r.icu.regs.tccr1b) == Rising
    ensures r.icu.regs.tccr1b & ICES1 == ICES1
    ensures r.icu.callback == Some(UltrasonicEdgeProcessing)
    ensures r.icu.regs.tcnt1 == 0 && r.icu.regs.icr1 == 0
    ensures r.edgeCount == s.edgeCount && r.timePeriod == s.timePeriod
    ensures s.edgeCount != 1 ==> Operating(r)
  {
    var icu := SetCallBack(Icu.Init(s.icu, SensorConfig), Some(UltrasonicEdgeProcessing));
    s.(icu := icu)
  }

  /** The distance in centimetres for a pulse of `period` ticks: the integer
      quotient by `TicksPerCm`, taken before the cast to float, so the cast
      and the cast back to `uint16` lose nothing. */
  function TicksToCm(period: Uint16): (cm: Uint16)
    ensures cm * TicksPerCm <= period < (cm + 1) * TicksPerCm
    ensures cm <= 585
  {
    period / TicksPerCm
  }

  /** `Ultrasonic_readDistance`: the distance for the latched pulse width. It
      only reads `g_timePeriod`; its trigger call drives an output pin. */
  function ReadDistance(s: System): (cm: Uint16)
    ensures cm * TicksPerCm <= s.timePeriod as int < (cm + 1) * TicksPerCm
  {
    var period: Uint16 := s.timePeriod as int;
    TicksToCm(period)
  }

  /** A longer pulse never gives a shorter distance. */
  lemma TicksToCmMonotone(a: Uint16, b: Uint16)
    requires a <= b
    ensures TicksToCm(a) <= TicksToCm(b)
  {
  }

  /** Sample conversions, including the largest `uint16` width. */
  lemma TicksToCmSamples()
    ensures TicksToCm(0) == 0 && TicksToCm(111) == 0 && TicksToCm(112) == 1
    ensures TicksToCm(1120) == 10 && TicksToCm(2240) == 20
    ensures TicksToCm(0xFFFF) == 585
  {
  }
}
