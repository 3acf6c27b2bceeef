/** The two-edge echo-capture state machine of the application: the globals
    `g_edgeCount` (uint8) and `g_timePeriod` (uint16), the edge callback, and
    the capture event that runs it from the ICU interrupt.

    Environment assumption: on a qualifying edge the hardware copies the
    running counter into ICR1 and then, if TICIE1 is set in TIMSK, runs the
    capture ISR. The counter value is an arbitrary `bv16` supplied by the
    caller. Each ISR run is one atomic step between main-loop steps. */
module EdgeCapture {
  import opened Base
  import opened Icu

  /** The callbacks the application registers: only `Ultrasonic_edgeProcessing`. */
  datatype Callback = UltrasonicEdgeProcessing

  /** Driver state plus the two globals shared between the ISR and `main`. */
  datatype System = System(icu: Driver<Callback>, edgeCount: Uint8, timePeriod: bv16)

  /** Reset state: power-on registers, null callback, zero-initialised globals. */
  const Boot := System(Driver(PowerOnRegisters, None), 0, 0)

  /** `Ultrasonic_edgeProcessing`. The count is a `uint8`, so the increment
      wraps from 255 to 0; the handler never resets it. */
  function EdgeProcessing(s: System): (r: System)
    ensures r.edgeCount == if s.edgeCount == 255 then 0 else s.edgeCount + 1
    // first edge: restart the counter and wait for the end of the echo
    ensures r.edgeCount == 1 ==>
              && r.icu.regs.tcnt1 == 0
              && EdgeOf(r.icu.regs.tccr1b) == Falling
              && r.timePeriod == s.timePeriod
              && r.icu.regs.icr1 == s.icu.regs.icr1
    // second edge: latch the pulse width and wait for the next echo start
    ensures r.edgeCount == 2 ==>
              && r.timePeriod == s.icu.regs.icr1
              && EdgeOf(r.icu.regs.tccr1b) == Rising
              && r.icu.regs.tcnt1 == s.icu.regs.tcnt1
    // any other count: only the count moves
    ensures r.edgeCount != 1 && r.edgeCount != 2 ==>
              r.icu == s.icu && r.timePeriod == s.timePeriod
    // no edge changes the clock, the interrupt enable, TCCR1A or the slot
    ensures SameOutside(r.icu.regs.tccr1b, s.icu.regs.tccr1b, ICES1)
    ensures r.icu.regs.(tccr1b := s.icu.regs.tccr1b, tcnt1 := s.icu.regs.tcnt1) == s.icu.regs
    ensures r.icu.callback == s.icu.callback
  {
    var count: Uint8 := (s.edgeCount + 1) % 0x100;
    if count == 1 then
      var icu := SetEdgeDetectionType(ClearTimerValue(s.icu), Falling);
      System(icu, count, s.timePeriod)
    else if count == 2 then
      var width := GetInputCaptureValue(s.icu);
      System(SetEdgeDetectionType(s.icu, Rising), count, width)
    else
      s.(edgeCount := count)
  }

  /** One qualifying edge: the hardware latches `captured` into ICR1, then the
      ISR calls the registered callback if the interrupt is enabled and the
      slot is non-null. */
  function CaptureEvent(s: System, captured: bv16): (r: System)
    ensures GetInputCaptureValue(r.icu) == captured
    ensures r.icu.callback == s.icu.callback
    ensures r.icu.regs.tccr1a == s.icu.regs.tccr1a && r.icu.regs.timsk == s.icu.regs.timsk
    ensures r.edgeCount == s.edgeCount || r.edgeCount == (s.edgeCount + 1) % 0x100
    ensures r.timePeriod == s.timePeriod || r.timePeriod == captured
  {
    var latched := s.(icu := LatchCapture(s.icu, captured));
    if !CaptureInterruptEnabled(s.icu.regs) then latched
    else
      match s.icu.callback
      case None => latched
      case Some(UltrasonicEdgeProcessing) => EdgeProcessing(latched)
  }

  /** The ISR's dispatch: the edge-processing callback runs on the latched
      state exactly when the capture interrupt is enabled and the slot holds
      it; otherwise the event is the latch alone. */
  lemma CaptureDispatch(s: System, captured: bv16)
    ensures CaptureInterruptEnabled(s.icu.regs) && s.icu.callback == Some(UltrasonicEdgeProcessing) ==>
              CaptureEvent(s, captured) == EdgeProcessing(s.(icu := LatchCapture(s.icu, captured)))
    ensures !CaptureInterruptEnabled(s.icu.regs) || s.icu.callback == None ==>
              CaptureEvent(s, captured) == s.(icu := LatchCapture(s.icu, captured))
    ensures CaptureEvent(s, captured).edgeCount != s.edgeCount <==>
              CaptureInterruptEnabled(s.icu.regs) && s.icu.callback.Some?
  {
  }

  /** With a null slot a capture event leaves everything but ICR1 unchanged. */
  lemma NullCallbackIsSilent(s: System, captured: bv16)
    requires s.icu.callback == None
    ensures CaptureEvent(s, captured) == s.(icu := s.icu.(regs := s.icu.regs.(icr1 := captured)))
  {
  }

  /** After `ICU_deInit` no capture event reaches the state machine. */
  lemma DeInitSilencesCapture(s: System, captured: bv16)
    ensures var d := s.(icu := DeInit(s.icu));
            var r := CaptureEvent(d, captured);
            r.edgeCount == s.edgeCount && r.timePeriod == s.timePeriod
            && r.icu.regs.(icr1 := 0) == d.icu.regs
  {
  }

  /** The measuring configuration reached by `Ultrasonic_init`, kept by every
      later step: edge-processing callback installed, capture interrupt on,
      clock F_CPU/8, and the edge selection is falling exactly while the
      machine waits for the end of an echo (count 1). */
  predicate Operating(s: System) {
    && s.icu.callback == Some(UltrasonicEdgeProcessing)
    && CaptureInterruptEnabled(s.icu.regs)
    && ClockOf(s.icu.regs.tccr1b) == Some(Cpu8)
    && EdgeOf(s.icu.regs.tccr1b) == (if s.edgeCount == 1 then Falling else Rising)
  }

  /** Every capture event keeps the measuring configuration. */
  lemma CaptureEventKeepsOperating(s: System, captured: bv16)
    requires Operating(s)
    ensures Operating(CaptureEvent(s, captured))
  {
  }

  /** The intended cycle: from an idle machine, a leading edge and a trailing
      edge complete exactly one measurement holding the trailing edge's
      counter value, and the edge selection is back at rising. A leading edge
      alone leaves the machine armed with the old measurement. */
  lemma TwoEdgeCycle(s: System, leading: bv16, trailing: bv16)
    requires Operating(s) && s.edgeCount == 0
    ensures var armed := CaptureEvent(s, leading);
            && armed.edgeCount == 1
            && armed.timePeriod == s.timePeriod
            && armed.icu.regs.tcnt1 == 0
            && EdgeOf(armed.icu.regs.tccr1b) == Falling
    ensures var done := CaptureEvent(CaptureEvent(s, leading), trailing);
            && done.edgeCount == 2
            && done.timePeriod == trailing
            && EdgeOf(done.icu.regs.tccr1b) == Rising
            && Operating(done)
  {
  }

  /** Edges beyond the second, before the main loop consumes the measurement,
      only advance the count: the latched width and the registers other than
      ICR1 keep their values. */
  lemma ExtraEdgeOnlyCounts(s: System, captured: bv16)
    requires Operating(s) && s.edgeCount >= 2
    ensures var r := CaptureEvent(s, captured);
            && r.edgeCount == (s.edgeCount + 1) % 0x100
            && r.timePeriod == s.timePeriod
            && r.icu.regs.(icr1 := s.icu.regs.icr1) == s.icu.regs
  {
  }
}
