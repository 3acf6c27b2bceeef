/** The application's `main`: start-up, then a loop whose every pass first
    consumes a completed measurement (edge count 2) and prints it, then
    drives the LEDs, buzzer and banner from the current distance.

    The capture ISR may run between any two passes; each run is one atomic
    `Edge` event. Preemption inside a pass is not modelled. */
module ParkingLoop {
  import opened Base
  import opened Icu
  import opened EdgeCapture
  import Ultrasonic
  import opened Display

  /** The state `main` works on: the shared system state and its local
      `distance`. */
  datatype Machine = Machine(sys: System, distance: Uint16)

  /** One pass of the loop: the state after it and the output calls made. */
  datatype Pass = Pass(machine: Machine, outputs: seq<Output>)

  /** `main` before the loop: `distance` is 0 and `Ultrasonic_init` has run.
      The global interrupt enable, the buzzer, LCD and LED initialisation and
      the first trigger pulse act on nothing modelled here. */
  function Start(): (m: Machine)
    ensures Operating(m.sys)
    ensures m.sys.edgeCount == 0 && m.sys.timePeriod == 0 && m.distance == 0
  {
    Machine(Ultrasonic.Init(Boot), 0)
  }

  /** The consume section of a pass: only an edge count of exactly 2 is
      consumed; then the distance is read and printed with the padding as
      the source writes it, and the count goes back to 0. The trigger pulse
      that follows drives an output pin only. */
  function Consume(m: Machine): (r: Pass)
    ensures m.sys.edgeCount == 2 ==>
              && r.machine.sys == m.sys.(edgeCount := 0)
              && r.machine.distance * Ultrasonic.TicksPerCm <= m.sys.timePeriod as int
              && m.sys.timePeriod as int < (r.machine.distance + 1) * Ultrasonic.TicksPerCm
              && r.outputs == DistanceLine(r.machine.distance, PaddingAsWritten(r.machine.distance))
    ensures m.sys.edgeCount != 2 ==> r.machine == m && r.outputs == []
  {
    if m.sys.edgeCount == 2 then
      var distance := Ultrasonic.ReadDistance(m.sys);
      Pass(Machine(m.sys.(edgeCount := 0), distance), DistanceLine(distance, PaddingAsWritten(distance)))
    else
      Pass(m, [])
  }

  /** One pass of the main loop: the consume section, then the lamps, buzzer
      and banner for the distance after it. A pass never touches the ICU or
      the latched width. */
  function Iteration(m: Machine): (r: Pass)
    ensures r.machine.sys.icu == m.sys.icu && r.machine.sys.timePeriod == m.sys.timePeriod
    ensures m.sys.edgeCount == 2 ==>
              && r.machine.sys.edgeCount == 0
              && r.machine.distance == Ultrasonic.TicksToCm(m.sys.timePeriod as int)
              && r.outputs == DistanceLine(r.machine.distance, PaddingAsWritten(r.machine.distance))
                              + Actuate(r.machine.distance)
    ensures m.sys.edgeCount != 2 ==> r.machine == m && r.outputs == Actuate(m.distance)
  {
    var consumed := Consume(m);
    Pass(consumed.machine, consumed.outputs + Actuate(consumed.machine.distance))
  }

  /** What can happen between two observations of the system: a capture
      event with the counter value the hardware latches, or a loop pass. */
  datatype Event = Edge(captured: bv16) | Poll

  function Step(m: Machine, e: Event): (r: Machine)
    ensures r.sys.icu.callback == m.sys.icu.callback
    ensures r.sys.icu.regs.tccr1a == m.sys.icu.regs.tccr1a && r.sys.icu.regs.timsk == m.sys.icu.regs.timsk
    ensures e == Poll ==> r.sys.icu == m.sys.icu && r.sys.timePeriod == m.sys.timePeriod
  {
    match e
    case Edge(captured) => m.(sys := CaptureEvent(m.sys, captured))
    case Poll => Iteration(m).machine
  }

  /** The state after a sequence of events, in order. */
  function Execute(m: Machine, events: seq<Event>): (r: Machine)
    ensures r.sys.icu.callback == m.sys.icu.callback
    ensures r.sys.icu.regs.tccr1a == m.sys.icu.regs.tccr1a && r.sys.icu.regs.timsk == m.sys.icu.regs.timsk
    ensures AllPolls(events) ==> r.sys.icu == m.sys.icu && r.sys.timePeriod == m.sys.timePeriod
    decreases |events|
  {
    if events == [] then m else Execute(Step(m, events[0]), events[1..])
  }

  /** Every event keeps the measuring configuration. */
  lemma StepKeepsOperating(m: Machine, e: Event)
    requires Operating(m.sys)
    ensures Operating(Step(m, e).sys)
  {
  }

  /** Once `Ultrasonic_init` has run, no interleaving of capture events and
      loop passes loses the callback, the interrupt enable or the clock, and
      the edge selection always matches the phase of the count. */
  lemma {:induction false} ExecuteKeepsOperating(m: Machine, events: seq<Event>)
    requires Operating(m.sys)
    ensures Operating(Execute(m, events).sys)
    decreases |events|
  {
    if events != [] {
      StepKeepsOperating(m, events[0]);
      ExecuteKeepsOperating(Step(m, events[0]), events[1..]);
    }
  }

  predicate AllPolls(events: seq<Event>) {
    forall i :: 0 <= i < |events| ==> events[i] == Poll
  }

  /** Loop passes alone never consume a count other than 2: with a missing
      echo (count 1) or surplus edges (count 3 or more) the machine stays
      where it is and the last distance is kept, however long the loop runs. */
  lemma {:induction false} UnconsumedCountStalls(m: Machine, events: seq<Event>)
    requires m.sys.edgeCount != 2 && AllPolls(events)
    ensures Execute(m, events) == m
    decreases |events|
  {
    if events != [] {
      assert events[0] == Poll;
      assert Step(m, Poll) == m;
      UnconsumedCountStalls(m, events[1..]);
    }
  }

  /** A complete measurement cycle from an idle machine: leading edge,
      trailing edge, then a loop pass. The pass consumes the measurement, so
      the distance is the trailing edge's counter value in centimetres and the
      machine is idle again and ready for the next cycle. */
  lemma MeasurementCycle(m: Machine, leading: bv16, trailing: bv16)
    requires Operating(m.sys) && m.sys.edgeCount == 0
    ensures var r := Execute(m, [Edge(leading), Edge(trailing), Poll]);
            && r.distance == Ultrasonic.TicksToCm(trailing as int)
            && r.sys.timePeriod == trailing
            && r.sys.edgeCount == 0
            && Operating(r.sys)
  {
    TwoEdgeCycle(m.sys, leading, trailing);
    var armed := Step(m, Edge(leading));
    var done := Step(armed, Edge(trailing));
    var events := [Edge(leading), Edge(trailing), Poll];
    assert events[1..] == [Edge(trailing), Poll];
    assert events[1..][1..] == [Poll];
    assert Execute(m, events) == Execute(armed, events[1..]);
    assert Execute(armed, events[1..]) == Execute(done, [Poll]);
    assert Execute(done, [Poll]) == Step(done, Poll);
  }

  /** A leading edge with no trailing edge: the count stays at 1, the latched
      width and the distance keep their old values, and no number of loop
      passes moves on. */
  lemma MissingEchoStall(m: Machine, leading: bv16, polls: seq<Event>)
    requires Operating(m.sys) && m.sys.edgeCount == 0 && AllPolls(polls)
    ensures var armed := Step(m, Edge(leading));
            && armed.sys.edgeCount == 1
            && armed.sys.timePeriod == m.sys.timePeriod
            && armed.distance == m.distance
            && Execute(armed, polls) == armed
  {
  }

  /** From reset: a pulse whose trailing edge finds the counter at 1120 ticks
      reads as 10 cm. */
  lemma EndToEnd()
    ensures Execute(Start(), [Edge(0), Edge(1120), Poll]).distance == 10
  {
  }

  /** What a loop pass shows. The LEDs, buzzer and banner show the zone of the
      distance after the pass. If the pass consumed a measurement, the
      caption, number and padding are written from column 0 and the unit from
      column 14 over what the first line showed; from 10 cm up that is the
      whole new reading. Otherwise the first line is left as it was. */
  lemma IterationDisplay(m: Machine, p: Panel)
    requires WellFormed(p)
    ensures var r := Iteration(m);
            var q := Run(p, r.outputs);
            var d := r.machine.distance;
            var head := Caption + Decimal(d) + PadText(PaddingAsWritten(d));
            && WellFormed(q)
            && Shown(q) == Expected(ZoneOf(d).value)
            && (m.sys.edgeCount == 2 ==>
                  q.lcd.line0 == Overwrite(Overwrite(p.lcd.line0, 0, head), UnitColumn, Unit))
            && (m.sys.edgeCount == 2 && d >= 10 ==> q.lcd.line0 == head + Unit)
            && (m.sys.edgeCount != 2 ==> q.lcd.line0 == p.lcd.line0)
  {
    var consumed := Consume(m);
    var d := consumed.machine.distance;
    RunAppend(p, consumed.outputs, Actuate(d));
    var printed := Run(p, consumed.outputs);
    if m.sys.edgeCount == 2 {
      DistanceLineEffect(p, d, PaddingAsWritten(d));
      if d >= 10 {
        AsWrittenMatchesCorrected(d);
        CorrectedDistanceLineShowsReading(p, d);
      }
    }
    ActuateShowsZone(printed, d);
  }

  /** As written, a pass that consumes a 5 cm reading (a width of 560 to 671
      ticks) while the first line shows the 123 cm reading leaves the last
      digit of the old reading on the display. */
  lemma AsWrittenPassLeavesStaleDigit(m: Machine, p: Panel)
    requires WellFormed(p) && p.lcd.line0 == "Distance = 123cm"
    requires m.sys.edgeCount == 2 && 560 <= m.sys.timePeriod as int < 672
    ensures Run(p, Iteration(m).outputs).lcd.line0 == "Distance = 5 3cm"
  {
    var consumed := Consume(m);
    assert consumed.machine.distance == 5;
    RunAppend(p, consumed.outputs, Actuate(5));
    Shows5AsWritten(p);
    DistanceLineEffect(p, 5, PaddingAsWritten(5));
    ActuateShowsZone(Run(p, consumed.outputs), 5);
  }
}
