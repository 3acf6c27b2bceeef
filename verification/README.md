# Parking-system echo capture, in Dafny

A model of the ultrasonic parking sensor's measuring core on an ATmega32:

- the Timer1 input-capture (ICU) driver, as pure transformers of a register
  file (`TCCR1A`, `TCCR1B`, `TIMSK` as `bv8`; `TCNT1`, `ICR1` as `bv16`) plus a
  single nullable callback slot (module `Icu`, file `icu.dfy`);
- the two-edge capture state machine `Ultrasonic_edgeProcessing` over the
  globals `g_edgeCount` (`uint8`, wrapping) and `g_timePeriod` (`uint16`),
  and the capture event that runs it from the ISR (module `EdgeCapture`);
- `Ultrasonic_init` and the tick-to-centimetre conversion `g_timePeriod / 112`
  (module `Ultrasonic`);
- the distance display and the proximity-zone table of `main`, as the ordered
  list of LED, buzzer and LCD driver calls, with a small device model that
  gives those calls a meaning (module `Display`);
- `main`'s start-up and loop: a pass consumes a measurement only when the
  edge count is exactly 2, then drives the outputs; capture events and loop
  passes interleave as atomic steps (module `ParkingLoop`).

Bit positions are those of the ATmega32 register map (FOC1A = bit 3 and
FOC1B = bit 2 of TCCR1A, ICES1 = bit 6 of TCCR1B, TICIE1 = bit 5 of TIMSK),
which the driver takes from `avr/io.h`; all five registers reset to zero.

Environment assumption: on a qualifying edge the hardware copies the running
counter into ICR1 and then, if TICIE1 is set, runs the capture ISR. The
counter value is not computed: each capture event carries an arbitrary `bv16`
supplied by the caller, and TCNT1 never advances by itself in the model.

The edge count is not confined to {0, 1, 2}: surplus edges before the main
loop consumes a measurement push it to 3 and on, wrapping at 256, and only a
count of exactly 2 is ever consumed. There is no critical section around the
shared `g_timePeriod`. The main loop prints the distance line with the
padding exactly as the code writes it; the intended padding is modelled
beside it (see "## Findings").

## Model

| member | source | states |
|---|---|---|
| `Icu.EdgeCode` | MIni_Interfacing_2_Ultrasonic/C_Code/Parking_System/ICU.h:30-34 | FALLING is 0 and RISING is 1, so the code shifted left by 6 sets ICES1 exactly for a rising edge |
| `Icu.ClockCode` | MIni_Interfacing_2_Ultrasonic/C_Code/Parking_System/ICU.h:37-44 | every clock code is at most 5 and has no bit outside the three clock-select bits |
| `Icu.ClockCodeRoundTrip` | MIni_Interfacing_2_Ultrasonic/C_Code/Parking_System/ICU.h:37-44 | decoding the clock-select bits of a clock's code gives that clock back |
| `Icu.SelectClock` | MIni_Interfacing_2_Ultrasonic/C_Code/Parking_System/ICU.c:49 | after the masked write the clock-select bits decode to the requested clock and bits 3-7 (including the edge bit) are unchanged |
| `Icu.SelectEdge` | MIni_Interfacing_2_Ultrasonic/C_Code/Parking_System/ICU.c:52 | after the masked write the edge bit decodes to the requested edge, no other bit changes, and the clock is kept |
| `Icu.Init` | MIni_Interfacing_2_Ultrasonic/C_Code/Parking_System/ICU.c:37-62 | TCCR1B selects the configured clock and edge with its other bits kept; FOC1A, FOC1B set in TCCR1A and TICIE1 in TIMSK with all other bits kept; TCNT1 and ICR1 zero; callback slot untouched |
| `Icu.SetCallBack` | MIni_Interfacing_2_Ultrasonic/C_Code/Parking_System/ICU.c:70-74 | the slot holds exactly the given (possibly null) callback and no register changes |
| `Icu.LastCallBackWins` | MIni_Interfacing_2_Ultrasonic/C_Code/Parking_System/ICU.c:70-74 | two registrations in a row equal the second one alone |
| `Icu.SetEdgeDetectionType` | MIni_Interfacing_2_Ultrasonic/C_Code/Parking_System/ICU.c:81-85 | the edge bit decodes to the requested edge; no other TCCR1B bit, no other register and not the slot changes |
| `Icu.SetEdgeDetectionTypeIdempotent` | MIni_Interfacing_2_Ultrasonic/C_Code/Parking_System/ICU.c:81-85 | setting an edge twice equals setting it once, and a later setting overrides an earlier one |
| `Icu.ClearTimerValue` | MIni_Interfacing_2_Ultrasonic/C_Code/Parking_System/ICU.c:102-106 | TCNT1 becomes zero; ICR1, TCCR1A/B, TIMSK and the slot are unchanged |
| `Icu.GetInputCaptureValue` | MIni_Interfacing_2_Ultrasonic/C_Code/Parking_System/ICU.c:92-96 | the value returned is the content of ICR1: writing it back leaves the register file unchanged |
| `Icu.LatchCapture` | MIni_Interfacing_2_Ultrasonic/C_Code/Parking_System/ICU.c:92-96 | the environment step that feeds the getter: after the hardware latch on an edge `ICU_getInputCaptureValue` returns the latched counter value, and no other register and not the slot changes |
| `Icu.CaptureValueSurvivesDriverCalls` | MIni_Interfacing_2_Ultrasonic/C_Code/Parking_System/ICU.c:81-106 | clearing the counter or switching the edge leaves the latched capture value readable |
| `Icu.DeInit` | MIni_Interfacing_2_Ultrasonic/C_Code/Parking_System/ICU.c:113-132 | TCCR1A, TCCR1B, TCNT1, ICR1 zero; only TICIE1 cleared in TIMSK; slot null |
| `Icu.DeInitRestoresPowerOn` | MIni_Interfacing_2_Ultrasonic/C_Code/Parking_System/ICU.c:113-132 | from power-on TIMSK contents de-initialisation restores all power-on register values, and a second de-initialisation changes nothing |
| `EdgeCapture.EdgeProcessing` | MIni_Interfacing_2_Ultrasonic/C_Code/Parking_System/Main_App.c:18-38 | the count grows by one and wraps from 255 to 0; at count 1 TCNT1 is zero and the edge falling with the width kept; at count 2 the width is the current ICR1 and the edge rising; any other count changes nothing else; the clock, TCCR1A, TIMSK, ICR1 and the slot are never touched |
| `EdgeCapture.CaptureEvent` | MIni_Interfacing_2_Ultrasonic/C_Code/Parking_System/ICU.c:28-35 | a capture event (latch, then the ISR) always leaves the captured value readable, never touches the slot, TCCR1A or TIMSK, and either keeps the count or advances it by one modulo 256, and either keeps the width or sets it to the captured value |
| `EdgeCapture.CaptureDispatch` | MIni_Interfacing_2_Ultrasonic/C_Code/Parking_System/ICU.c:28-35 | with TICIE1 set and the edge-processing callback installed, an event is `Ultrasonic_edgeProcessing` run after the latch; with TICIE1 clear or a null slot it is the latch alone; the count moves exactly when TICIE1 is set and the slot is non-null |
| `EdgeCapture.NullCallbackIsSilent` | MIni_Interfacing_2_Ultrasonic/C_Code/Parking_System/ICU.c:28-35 | with a null slot a capture event changes nothing but the latched ICR1 |
| `EdgeCapture.DeInitSilencesCapture` | MIni_Interfacing_2_Ultrasonic/C_Code/Parking_System/ICU.c:113-132 | after de-initialisation a capture event leaves the count and the width unchanged |
| `EdgeCapture.CaptureEventKeepsOperating` | MIni_Interfacing_2_Ultrasonic/C_Code/Parking_System/Main_App.c:21-38 | once initialised, every capture event keeps the callback, interrupt enable and clock, and the edge is falling exactly at count 1 |
| `EdgeCapture.TwoEdgeCycle` | MIni_Interfacing_2_Ultrasonic/C_Code/Parking_System/Main_App.c:21-38 | from count 0 one edge leaves count 1, counter cleared, edge falling and the width unchanged; a second edge leaves count 2, the width equal to the second latched value and the edge rising |
| `EdgeCapture.ExtraEdgeOnlyCounts` | MIni_Interfacing_2_Ultrasonic/C_Code/Parking_System/Main_App.c:26-37 | an edge at count 2 or more only advances the count (modulo 256); the width and the registers except ICR1 stay |
| `Ultrasonic.Init` | MIni_Interfacing_2_Ultrasonic/C_Code/Parking_System/US_Sensor.c:19-27 | clock-select bits equal 2 (F_CPU/8), the edge bit is set (rising), the edge-processing callback is installed, the globals are untouched, and the machine is in the measuring configuration unless the count is 1 |
| `Ultrasonic.TicksToCm` | MIni_Interfacing_2_Ultrasonic/C_Code/Parking_System/US_Sensor.c:50 | the distance is the floor quotient of the period by 112 and is at most 585 |
| `Ultrasonic.ReadDistance` | MIni_Interfacing_2_Ultrasonic/C_Code/Parking_System/US_Sensor.c:46-52 | the distance is the floor quotient of `g_timePeriod` by 112 |
| `Ultrasonic.TicksToCmMonotone` | MIni_Interfacing_2_Ultrasonic/C_Code/Parking_System/US_Sensor.c:50 | a longer period never gives a shorter distance |
| `Ultrasonic.TicksToCmSamples` | MIni_Interfacing_2_Ultrasonic/C_Code/Parking_System/US_Sensor.c:50 | 0, 111, 112, 1120, 2240 and 65535 ticks give 0, 0, 1, 10, 20 and 585 cm |
| `Display.DecimalDenotes` | MIni_Interfacing_2_Ultrasonic/C_Code/Parking_System/Main_App.c:65 | the number printed for the distance is plain decimal digits, with no leading zero, that denote the distance |
| `Display.PaddingAsWritten` | MIni_Interfacing_2_Ultrasonic/C_Code/Parking_System/Main_App.c:63-77 | the number is followed by one space exactly when it is below 100, and the two-space branch is never taken |
| `Display.PaddingCorrected` | MIni_Interfacing_2_Ultrasonic/C_Code/Parking_System/Main_App.c:63-77 | with the one-digit test first, number and padding always take three columns, two spaces exactly below 10 |
| `Display.DistanceLine` | MIni_Interfacing_2_Ultrasonic/C_Code/Parking_System/Main_App.c:61-79 | the consume section's LCD calls: cursor to (0, 0), the caption, the number, the padding text unless there is none, cursor to (0, 14), then "cm"; every cursor move stays on the first line; `Display.DistanceLineEffect` gives their effect |
| `Display.DistanceLineEffect` | MIni_Interfacing_2_Ultrasonic/C_Code/Parking_System/Main_App.c:61-79 | printing the distance line writes caption, number and padding from column 0 and the unit from column 14; the second line, LEDs and buzzer are unchanged |
| `Display.CorrectedDistanceLineShowsReading` | MIni_Interfacing_2_Ultrasonic/C_Code/Parking_System/Main_App.c:61-79 | with the corrected padding the first line is exactly caption, number, padding and unit for every distance below 1000, whatever it showed before |
| `Display.AsWrittenMatchesCorrected` | MIni_Interfacing_2_Ultrasonic/C_Code/Parking_System/Main_App.c:63-77 | the padding as written equals the intended padding exactly from 10 up |
| `Display.AsWrittenKeepsColumn13` | MIni_Interfacing_2_Ultrasonic/C_Code/Parking_System/Main_App.c:63-67 | as written, a one-digit distance leaves column 13 of the first line as it was |
| `Display.AsWrittenStaleDigit` | MIni_Interfacing_2_Ultrasonic/C_Code/Parking_System/Main_App.c:61-79 | as written, a reading of 123 then a reading of 5 shows "Distance = 5 3cm" |
| `Display.GuardsDisjoint` | MIni_Interfacing_2_Ultrasonic/C_Code/Parking_System/Main_App.c:89-125 | no distance satisfies two of the five zone conditions |
| `Display.ZoneOf` | MIni_Interfacing_2_Ultrasonic/C_Code/Parking_System/Main_App.c:89-138 | the else-if chain always selects a branch, and its condition holds for the distance (the five conditions cover every `uint16`) |
| `Display.LampCallsEffect` | MIni_Interfacing_2_Ultrasonic/C_Code/Parking_System/Main_App.c:89-135 | each zone's LED and buzzer calls leave the lamps as the reference table says and do not touch the display |
| `Display.Actuate` | MIni_Interfacing_2_Ultrasonic/C_Code/Parking_System/Main_App.c:89-138 | the zone section's calls: the branch's LED and buzzer calls, then the banner at (1, 6); every cursor move is on the second line, no number is printed, and the buzzer is switched on exactly at 5 cm and below; `Display.LampCallsEffect` and `Display.ActuateShowsZone` give their effect |
| `Display.ActuateShowsZone` | MIni_Interfacing_2_Ultrasonic/C_Code/Parking_System/Main_App.c:89-138 | whatever was shown before: at 20 cm and up everything off and the banner blank; 16-19 red only; 11-15 red and green; 6-10 all three LEDs; at 5 and below LEDs off, buzzer on and STOP shown; the first line unchanged |
| `ParkingLoop.Start` | MIni_Interfacing_2_Ultrasonic/C_Code/Parking_System/Main_App.c:41-51 | after start-up the machine is in the measuring configuration with count, width and distance zero |
| `ParkingLoop.Consume` | MIni_Interfacing_2_Ultrasonic/C_Code/Parking_System/Main_App.c:58-82 | only count 2 is consumed: the count returns to 0, nothing else in the system changes, the distance is the width divided by 112 and the distance line is printed with the padding as written (one space below 100, none from 100); any other count changes nothing and prints nothing |
| `ParkingLoop.Iteration` | MIni_Interfacing_2_Ultrasonic/C_Code/Parking_System/Main_App.c:58-138 | a pass never touches the ICU or the width; at count 2 it resets the count, sets the distance to the width divided by 112 and makes the distance-line calls followed by the zone calls; at any other count it keeps the machine and makes only the zone calls for the kept distance |
| `ParkingLoop.Execute` | MIni_Interfacing_2_Ultrasonic/C_Code/Parking_System/Main_App.c:52-139 | the `while(1)` loop with capture ISRs interleaved between passes: no sequence of events changes the callback slot, TCCR1A or TIMSK, and loop passes alone leave the ICU and the width as they were; `ParkingLoop.ExecuteKeepsOperating` keeps the measuring configuration across it |
| `ParkingLoop.ExecuteKeepsOperating` | MIni_Interfacing_2_Ultrasonic/C_Code/Parking_System/Main_App.c:21-82 | after initialisation no interleaving of capture events and loop passes loses the measuring configuration |
| `ParkingLoop.UnconsumedCountStalls` | MIni_Interfacing_2_Ultrasonic/C_Code/Parking_System/Main_App.c:58-80 | with a count other than 2, any number of loop passes leaves the machine, including the distance, unchanged |
| `ParkingLoop.MeasurementCycle` | MIni_Interfacing_2_Ultrasonic/C_Code/Parking_System/Main_App.c:21-82 | from count 0, leading edge, trailing edge and one pass give the trailing value's distance, count 0 and the measuring configuration |
| `ParkingLoop.MissingEchoStall` | MIni_Interfacing_2_Ultrasonic/C_Code/Parking_System/Main_App.c:21-58 | a leading edge alone leaves count 1 with width and distance unchanged, and no number of passes moves on |
| `ParkingLoop.EndToEnd` | MIni_Interfacing_2_Ultrasonic/C_Code/Parking_System/US_Sensor.c:50 | from reset, a pulse latched at 1120 ticks reads as 10 cm |
| `ParkingLoop.IterationDisplay` | MIni_Interfacing_2_Ultrasonic/C_Code/Parking_System/Main_App.c:58-138 | after a pass the lamps and banner show the zone of the distance; a consuming pass writes caption, number and padding (as written) from column 0 and the unit from column 14 over the old first line, which is the whole new reading from 10 cm up; any other pass leaves the first line as it was |
| `ParkingLoop.AsWrittenPassLeavesStaleDigit` | MIni_Interfacing_2_Ultrasonic/C_Code/Parking_System/Main_App.c:58-79 | a pass consuming a 5 cm reading while the first line shows "Distance = 123cm" leaves "Distance = 5 3cm" |

## Left out

- GPIO pin-direction set-up in `ICU_Init` and `Ultrasonic_init`: it configures pins only and has no bearing on the capture registers.
- `Ultrasonic_Trigger` (the 10 microsecond pulse and its delay), called at start-up, in `Ultrasonic_readDistance` and after each consumption: it writes an output pin only, so it is a no-op on the model state.
- The `_delay_ms(500)` calls of the nearest zone are recorded as `DelayMs` outputs with no effect on the devices.
- The global interrupt enable (`SREG` bit 7) is not modelled; only the TICIE1 bit gates the ISR. Preemption of the ISR inside a loop pass is not modelled either: each ISR run is one atomic event between passes. The source has no critical section around the 16-bit `g_timePeriod`, so freedom from torn reads is not claimed.
- The float cast in `Ultrasonic_readDistance` is not modelled as floating point; the quotient is at most 585, which a float represents exactly, so the cast and the cast back are treated as the identity.
- Timer counting: TCNT1 never advances in the model and the value latched into ICR1 on an edge is supplied by the caller; which edges qualify (the polarity as seen by the hardware) is likewise left to the caller of `CaptureEvent`.
- Hardware behaviour beyond stored values: register writes are modelled as stored values, so the FOC1A/FOC1B strobes read back as set and the `ICR1 = 0` writes take effect, although on the part those strobe bits read as zero and ICR1 is read-only in normal mode. The pending capture flag ICF1 is not modelled, so a capture while TICIE1 is clear does not run the ISR after a later `ICU_Init`. The non-`volatile` globals are assumed to be re-read on every pass. None of this changes what the application observes.
- The LED, buzzer and LCD drivers and `buzzer.h` are not part of this model: their calls are recorded as `Output` values, and the LCD is assumed to print at the cursor and advance it, with `LCD_intgerToString` printing plain decimal digits.
- `Ultrasonic.ReadDistance` only reads state; being a pure function it cannot modify any, so that promise needs no contract.

## Findings

| source | as written | input that shows it | evidently intended | confidence | as-written member | corrected member |
|---|---|---|---|---|---|---|
| MIni_Interfacing_2_Ultrasonic/C_Code/Parking_System/Main_App.c:63-77 | `distance < 100` is tested before `distance < 10`, so the two-space branch is dead and a one-digit reading gets one space | a reading of 123 followed by a reading of 5 leaves the first line showing "Distance = 5 3cm" | test `distance < 10` first so a one-digit reading is padded with two spaces and column 13 is cleared | medium (the LCD driver is not part of this model), not executed | `Display.AsWrittenStaleDigit` | `Display.CorrectedDistanceLineShowsReading` |
