/** The outputs of the main loop: the LED, buzzer and LCD driver calls it
    makes, recorded in order as `Output` values, and a small model of the
    devices (three LEDs, a buzzer, a 2x16 character LCD with a cursor) that
    gives those calls a meaning. The LED, buzzer and LCD drivers themselves
    are not part of this model; the LCD is assumed to print each character at
    the cursor and advance it, and `LCD_intgerToString` to print the decimal
    digits of its argument without padding. */
module Display {
  import opened Base

  datatype Led = Red | Green | Blue

  /** One output-driver call. */
  datatype Output =
    | LedOn(led: Led)
    | LedOff(led: Led)
    | BuzzerOn
    | BuzzerOff
    | DelayMs(ms: nat)
    | MoveCursor(row: nat, col: nat)
    | SendString(text: string)
    | SendInteger(value: nat)

  /** Visible columns per LCD line. */
  const Width := 16

  /** The two visible lines and the cursor position. */
  datatype Lcd = Lcd(line0: string, line1: string, row: nat, col: nat)

  datatype Panel = Panel(red: bool, green: bool, blue: bool, buzzer: bool, lcd: Lcd)

  predicate WellFormed(p: Panel) {
    |p.lcd.line0| == Width && |p.lcd.line1| == Width
  }

  function Digit(n: nat): char
    requires n < 10
  {
    "0123456789"[n]
  }

  /** Decimal digits of `n`, most significant first, no leading zeros. */
  function Decimal(n: nat): (s: string)
    ensures 1 <= |s|
    ensures n < 10 ==> |s| == 1
    ensures 10 <= n < 100 ==> |s| == 2
    ensures 100 <= n < 1000 ==> |s| == 3
  {
    if n < 10 then [Digit(n)] else Decimal(n / 10) + [Digit(n % 10)]
  }

  /** The value of a character as a decimal digit. */
  function DigitValue(c: char): nat {
    if '0' <= c <= '9' then c as int - '0' as int else 0
  }

  /** The number a string of decimal digits denotes, most significant first. */
  function Value(s: string): nat
    decreases |s|
  {
    if s == [] then 0 else Value(s[..|s| - 1]) * 10 + DigitValue(s[|s| - 1])
  }

  predicate AllDigits(s: string) {
    forall i :: 0 <= i < |s| ==> '0' <= s[i] <= '9'
  }

  lemma DigitDenotes(n: nat)
    requires n < 10
    ensures '0' <= Digit(n) <= '9' && DigitValue(Digit(n)) == n
  {
  }

  /** `Decimal` prints plain decimal digits that denote `n`, with no leading
      zero. */
  lemma {:induction false} DecimalDenotes(n: nat)
    ensures AllDigits(Decimal(n)) && Value(Decimal(n)) == n
    ensures n >= 10 ==> Decimal(n)[0] != '0'
  {
    if n < 10 {
      DigitDenotes(n);
      assert Decimal(n)[..0] == [];
    } else {
      var front := Decimal(n / 10);
      DecimalDenotes(n / 10);
      DigitDenotes(n % 10);
      var s := front + [Digit(n % 10)];
      assert s[..|s| - 1] == front;
      assert Value(s) == (n / 10) * 10 + n % 10;
      assert n / 10 >= 10 ==> front[0] != '0';
      if n / 10 < 10 {
        DigitDenotes(n / 10);
        assert front == [Digit(n / 10)];
      }
    }
  }

  /** `line` with `text` written from column `col`; characters that fall past
      the last visible column are not shown. */
  function Overwrite(line: string, col: nat, text: string): (r: string)
    ensures |r| == |line|
  {
    seq(|line|, i requires 0 <= i < |line| => if col <= i < col + |text| then text[i - col] else line[i])
  }

  /** Writing `a` then, right after it, `b` is writing `a + b`. */
  lemma OverwriteAdjacent(line: string, col: nat, a: string, b: string)
    ensures Overwrite(Overwrite(line, col, a), col + |a|, b) == Overwrite(line, col, a + b)
  {
  }

  /** A text as wide as the line, written from column 0, replaces the whole
      line whatever it held. */
  lemma OverwriteWholeLine(line: string, text: string)
    requires |text| == |line|
    ensures Overwrite(line, 0, text) == text
  {
  }

  /** Print `text` at the cursor and advance the cursor past it. */
  function Print(lcd: Lcd, text: string): Lcd {
    var lcd' := lcd.(col := lcd.col + |text|);
    if lcd.row == 0 then lcd'.(line0 := Overwrite(lcd.line0, lcd.col, text))
    else if lcd.row == 1 then lcd'.(line1 := Overwrite(lcd.line1, lcd.col, text))
    else lcd'
  }

  /** The effect of one driver call on the devices. */
  function Apply(p: Panel, o: Output): (q: Panel)
    ensures WellFormed(p) ==> WellFormed(q)
  {
    match o
    case LedOn(Red) => p.(red := true)
    case LedOn(Green) => p.(green := true)
    case LedOn(Blue) => p.(blue := true)
    case LedOff(Red) => p.(red := false)
    case LedOff(Green) => p.(green := false)
    case LedOff(Blue) => p.(blue := false)
    case BuzzerOn => p.(buzzer := true)
    case BuzzerOff => p.(buzzer := false)
    case DelayMs(_) => p
    case MoveCursor(row, col) => p.(lcd := p.lcd.(row := row, col := col))
    case SendString(text) => p.(lcd := Print(p.lcd, text))
    case SendInteger(value) => p.(lcd := Print(p.lcd, Decimal(value)))
  }

  /** The effect of a sequence of driver calls, in order. */
  function Run(p: Panel, outs: seq<Output>): (q: Panel)
    ensures WellFormed(p) ==> WellFormed(q)
    decreases |outs|
  {
    if outs == [] then p else Run(Apply(p, outs[0]), outs[1..])
  }

  /** Running two call sequences one after the other is running their
      concatenation. */
  lemma {:induction false} RunAppend(p: Panel, a: seq<Output>, b: seq<Output>)
    ensures Run(p, a + b) == Run(Run(p, a), b)
    decreases |a|
  {
    if a == [] {
      assert a + b == b;
    } else {
      assert (a + b)[0] == a[0];
      assert (a + b)[1..] == a[1..] + b;
      RunAppend(Apply(p, a[0]), a[1..], b);
    }
  }

  /** Running a call followed by more calls. */
  lemma RunCons(p: Panel, o: Output, rest: seq<Output>)
    ensures Run(p, [o] + rest) == Run(Apply(p, o), rest)
  {
  }

  // ---------------------------------------------------------------------
  // The distance line (first LCD line)

  /** What follows the number on the distance line. */
  datatype Padding = OneSpace | TwoSpaces | NoPadding

  function PadText(pad: Padding): string {
    match pad
    case OneSpace => " "
    case TwoSpaces => "  "
    case NoPadding => ""
  }

  const Caption := "Distance = "
  const Unit := "cm"
  /** The column where the unit is printed. */
  const UnitColumn := 14

  /** The padding branch as written: the `distance < 10` test comes after the
      `distance < 100` test, so it is never reached and a one-digit distance
      is followed by one space only. */
  function PaddingAsWritten(distance: Uint16): (pad: Padding)
    ensures pad != TwoSpaces
    ensures pad == OneSpace <==> distance < 100
  {
    if distance < 100 then OneSpace
    else if distance < 10 then TwoSpaces
    else NoPadding
  }

  /** The padding with the one-digit test first: the number and its padding
      always fill the three columns before the unit. */
  function PaddingCorrected(distance: Uint16): (pad: Padding)
    ensures distance < 1000 ==> |Decimal(distance)| + |PadText(pad)| == 3
    ensures pad == TwoSpaces <==> distance < 10
  {
    if distance < 10 then TwoSpaces
    else if distance < 100 then OneSpace
    else NoPadding
  }

  /** The calls that print the distance line: caption at column 0, the
      number, its padding, then the unit at column 14. */
  function DistanceLine(distance: Uint16, pad: Padding): (outs: seq<Output>)
    ensures |outs| == if pad == NoPadding then 5 else 6
    ensures outs[0] == MoveCursor(0, 0) && outs[1] == SendString(Caption) && outs[2] == SendInteger(distance)
    ensures pad != NoPadding ==> outs[3] == SendString(PadText(pad))
    ensures outs[|outs| - 2..] == [MoveCursor(0, UnitColumn), SendString(Unit)]
    ensures forall i :: 0 <= i < |outs| && outs[i].MoveCursor? ==> outs[i].row == 0
  {
    [MoveCursor(0, 0)] + Reading(distance, pad) + [MoveCursor(0, UnitColumn), SendString(Unit)]
  }

  /** Caption, number and padding, printed from wherever the cursor is. */
  function Reading(distance: Uint16, pad: Padding): seq<Output> {
    [SendString(Caption), SendInteger(distance)]
    + (if pad == NoPadding then [] else [SendString(PadText(pad))])
  }

  /** Two prints on the first line in a row are one print of both texts. */
  lemma PrintAdjacent(lcd: Lcd, a: string, b: string)
    requires lcd.row == 0
    ensures Print(Print(lcd, a), b) == Print(lcd, a + b)
  {
  }

  /** The effect of a run of calls that only print at the cursor on the
      first line: one print of their joined text. */
  lemma PrintRun(p: Panel, texts: seq<string>)
    requires p.lcd.row == 0
    ensures Run(p, Prints(texts)).lcd == Print(p.lcd, Joined(texts))
    ensures Run(p, Prints(texts)).(lcd := p.lcd) == p
    decreases |texts|
  {
    if texts != [] {
      var first := SendString(texts[0]);
      assert Prints(texts) == [first] + Prints(texts[1..]);
      RunCons(p, first, Prints(texts[1..]));
      PrintRun(Apply(p, first), texts[1..]);
      PrintAdjacent(p.lcd, texts[0], Joined(texts[1..]));
    } else {
      assert Print(p.lcd, "") == p.lcd;
    }
  }

  function Prints(texts: seq<string>): seq<Output> {
    if texts == [] then [] else [SendString(texts[0])] + Prints(texts[1..])
  }

  function Joined(texts: seq<string>): string {
    if texts == [] then "" else texts[0] + Joined(texts[1..])
  }

  /** Three texts printed one after the other are their concatenation. */
  lemma ThreeTexts(a: string, b: string, c: string)
    ensures Joined([a, b, c]) == a + b + c
    ensures Prints([a, b, c]) == [SendString(a), SendString(b), SendString(c)]
  {
    var texts := [a, b, c];
    assert texts[1..] == [b, c];
    assert texts[1..][1..] == [c];
    assert Joined([c]) == c + "";
    assert Prints([c]) == [SendString(c)];
  }

  /** On the first line the reading prints caption, number and padding as
      one text. */
  lemma ReadingEffect(p: Panel, distance: Uint16, pad: Padding)
    requires p.lcd.row == 0
    ensures Run(p, Reading(distance, pad)).lcd == Print(p.lcd, Caption + Decimal(distance) + PadText(pad))
    ensures Run(p, Reading(distance, pad)).(lcd := p.lcd) == p
  {
    var texts := [Caption, Decimal(distance), PadText(pad)];
    ThreeTexts(Caption, Decimal(distance), PadText(pad));
    PrintRun(p, texts);
    var viaString := Prints(texts);
    var reading := Reading(distance, pad);
    RunCons(p, SendString(Caption), viaString[1..]);
    RunCons(p, SendString(Caption), reading[1..]);
    var h1 := Apply(p, SendString(Caption));
    RunCons(h1, SendInteger(distance), reading[2..]);
    RunCons(h1, SendString(Decimal(distance)), viaString[2..]);
    var h2 := Apply(h1, SendInteger(distance));
    assert h2 == Apply(h1, SendString(Decimal(distance)));
    if pad == NoPadding {
      assert reading[2..] == [];
      RunCons(h2, SendString(""), []);
      assert Print(h2.lcd, "") == h2.lcd;
    } else {
      assert reading[2..] == viaString[2..];
    }
  }

  /** The first line after printing the distance line: the caption, number
      and padding written from column 0, then the unit from column 14. Only
      the first line and the cursor change. */
  lemma DistanceLineEffect(p: Panel, distance: Uint16, pad: Padding)
    requires WellFormed(p)
    ensures var q := Run(p, DistanceLine(distance, pad));
            var head := Caption + Decimal(distance) + PadText(pad);
            && q.lcd.line0 == Overwrite(Overwrite(p.lcd.line0, 0, head), UnitColumn, Unit)
            && q.lcd.line1 == p.lcd.line1
            && q.red == p.red && q.green == p.green && q.blue == p.blue && q.buzzer == p.buzzer
  {
    var home := Apply(p, MoveCursor(0, 0));
    var reading := Reading(distance, pad);
    var tail := [MoveCursor(0, UnitColumn), SendString(Unit)];
    assert DistanceLine(distance, pad) == [MoveCursor(0, 0)] + (reading + tail);
    RunCons(p, MoveCursor(0, 0), reading + tail);
    RunAppend(home, reading, tail);
    ReadingEffect(home, distance, pad);
    var printed := Run(home, reading);
    RunCons(printed, MoveCursor(0, UnitColumn), [SendString(Unit)]);
    RunCons(Apply(printed, MoveCursor(0, UnitColumn)), SendString(Unit), []);
  }

  /** With the corrected padding every distance below 1000 shows as exactly
      caption, number, padding and unit across the whole line, whatever the
      line showed before: no character of an earlier reading survives. */
  lemma CorrectedDistanceLineShowsReading(p: Panel, distance: Uint16)
    requires WellFormed(p) && distance < 1000
    ensures Run(p, DistanceLine(distance, PaddingCorrected(distance))).lcd.line0
            == Caption + Decimal(distance) + PadText(PaddingCorrected(distance)) + Unit
  {
    var pad := PaddingCorrected(distance);
    var head := Caption + Decimal(distance) + PadText(pad);
    DistanceLineEffect(p, distance, pad);
    OverwriteAdjacent(p.lcd.line0, 0, head, Unit);
    OverwriteWholeLine(p.lcd.line0, head + Unit);
  }

  /** The two paddings differ only below 10: from 10 up the padding as
      written is the intended one. */
  lemma AsWrittenMatchesCorrected(distance: Uint16)
    ensures PaddingAsWritten(distance) == PaddingCorrected(distance) <==> distance >= 10
  {
  }

  /** As written, a one-digit distance leaves column 13 as it was. */
  lemma AsWrittenKeepsColumn13(p: Panel, distance: Uint16)
    requires WellFormed(p) && distance < 10
    ensures Run(p, DistanceLine(distance, PaddingAsWritten(distance))).lcd.line0[13] == p.lcd.line0[13]
  {
    DistanceLineEffect(p, distance, PaddingAsWritten(distance));
  }

  /** As written, a reading of 123 followed by a reading of 5 shows
      "Distance = 5 3cm": the last digit of the earlier reading stays. */
  lemma AsWrittenStaleDigit(p: Panel)
    requires WellFormed(p)
    ensures var shown123 := Run(p, DistanceLine(123, PaddingAsWritten(123)));
            var shown5 := Run(shown123, DistanceLine(5, PaddingAsWritten(5)));
            && shown123.lcd.line0 == "Distance = 123cm"
            && shown5.lcd.line0 == "Distance = 5 3cm"
  {
    Shows123(p);
    var shown123 := Run(p, DistanceLine(123, PaddingAsWritten(123)));
    Shows5AsWritten(shown123);
  }

  lemma Shows123(p: Panel)
    requires WellFormed(p)
    ensures Run(p, DistanceLine(123, PaddingAsWritten(123))).lcd.line0 == "Distance = 123cm"
  {
    SampleDigits();
    CorrectedDistanceLineShowsReading(p, 123);
    assert PaddingAsWritten(123) == PaddingCorrected(123) == NoPadding;
    Line123();
  }

  lemma Line123()
    ensures Caption + "123" + "" + Unit == "Distance = 123cm"
  {
  }

  lemma Shows5AsWritten(p: Panel)
    requires WellFormed(p) && p.lcd.line0 == "Distance = 123cm"
    ensures Run(p, DistanceLine(5, PaddingAsWritten(5))).lcd.line0 == "Distance = 5 3cm"
  {
    SampleDigits();
    DistanceLineEffect(p, 5, PaddingAsWritten(5));
    assert PaddingAsWritten(5) == OneSpace;
    assert Caption + Decimal(5) + PadText(OneSpace) == "Distance = 5 ";
    StaleLine();
  }

  lemma SampleDigits()
    ensures Decimal(123) == "123" && Decimal(5) == "5"
  {
  }

  lemma StaleLine()
    ensures Overwrite(Overwrite("Distance = 123cm", 0, "Distance = 5 "), UnitColumn, Unit) == "Distance = 5 3cm"
  {
  }

  // ---------------------------------------------------------------------
  // Proximity zones (LEDs, buzzer, second LCD line)

  /** The five branches of the zone table, nearest last. */
  datatype Zone = Clear | Caution | Warning | Danger | Stop

  /** The condition under which the source takes each branch. */
  predicate Guard(z: Zone, distance: int) {
    match z
    case Clear => distance >= 20
    case Caution => distance >= 16 && distance < 20
    case Warning => distance >= 11 && distance < 16
    case Danger => distance >= 6 && distance < 11
    case Stop => distance <= 5
  }

  /** No distance satisfies two branch conditions. */
  lemma GuardsDisjoint(distance: int, z: Zone, z': Zone)
    requires Guard(z, distance) && Guard(z', distance)
    ensures z == z'
  {
  }

  /** The else-if chain: the first branch whose condition holds. There is no
      final else, so `None` would mean no output at all; it never happens. */
  function ZoneOf(distance: Uint16): (z: Option<Zone>)
    ensures z.Some? && Guard(z.value, distance)
  {
    if distance >= 20 then Some(Clear)
    else if distance >= 16 && distance < 20 then Some(Caution)
    else if distance >= 11 && distance < 16 then Some(Warning)
    else if distance >= 6 && distance < 11 then Some(Danger)
    else if distance <= 5 then Some(Stop)
    else None
  }

  /** Column where the second line's STOP banner is printed. */
  const BannerColumn := 6

  /** The calls each branch makes, in order: LEDs and buzzer, then the
      banner on the second line. */
  function ZoneOutputs(z: Zone): seq<Output> {
    LampCalls(z) + [MoveCursor(1, BannerColumn), SendString(BannerText(z))]
  }

  function LampCalls(z: Zone): seq<Output> {
    match z
    case Clear => [LedOff(Red), LedOff(Green), LedOff(Blue), BuzzerOff]
    case Caution => [LedOn(Red), LedOff(Green), LedOff(Blue), BuzzerOff]
    case Warning => [LedOn(Red), LedOn(Green), LedOff(Blue), BuzzerOff]
    case Danger => [LedOn(Red), LedOn(Green), LedOn(Blue), BuzzerOff]
    case Stop =>
      [LedOn(Red), LedOn(Green), LedOn(Blue), DelayMs(500),
       LedOff(Red), LedOff(Green), LedOff(Blue), DelayMs(500), BuzzerOn]
  }

  /** Four blanks erase the banner; the nearest zone prints STOP. */
  function BannerText(z: Zone): string {
    if z == Stop then "STOP" else "    "
  }

  /** The actuation section of one main-loop pass for the current distance. */
  function Actuate(distance: Uint16): (outs: seq<Output>)
    ensures |outs| >= 2
    ensures outs[|outs| - 2..] == [MoveCursor(1, BannerColumn), SendString(BannerText(ZoneOf(distance).value))]
    ensures forall i :: 0 <= i < |outs| && outs[i].MoveCursor? ==> outs[i].row == 1
    ensures forall i :: 0 <= i < |outs| ==> !outs[i].SendInteger?
    ensures BuzzerOn in outs <==> distance <= 5
  {
    match ZoneOf(distance)
    case None => []
    case Some(z) => ZoneOutputs(z)
  }

  /** What the driver is meant to show in each zone. */
  datatype Indication = Indication(red: bool, green: bool, blue: bool, buzzer: bool, banner: string)

  /** The reference table of indications, nearest zone last. */
  function Expected(z: Zone): Indication {
    match z
    case Clear => Indication(false, false, false, false, "    ")
    case Caution => Indication(true, false, false, false, "    ")
    case Warning => Indication(true, true, false, false, "    ")
    case Danger => Indication(true, true, true, false, "    ")
    case Stop => Indication(false, false, false, true, "STOP")
  }

  /** The indication a panel shows: LEDs, buzzer and the banner columns. */
  function Shown(p: Panel): Indication
    requires WellFormed(p)
  {
    Indication(p.red, p.green, p.blue, p.buzzer, p.lcd.line1[BannerColumn..BannerColumn + 4])
  }

  /** Moving to the banner column of the second line and printing a
      four-character text shows that text there and changes nothing else
      that is visible. */
  lemma BannerEffect(p: Panel, text: string)
    requires WellFormed(p) && |text| == 4
    ensures var q := Run(p, [MoveCursor(1, BannerColumn), SendString(text)]);
            && WellFormed(q)
            && q.lcd.line1[BannerColumn..BannerColumn + 4] == text
            && q.lcd.line0 == p.lcd.line0
            && q.(lcd := p.lcd) == p
  {
    RunCons(p, MoveCursor(1, BannerColumn), [SendString(text)]);
    var moved := Apply(p, MoveCursor(1, BannerColumn));
    RunCons(moved, SendString(text), []);
    var q := Apply(moved, SendString(text));
    assert q.lcd.line1 == Overwrite(p.lcd.line1, BannerColumn, text);
  }

  /** The LED and buzzer calls of a zone leave the lamps as the reference
      table says and do not touch the display. */
  lemma LampCallsEffect(p: Panel, z: Zone)
    ensures var lit := Run(p, LampCalls(z));
            && lit.lcd == p.lcd
            && lit.red == Expected(z).red && lit.green == Expected(z).green
            && lit.blue == Expected(z).blue && lit.buzzer == Expected(z).buzzer
  {
    match z
    case Clear => assert Run(p, LampCalls(Clear)) == p.(red := false, green := false, blue := false, buzzer := false);
    case Caution => assert Run(p, LampCalls(Caution)) == p.(red := true, green := false, blue := false, buzzer := false);
    case Warning => assert Run(p, LampCalls(Warning)) == p.(red := true, green := true, blue := false, buzzer := false);
    case Danger => assert Run(p, LampCalls(Danger)) == p.(red := true, green := true, blue := true, buzzer := false);
    case Stop =>
      // lamps on for 500 ms, then off for 500 ms, then the buzzer
      var flash := [LedOn(Red), LedOn(Green), LedOn(Blue), DelayMs(500)];
      var dark := [LedOff(Red), LedOff(Green), LedOff(Blue), DelayMs(500), BuzzerOn];
      assert LampCalls(Stop) == flash + dark;
      RunAppend(p, flash, dark);
      assert Run(Run(p, flash), dark) == p.(red := false, green := false, blue := false, buzzer := true);
  }

  /** Whatever the panel showed before, the actuation section leaves it
      showing the indication of the distance's zone, and the first line
      unchanged. */
  lemma ActuateShowsZone(p: Panel, distance: Uint16)
    requires WellFormed(p)
    ensures var q := Run(p, Actuate(distance));
            && WellFormed(q)
            && Shown(q) == Expected(ZoneOf(distance).value)
            && q.lcd.line0 == p.lcd.line0
  {
    var z := ZoneOf(distance).value;
    RunAppend(p, LampCalls(z), [MoveCursor(1, BannerColumn), SendString(BannerText(z))]);
    LampCallsEffect(p, z);
    BannerEffect(Run(p, LampCalls(z)), BannerText(z));
  }
}
