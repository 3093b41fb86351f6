/** VALARM trigger durations: the `[+-]P[nD][T[nH][nM][nS]]` form of section 3.3.6 of RFC 5545. */
module Duration {
  import opened Civil
  import opened Text

  datatype State = State(days: int, hours: int, minutes: int, seconds: int, number: string, inTime: bool)

  const START: State := State(0, 0, 0, 0, "", false)

  function Step(st: State, ch: char): Option<State> {
    if IsDigit(ch) then Some(st.(number := st.number + [ch])) else
      match if st.number == "" then Some(0) else ParseI64(st.number)
      case None => None
      case Some(n) =>
        var st := st.(number := "");
        if ch == 'D' && !st.inTime then Some(st.(days := n))
        else if ch == 'T' && !st.inTime then Some(st.(inTime := true))
        else if ch == 'H' && st.inTime then Some(st.(hours := n))
        else if ch == 'M' && st.inTime then Some(st.(minutes := n))
        else if ch == 'S' && st.inTime then Some(st.(seconds := n))
        else if ch == 'W' && !st.inTime then Some(st.(days := n * 7))
        else None
  }

  function Run(st: State, text: string): Option<State>
    decreases |text|
  {
    if |text| == 0 then Some(st) else
      match Step(st, text[0])
      case None => None
      case Some(next) => Run(next, text[1..])
  }

  function Total(st: State): int {
    st.days * MS_PER_DAY + st.hours * 3_600_000 + st.minutes * 60_000 + st.seconds * 1_000
  }

  function SignOf(value: string): (int, string) {
    if |value| > 0 && value[0] == '-' then (-1, value[1..])
    else if |value| > 0 && value[0] == '+' then (1, value[1..])
    else (1, value)
  }

  function DurationOf(value: string): Option<int> {
    var (sign, rest) := SignOf(value);
    if |rest| == 0 || rest[0] != 'P' then None else
      match Run(START, rest[1..])
      case None => None
      case Some(st) => Some(sign * Total(st))
  }

  method ParseDuration(value: string) returns (ms: Option<int>)
    ensures ms == DurationOf(value)
  {
    var (sign, rest) := SignOf(value);
    if |rest| == 0 || rest[0] != 'P' {
      return None;
    }
    var text := rest[1..];
    var st := START;
    for i := 0 to |text|
      invariant Run(START, text) == Run(st, text[i..])
    {
      assert text[i..][1..] == text[i + 1..];
      var next := Step(st, text[i]);
      if next.None? {
        return None;
      }
      st := next.value;
    }
    return Some(sign * Total(st));
  }

  function Signed(n: int): string {
    if n < 0 then "-" + Decimal(-n) else Decimal(n)
  }

  /** A reminder `ms` before the start, in the largest unit that divides it. */
  function FmtDurationBefore(ms: int): string {
    if ms % 3_600_000 == 0 then "-PT" + Signed(TruncDiv(ms, 3_600_000)) + "H"
    else if ms % 60_000 == 0 then "-PT" + Signed(TruncDiv(ms, 60_000)) + "M"
    else "-PT" + Signed(TruncDiv(ms, 1_000)) + "S"
  }

  lemma {:induction false} RunDigits(st: State, digits: string, tail: string)
    requires AllDigits(digits)
    ensures Run(st, digits + tail) == Run(st.(number := st.number + digits), tail)
    decreases |digits|
  {
    if |digits| == 0 {
      assert digits + tail == tail;
      assert st.number + digits == st.number;
    } else {
      var text := digits + tail;
      assert text[0] == digits[0] && text[1..] == digits[1..] + tail;
      var next := st.(number := st.number + [digits[0]]);
      RunDigits(next, digits[1..], tail);
      assert next.number + digits[1..] == st.number + digits;
    }
  }

  function InUnit(n: int, unit: char): State {
    var st := START.(inTime := true);
    if unit == 'H' then st.(hours := n) else if unit == 'M' then st.(minutes := n) else st.(seconds := n)
  }

  lemma ReadUnit(n: nat, unit: char)
    requires n <= I64_MAX && unit in {'H', 'M', 'S'}
    ensures Run(START, "T" + Decimal(n) + [unit]) == Some(InUnit(n, unit))
  {
    var digits := Decimal(n);
    var text := "T" + digits + [unit];
    var st := START.(inTime := true);
    assert text[1..] == digits + [unit];
    assert Run(START, text) == Run(st, digits + [unit]);
    RunDigits(st, digits, [unit]);
    assert "" + digits == digits;
    ParseDecimal(n);
    assert [unit][1..] == "";
  }

  lemma ParseDecimal(n: nat)
    requires n <= I64_MAX
    ensures ParseI64(Decimal(n)) == Some(n)
  {
    assert IsDigit(Decimal(n)[0]);
  }

  lemma NegativeIsRejected(n: nat, unit: char)
    ensures Run(START, "T" + ("-" + Decimal(n)) + [unit]) == None
  {
    var text := "T" + ("-" + Decimal(n)) + [unit];
    var st := START.(inTime := true);
    assert Run(START, text) == Run(st, text[1..]);
    assert text[1..][0] == '-';
    assert Step(st, '-') == None;
  }

  lemma NegatedDuration(text: string)
    ensures DurationOf("-P" + text) ==
            match Run(START, text) case None => None case Some(st) => Some(-Total(st))
  {
    hide Run, Total;
    var value := "-P" + text;
    assert value[1..] == "P" + text;
    assert value[1..][1..] == text;
  }

  lemma SignFirst(number: string, unit: string)
    ensures "-PT" + number + unit == "-P" + ("T" + number + unit)
  {
  }

  lemma ReadPrinted(n: int, unit: char)
    requires n <= I64_MAX && unit in {'H', 'M', 'S'}
    ensures DurationOf("-PT" + Signed(n) + [unit]) == if n < 0 then None else Some(-Total(InUnit(n, unit)))
  {
    hide Run, Decimal, Total, InUnit, DurationOf, ParseI64;
    NegatedDuration("T" + Signed(n) + [unit]);
    SignFirst(Signed(n), [unit]);
    if n < 0 {
      NegativeIsRejected(-n, unit);
    } else {
      ReadUnit(n, unit);
    }
  }

  lemma ReadHours(ms: int)
    requires IsI64(ms) && ms % 3_600_000 == 0
    ensures DurationOf("-PT" + Signed(TruncDiv(ms, 3_600_000)) + "H") == if ms < 0 then None else Some(-ms)
  {
    hide DurationOf, Signed;
    ReadPrinted(TruncDiv(ms, 3_600_000), 'H');
  }

  lemma ReadMinutes(ms: int)
    requires IsI64(ms) && ms % 60_000 == 0
    ensures DurationOf("-PT" + Signed(TruncDiv(ms, 60_000)) + "M") == if ms < 0 then None else Some(-ms)
  {
    hide DurationOf, Signed;
    ReadPrinted(TruncDiv(ms, 60_000), 'M');
  }

  lemma ReadSeconds(ms: int)
    requires IsI64(ms)
    ensures DurationOf("-PT" + Signed(TruncDiv(ms, 1_000)) + "S") ==
            if ms >= 0 then Some(-(ms - ms % 1_000)) else if ms > -1_000 then Some(0) else None
  {
    hide DurationOf, Signed;
    ReadPrinted(TruncDiv(ms, 1_000), 'S');
  }

  /** What is read back for each reminder a document can hold: whole seconds when it is before the
      start, nothing when it is at least a second after. */
  lemma DurationRoundTrip(ms: int)
    requires IsI64(ms)
    ensures DurationOf(FmtDurationBefore(ms)) ==
            if ms >= 0 then Some(-(ms - ms % 1_000)) else if ms > -1_000 then Some(0) else None
  {
    hide DurationOf, Signed, TruncDiv;
    if ms % 3_600_000 == 0 {
      ReadHours(ms);
    } else if ms % 60_000 == 0 {
      ReadMinutes(ms);
    } else {
      ReadSeconds(ms);
    }
  }

  // ---------------------------------------------------------------------------
  // Every duration that can be written.
  // ---------------------------------------------------------------------------

  /** The parts of a duration, each of which may be missing; `timed` when the letter T is written. */
  datatype Span = Span(sign: string, weeks: Option<nat>, days: Option<nat>, timed: bool, hours: Option<nat>,
                       minutes: Option<nat>, seconds: Option<nat>)

  predicate IsAmount(n: Option<nat>) {
    n.Some? ==> n.value <= I64_MAX
  }

  predicate IsSpan(s: Span) {
    && s.sign in ["", "+", "-"]
    && IsAmount(s.weeks) && IsAmount(s.days) && IsAmount(s.hours) && IsAmount(s.minutes) && IsAmount(s.seconds)
    && (!s.timed ==> s.hours.None? && s.minutes.None? && s.seconds.None?)
  }

  function WriteUnit(n: Option<nat>, unit: char): string {
    if n.None? then "" else Decimal(n.value) + [unit]
  }

  function WriteTime(s: Span): string {
    if s.timed then "T" + (WriteUnit(s.hours, 'H') + (WriteUnit(s.minutes, 'M') + (WriteUnit(s.seconds, 'S') + "")))
    else ""
  }

  function WriteSpan(s: Span): string {
    s.sign + ("P" + (WriteUnit(s.weeks, 'W') + (WriteUnit(s.days, 'D') + WriteTime(s))))
  }

  function Amount(n: Option<nat>): nat {
    if n.None? then 0 else n.value
  }

  /** The length of a duration in milliseconds. Days replace weeks when both are written. */
  function SpanMs(s: Span): int {
    var days := if s.days.Some? then s.days.value else 7 * Amount(s.weeks);
    var ms := 1_000 * (Amount(s.seconds) + 60 * (Amount(s.minutes) + 60 * (Amount(s.hours) + 24 * days)));
    if s.sign == "-" then -ms else ms
  }

  lemma RunUnit(st: State, n: nat, unit: char, tail: string)
    requires st.number == "" && n <= I64_MAX && !IsDigit(unit)
    ensures Run(st, Decimal(n) + [unit] + tail) ==
            match Step(st.(number := Decimal(n)), unit) case None => None case Some(next) => Run(next, tail)
  {
    hide Decimal, Step;
    var digits := Decimal(n);
    assert digits + [unit] + tail == digits + ([unit] + tail);
    RunDigits(st, digits, [unit] + tail);
    assert "" + digits == digits && ([unit] + tail)[1..] == tail;
  }

  lemma StepUnit(st: State, n: nat, unit: char)
    requires st.number == "" && n <= I64_MAX
    requires if st.inTime then unit in "HMS" else unit in "WD"
    ensures Step(st.(number := Decimal(n)), unit) ==
            Some(if unit == 'W' then st.(days := n * 7) else if unit == 'D' then st.(days := n)
                 else if unit == 'H' then st.(hours := n) else if unit == 'M' then st.(minutes := n)
                 else st.(seconds := n))
  {
    ParseDecimal(n);
    hide Decimal, ParseI64;
  }

  lemma RunOptional(st: State, n: Option<nat>, unit: char, tail: string)
    requires st.number == "" && IsAmount(n)
    requires if st.inTime then unit in "HMS" else unit in "WD"
    ensures Run(st, WriteUnit(n, unit) + tail) ==
            Run(if n.None? then st
                else if unit == 'W' then st.(days := n.value * 7) else if unit == 'D' then st.(days := n.value)
                else if unit == 'H' then st.(hours := n.value) else if unit == 'M' then st.(minutes := n.value)
                else st.(seconds := n.value), tail)
  {
    hide Run, Step, Decimal;
    if n.None? {
      assert "" + tail == tail;
    } else {
      RunUnit(st, n.value, unit, tail);
      StepUnit(st, n.value, unit);
    }
  }

  lemma RunTime(st: State, s: Span)
    requires st.number == "" && !st.inTime && st.hours == st.minutes == st.seconds == 0 && IsSpan(s)
    ensures Run(st, WriteTime(s)).Some?
    ensures var end := Run(st, WriteTime(s)).value;
            && end.days == st.days && end.hours == Amount(s.hours) && end.minutes == Amount(s.minutes)
            && end.seconds == Amount(s.seconds)
  {
    hide WriteUnit;
    if s.timed {
      var c := WriteUnit(s.seconds, 'S') + "";
      var b := WriteUnit(s.minutes, 'M') + c;
      var a := WriteUnit(s.hours, 'H') + b;
      assert ("T" + a)[1..] == a;
      var inTime := st.(inTime := true);
      assert Run(st, "T" + a) == Run(inTime, a);
      hide Run;
      RunOptional(inTime, s.hours, 'H', b);
      RunOptional(inTime.(hours := Amount(s.hours)), s.minutes, 'M', c);
      RunOptional(inTime.(hours := Amount(s.hours), minutes := Amount(s.minutes)), s.seconds, 'S', "");
      RunNothing(inTime.(hours := Amount(s.hours), minutes := Amount(s.minutes), seconds := Amount(s.seconds)));
    }
  }

  lemma RunNothing(st: State)
    ensures Run(st, "") == Some(st)
  {
  }

  /** Every written duration is read as its length, with its sign. */
  lemma DurationIsRead(s: Span)
    requires IsSpan(s)
    ensures DurationOf(WriteSpan(s)) == Some(SpanMs(s))
  {
    hide Run, WriteUnit, WriteTime;
    var text := WriteUnit(s.weeks, 'W') + (WriteUnit(s.days, 'D') + WriteTime(s));
    RunOptional(START, s.weeks, 'W', WriteUnit(s.days, 'D') + WriteTime(s));
    RunOptional(START.(days := Amount(s.weeks) * 7), s.days, 'D', WriteTime(s));
    RunTime(START.(days := if s.days.Some? then s.days.value else Amount(s.weeks) * 7), s);
    assert ("P" + text)[1..] == text;
    assert s.sign == "" ==> s.sign + ("P" + text) == "P" + text;
    assert s.sign != "" ==> (s.sign + ("P" + text))[1..] == "P" + text;
  }

  /** A unit on its side of the T: weeks and days before it, hours, minutes and seconds after it. */
  predicate InPlace(text: string, i: nat)
    requires i < |text|
  {
    || IsDigit(text[i])
    || (text[i] in "WDT" && 'T' !in text[..i])
    || (text[i] in "HMS" && 'T' in text[..i])
  }

  lemma {:induction false} RunIsInPlace(st: State, text: string, i: nat)
    requires Run(st, text).Some? && i < |text|
    ensures || IsDigit(text[i])
            || (text[i] in "WDT" && !st.inTime && 'T' !in text[..i])
            || (text[i] in "HMS" && (st.inTime || 'T' in text[..i]))
    decreases |text|
  {
    hide ParseI64;
    if i > 0 {
      RunIsInPlace(Step(st, text[0]).value, text[1..], i - 1);
      assert text[..i] == [text[0]] + text[1..][..i - 1];
    }
  }

  /** Nothing else is read: after the sign a P, and then digits and units in their places. */
  lemma OnlyDurationsAreRead(value: string, i: nat)
    requires DurationOf(value).Some?
    ensures var rest := SignOf(value).1;
            |rest| > 0 && rest[0] == 'P' && (i < |rest[1..]| ==> InPlace(rest[1..], i))
  {
    if i < |SignOf(value).1[1..]| {
      RunIsInPlace(START, SignOf(value).1[1..], i);
    }
  }
}
