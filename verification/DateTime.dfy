/** iCalendar date and date-time values (sections 3.3.4 and 3.3.5 of RFC 5545), UTC only. */
module DateTime {
  import opened Civil
  import opened Text

  /** `[YYYYMMDD]T[HHMMSS]Z` or a date: milliseconds since the epoch and whether it is a date only.
      Everything but the digits and a `T` is ignored. */
  function ParseDt(value: string): Result<(int, bool)> {
    var digits := DigitsOf(value);
    if |digits| < 8 then Err("unparseable date value") else
      var date := Date(NatOf(digits[0..4]), NatOf(digits[4..6]), NatOf(digits[6..8]));
      if !date.Valid() then Err("date out of range")
      else if 'T' !in value then Ok((DaysFromCivil(date) * MS_PER_DAY, true))
      else
        var hour := if |digits| >= 10 then NatOf(digits[8..10]) else 0;
        var minute := if |digits| >= 12 then NatOf(digits[10..12]) else 0;
        var second := if |digits| >= 14 then NatOf(digits[12..14]) else 0;
        if hour > 23 || minute > 59 || second > 60 then Err("time out of range")
        else Ok((DaysFromCivil(date) * MS_PER_DAY + hour * 3_600_000 + minute * 60_000 + second * 1_000, false))
  }

  function FmtDt(ms: int, allDay: bool): string {
    var days, rem := ms / MS_PER_DAY, ms % MS_PER_DAY;
    var date := CivilFromDays(days);
    var ymd := Padded(date.y, 4) + Padded(date.m, 2) + Padded(date.d, 2);
    if allDay then ymd else
      ymd + "T" + Padded(rem / 3_600_000, 2) + Padded(rem % 3_600_000 / 60_000, 2)
      + Padded(rem % 60_000 / 1_000, 2) + "Z"
  }

  /** What survives printing: whole seconds, or whole days. Rounds toward the past. */
  function Floor(ms: int, allDay: bool): int {
    if allDay then ms - ms % MS_PER_DAY else ms - ms % 1_000
  }

  /** The years that four digits can print. */
  predicate FourDigitYear(ms: int) {
    0 <= CivilFromDays(ms / MS_PER_DAY).y <= 9999
  }

  /** `FmtDt` and `ParseDt` are inverse on exactly the instants of the years 0 to 9999. */
  lemma DateTimeRoundTrip(ms: int, allDay: bool)
    ensures ParseDt(FmtDt(ms, allDay)) == Ok((Floor(ms, allDay), allDay)) <==> FourDigitYear(ms)
  {
    if FourDigitYear(ms) {
      if allDay {
        DateIsReadBack(ms);
      } else {
        TimeIsReadBack(ms);
      }
    } else if ParseDt(FmtDt(ms, allDay)) == Ok((Floor(ms, allDay), allDay)) {
      OtherYearsAreNot(ms, allDay);
    }
  }

  ghost predicate Fits(n: int, width: nat, s: string) {
    0 <= n && s == Padded(n, width) && |s| == width && AllDigits(s) && NatOf(s) == n
  }

  /** The printed year, month and day of an instant, with what each piece reads back as. */
  lemma YmdFits(ms: int) returns (y: string, mo: string, d: string)
    requires FourDigitYear(ms)
    ensures var date := CivilFromDays(ms / MS_PER_DAY);
            && date.Valid() && DaysFromCivil(date) == ms / MS_PER_DAY
            && Fits(date.y, 4, y) && Fits(date.m, 2, mo) && Fits(date.d, 2, d)
  {
    var date := CivilFromDays(ms / MS_PER_DAY);
    DayRoundTrip(ms / MS_PER_DAY);
    assert Power10(2) == 100 && Power10(4) == 10000 by {
      assert Power10(1) == 10;
      assert Power10(3) == 1000;
    }
    PaddedFits(date.y, 4);
    PaddedFits(date.m, 2);
    PaddedFits(date.d, 2);
    y, mo, d := Padded(date.y, 4), Padded(date.m, 2), Padded(date.d, 2);
  }

  lemma DateIsReadBack(ms: int)
    requires FourDigitYear(ms)
    ensures ParseDt(FmtDt(ms, true)) == Ok((Floor(ms, true), true))
  {
    hide DaysFromCivil, CivilFromDays, Padded, DigitsOf, NatOf;
    var y, mo, d := YmdFits(ms);
    var s := FmtDt(ms, true);
    assert s == y + mo + d;
    assert s[0..4] == y && s[4..6] == mo && s[6..8] == d;
    assert AllDigits(s);
    assert 'T' !in s by {
      assert forall i | 0 <= i < |s| :: IsDigit(s[i]);
    }
  }

  lemma ParseOfFields(value: string, ymd: string, hms: string, date: Date, hour: int, minute: int, second: int)
    requires |ymd| == 8 && |hms| == 6 && AllDigits(ymd) && AllDigits(hms)
    requires DigitsOf(value) == ymd + hms && 'T' in value
    requires date == Date(NatOf(ymd[0..4]), NatOf(ymd[4..6]), NatOf(ymd[6..8])) && date.Valid()
    requires hour == NatOf(hms[0..2]) <= 23 && minute == NatOf(hms[2..4]) <= 59 && second == NatOf(hms[4..6]) <= 60
    ensures ParseDt(value) == Ok((DaysFromCivil(date) * MS_PER_DAY
                                  + hour * 3_600_000 + minute * 60_000 + second * 1_000, false))
  {
    hide DaysFromCivil, DigitsOf;
    var digits := DigitsOf(value);
    assert digits[0..4] == ymd[0..4] && digits[4..6] == ymd[4..6] && digits[6..8] == ymd[6..8];
    assert digits[8..10] == hms[0..2] && digits[10..12] == hms[2..4] && digits[12..14] == hms[4..6];
  }

  lemma DigitsOfTimed(ymd: string, hms: string)
    requires AllDigits(ymd) && AllDigits(hms)
    ensures DigitsOf(ymd + "T" + hms + "Z") == ymd + hms
  {
    DigitsOfConcat(ymd + "T" + hms, "Z");
    DigitsOfConcat(ymd + "T", hms);
    DigitsOfConcat(ymd, "T");
  }

  /** The printed time of day, with what each piece reads back as. */
  lemma HmsFits(ms: int) returns (h: string, mi: string, se: string)
    ensures var rem := ms % MS_PER_DAY;
            && Fits(rem / 3_600_000, 2, h) && Fits(rem % 3_600_000 / 60_000, 2, mi)
            && Fits(rem % 60_000 / 1_000, 2, se)
  {
    hide Padded, AllDigits, NatOf;
    var rem := ms % MS_PER_DAY;
    h, mi, se := Padded(rem / 3_600_000, 2), Padded(rem % 3_600_000 / 60_000, 2), Padded(rem % 60_000 / 1_000, 2);
    assert Power10(1) == 10 && Power10(2) == 100;
    PaddedFits(rem / 3_600_000, 2);
    PaddedFits(rem % 3_600_000 / 60_000, 2);
    PaddedFits(rem % 60_000 / 1_000, 2);
  }

  lemma JoinedDigits(a: string, b: string, c: string)
    requires AllDigits(a) && AllDigits(b) && AllDigits(c)
    ensures AllDigits(a + b + c)
    ensures (a + b + c)[0..|a|] == a && (a + b + c)[|a|..|a| + |b|] == b
    ensures (a + b + c)[|a| + |b|..|a| + |b| + |c|] == c
  {
  }

  lemma TimeIsReadBack(ms: int)
    requires FourDigitYear(ms)
    ensures ParseDt(FmtDt(ms, false)) == Ok((Floor(ms, false), false))
  {
    hide DaysFromCivil, CivilFromDays, Padded, DigitsOf, NatOf, AllDigits, ParseDt, FourDigitYear;
    var y, mo, d := YmdFits(ms);
    var h, mi, se := HmsFits(ms);
    var rem := ms % MS_PER_DAY;
    var ymd, hms := y + mo + d, h + mi + se;
    JoinedDigits(y, mo, d);
    JoinedDigits(h, mi, se);
    assert FmtDt(ms, false) == ymd + "T" + hms + "Z";
    hide FmtDt;
    TimedHasT(ymd, hms);
    DigitsOfTimed(ymd, hms);
    ParseOfFields(FmtDt(ms, false), ymd, hms, CivilFromDays(ms / MS_PER_DAY), rem / 3_600_000,
                  rem % 3_600_000 / 60_000, rem % 60_000 / 1_000);
    SplitTimeOfDay(ms);
  }

  lemma TimedHasT(ymd: string, hms: string)
    ensures 'T' in ymd + "T" + hms + "Z"
  {
    assert (ymd + "T" + hms + "Z")[|ymd|] == 'T';
  }

  lemma SplitTimeOfDay(ms: int)
    ensures var rem := ms % MS_PER_DAY;
            ms / MS_PER_DAY * MS_PER_DAY + rem / 3_600_000 * 3_600_000 + rem % 3_600_000 / 60_000 * 60_000
            + rem % 60_000 / 1_000 * 1_000 == ms - ms % 1_000
  {
    var rem := ms % MS_PER_DAY;
    var inHour := rem % 3_600_000;
    var inMinute := inHour % 60_000;
    ModShift(inMinute, 60_000, rem / 3_600_000 * 60 + inHour / 60_000);
    assert rem % 60_000 == inMinute;
    var inSecond := inMinute % 1_000;
    ModShift(inSecond, 1_000, ms / MS_PER_DAY * 86_400 + rem / 60_000 * 60 + inMinute / 1_000);
    assert ms % 1_000 == inSecond;
  }

  lemma {:induction false} NatOfBound(digits: string)
    requires AllDigits(digits)
    ensures NatOf(digits) < Power10(|digits|)
  {
    if |digits| > 0 {
      NatOfBound(digits[..|digits| - 1]);
    }
  }

  /** Whatever is parsed lies in the years 0 to 9999, but for a leap second at their very end. */
  lemma ParsedInstant(value: string) returns (date: Date, time: int)
    requires ParseDt(value).Ok?
    ensures date.Valid() && 0 <= date.y <= 9999
    ensures |DigitsOf(value)| >= 8 && date.y == NatOf(DigitsOf(value)[0..4])
    ensures ParseDt(value).value.0 == DaysFromCivil(date) * MS_PER_DAY + time
    ensures 0 <= time <= MS_PER_DAY && (time == MS_PER_DAY ==> 'T' in value)
  {
    var digits := DigitsOf(value);
    date := Date(NatOf(digits[0..4]), NatOf(digits[4..6]), NatOf(digits[6..8]));
    NatOfBound(digits[0..4]);
    assert Power10(1) == 10 && Power10(2) == 100 && Power10(3) == 1000 && Power10(4) == 10000;
    time := ParseDt(value).value.0 - DaysFromCivil(date) * MS_PER_DAY;
  }

  /** Outside those years the printed value is rejected, or read as another instant. */
  lemma OtherYearsAreNot(ms: int, allDay: bool)
    requires !FourDigitYear(ms)
    ensures ParseDt(FmtDt(ms, allDay)) != Ok((Floor(ms, allDay), allDay))
  {
    hide DaysFromCivil, CivilFromDays, FmtDt, ParseDt;
    var value := FmtDt(ms, allDay);
    if ParseDt(value) == Ok((Floor(ms, allDay), allDay)) {
      var date, time := ParsedInstant(value);
      var day := ms / MS_PER_DAY;
      if time == MS_PER_DAY {
        TomorrowIsNextDay(date);
        assert DaysFromCivil(date.Tomorrow()) == day;
        DateRoundTrip(date.Tomorrow());
        if date.Tomorrow() == Date(10000, 1, 1) {
          PrintOfYear10000(ms, allDay);
        }
      } else {
        assert DaysFromCivil(date) == day;
        DateRoundTrip(date);
      }
    }
  }

  lemma PrintOfYear10000(ms: int, allDay: bool)
    requires CivilFromDays(ms / MS_PER_DAY) == Date(10000, 1, 1)
    ensures |DigitsOf(FmtDt(ms, allDay))| >= 4 && NatOf(DigitsOf(FmtDt(ms, allDay))[0..4]) == 1000
  {
    hide CivilFromDays;
    var s := FmtDt(ms, allDay);
    assert Decimal(10) == "10";
    assert Decimal(100) == "100";
    assert Decimal(1000) == "1000";
    assert Decimal(10000) == "10000" == Padded(10000, 4);
    assert s == "10000" + s[5..];
    DigitsOfConcat("10000", s[5..]);
    assert DigitsOf(s)[0..4] == "1000" == Decimal(1000);
  }

  /** Two digits of the time of day, zero when they are missing. */
  function Field(hms: string, i: nat): nat
    requires AllDigits(hms)
  {
    if i + 2 <= |hms| then NatOf(hms[i..i + 2]) else 0
  }

  /** What is read of a value whose digits are a date and any number of further digits: a whole day without a T,
      else the time of day as far as it is written, with nothing else accepted. */
  lemma TimeIsOptional(value: string, ymd: string, hms: string)
    requires |ymd| == 8 && AllDigits(ymd) && AllDigits(hms) && DigitsOf(value) == ymd + hms
    ensures var date := Date(NatOf(ymd[0..4]), NatOf(ymd[4..6]), NatOf(ymd[6..8]));
            var (h, m, s) := (Field(hms, 0), Field(hms, 2), Field(hms, 4));
            && (ParseDt(value).Ok? <==> date.Valid() && ('T' in value ==> h < 24 && m < 60 && s <= 60))
            && (ParseDt(value).Ok? ==>
                  ParseDt(value).value == if 'T' !in value then (86_400_000 * DaysFromCivil(date), true)
                                          else (1_000 * (s + 60 * (m + 60 * (h + 24 * DaysFromCivil(date)))), false))
  {
    hide DaysFromCivil, DigitsOf, NatOf;
    var digits := DigitsOf(value);
    assert digits[0..4] == ymd[0..4] && digits[4..6] == ymd[4..6] && digits[6..8] == ymd[6..8];
    assert |hms| >= 2 ==> digits[8..10] == hms[0..2];
    assert |hms| >= 4 ==> digits[10..12] == hms[2..4];
    assert |hms| >= 6 ==> digits[12..14] == hms[4..6];
  }

  lemma FewDigitsAreRefused(value: string)
    requires |DigitsOf(value)| < 8
    ensures ParseDt(value).Err?
  {
  }
}
