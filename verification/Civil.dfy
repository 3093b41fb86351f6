/** Civil-date arithmetic of the calendar plugin: day numbers counted from 1970-01-01 in the
    proleptic Gregorian calendar, negative years included. */
module Civil {

  const MS_PER_DAY: int := 86_400_000

  /** Rust's `/` on signed integers, which rounds toward zero. */
  function TruncDiv(a: int, b: int): int
    requires b > 0
  {
    if a >= 0 then a / b else -((-a) / b)
  }

  /** Rust's `%`, whose result has the sign of the dividend. */
  function TruncMod(a: int, b: int): int
    requires b > 0
  {
    a - b * TruncDiv(a, b)
  }

  datatype Date = Date(y: int, m: int, d: int) {
    /** The calendar's own notion of a date that exists. */
    predicate Valid() {
      1 <= m <= 12 && 1 <= d <= DaysInMonth(y, m)
    }

    /** The day after, by the rules of the calendar rather than by day numbers. */
    function Tomorrow(): Date {
      if d < DaysInMonth(y, m) then Date(y, m, d + 1)
      else if m < 12 then Date(y, m + 1, 1)
      else Date(y + 1, 1, 1)
    }

    predicate Before(other: Date) {
      y < other.y || (y == other.y && (m < other.m || (m == other.m && d < other.d)))
    }
  }

  /** Rust's remainder is zero exactly when Dafny's is. */
  predicate IsLeap(y: int) {
    (y % 4 == 0 && y % 100 != 0) || y % 400 == 0
  }

  function DaysInMonth(y: int, m: int): int {
    if m in {1, 3, 5, 7, 8, 10, 12} then 31
    else if m in {4, 6, 9, 11} then 30
    else if m == 2 then if IsLeap(y) then 29 else 28
    else 30
  }

  // `/` below stands where the dividend cannot be negative.

  function DaysFromCivil(date: Date): int {
    var y := if date.m <= 2 then date.y - 1 else date.y;
    var era := TruncDiv(if y >= 0 then y else y - 399, 400);
    var yoe := y - era * 400;
    var mp := if date.m > 2 then date.m - 3 else date.m + 9;
    var doy := (153 * mp + 2) / 5 + date.d - 1;
    var doe := yoe * 365 + yoe / 4 - yoe / 100 + doy;
    era * 146_097 + doe - 719_468
  }

  function CivilFromDays(day: int): Date {
    var z := day + 719_468;
    var era := TruncDiv(if z >= 0 then z else z - 146_096, 146_097);
    CivilOfEra(era, z - era * 146_097)
  }

  /** The date of day `doe` of the 400-year era `era`. */
  function CivilOfEra(era: int, doe: int): Date {
    var yoe := (doe - doe / 1460 + doe / 36524 - doe / 146_096) / 365;
    var y := yoe + era * 400;
    var doy := doe - (365 * yoe + yoe / 4 - yoe / 100);
    var mp := (5 * doy + 2) / 153;
    var d := doy - (153 * mp + 2) / 5 + 1;
    var m := if mp < 10 then mp + 3 else mp - 9;
    Date(if m <= 2 then y + 1 else y, m, d)
  }

  /** Monday is 0. */
  function WeekdayMon0(day: int): int {
    TruncMod(TruncMod(day + 3, 7) + 7, 7)
  }

  // ---------------------------------------------------------------------------
  // Years that start in March, so that the leap day comes last.
  // ---------------------------------------------------------------------------

  function MarchYear(date: Date): int {
    if date.m <= 2 then date.y - 1 else date.y
  }

  function MarchMonth(date: Date): int {
    if date.m > 2 then date.m - 3 else date.m + 9
  }

  /** Zero-based day within the March year. */
  function MarchDay(date: Date): int {
    (153 * MarchMonth(date) + 2) / 5 + date.d - 1
  }

  /** Day number of 1 March of year `y`, up to a constant. */
  function YearDays(y: int): int {
    365 * y + y / 4 - y / 100 + y / 400
  }

  lemma MulSign(b: int, n: int)
    requires 0 < b
    ensures 1 <= n ==> b <= b * n
    ensures n <= -1 ==> b * n <= -b
  {
  }

  lemma DivIs(a: int, b: int, q: int)
    requires 0 < b && b * q <= a < b * q + b
    ensures a / b == q
  {
    var k := a / b;
    assert b * k <= a < b * k + b;
    assert b * (k - q) == b * k - b * q;
    MulSign(b, k - q);
  }

  lemma DivStep(y: int, k: int)
    requires 0 < k
    ensures (y + 1) / k == y / k + (if (y + 1) % k == 0 then 1 else 0)
  {
    var q, r := y / k, y % k;
    assert y == k * q + r;
    if r + 1 == k {
      assert k * (q + 1) == k * q + k;
      DivIs(y + 1, k, q + 1);
      assert (y + 1) % k == 0;
    } else {
      DivIs(y + 1, k, q);
      assert (y + 1) % k == r + 1;
    }
  }

  /** The truncating era adjustment is a floor division, for every year. */
  lemma DaysFromCivilByYear(date: Date)
    ensures DaysFromCivil(date) == YearDays(MarchYear(date)) + MarchDay(date) - 719_468
  {
    var y := MarchYear(date);
    var era := TruncDiv(if y >= 0 then y else y - 399, 400);
    assert era == y / 400;
    var yoe := y - era * 400;
    assert 0 <= yoe < 400;
    assert y / 4 == 100 * era + yoe / 4;
    assert y / 100 == 4 * era + yoe / 100;
  }

  lemma YearLength(y: int)
    ensures YearDays(y + 1) - YearDays(y) == if IsLeap(y + 1) then 366 else 365
  {
    DivStep(y, 4);
    DivStep(y, 100);
    DivStep(y, 400);
  }

  lemma {:induction false} YearDaysIncrease(y1: int, y2: int)
    requires y1 <= y2
    ensures YearDays(y1) + 365 * (y2 - y1) <= YearDays(y2)
    decreases y2 - y1
  {
    if y1 < y2 {
      YearDaysIncrease(y1, y2 - 1);
      YearLength(y2 - 1);
    }
  }

  lemma MarchDayRange(date: Date)
    requires date.Valid()
    ensures 0 <= MarchDay(date) <= (if IsLeap(MarchYear(date) + 1) then 365 else 364)
    ensures (5 * MarchDay(date) + 2) / 153 == MarchMonth(date)
  {
  }

  // ---------------------------------------------------------------------------
  // Day numbers follow the calendar.
  // ---------------------------------------------------------------------------

  lemma Epoch()
    ensures DaysFromCivil(Date(1970, 1, 1)) == 0
    ensures WeekdayMon0(0) == 3
  {
    DaysFromCivilByYear(Date(1970, 1, 1));
    WeekdayByFloor(0);
  }

  lemma TomorrowInMarchYear(date: Date)
    requires date.Valid()
    ensures var next := date.Tomorrow();
            && next.Valid()
            && YearDays(MarchYear(next)) + MarchDay(next) == YearDays(MarchYear(date)) + MarchDay(date) + 1
  {
    var next := date.Tomorrow();
    if date.d < DaysInMonth(date.y, date.m) {
      assert MarchDay(next) == MarchDay(date) + 1;
    } else if date.m == 2 {
      YearLength(date.y - 1);
      assert MarchDay(next) == 0;
    } else {
      assert MarchYear(next) == MarchYear(date);
      assert MarchDay(next) == MarchDay(date) + 1;
    }
  }

  /** With `Epoch`, this determines `DaysFromCivil` on every valid date. */
  lemma TomorrowIsNextDay(date: Date)
    requires date.Valid()
    ensures date.Tomorrow().Valid()
    ensures DaysFromCivil(date.Tomorrow()) == DaysFromCivil(date) + 1
  {
    TomorrowInMarchYear(date);
    DaysFromCivilByYear(date);
    DaysFromCivilByYear(date.Tomorrow());
  }

  lemma DaysFromCivilIncreases(a: Date, b: Date)
    requires a.Valid() && b.Valid()
    ensures a.Before(b) <==> DaysFromCivil(a) < DaysFromCivil(b)
  {
    if a.Before(b) {
      BeforeIsSmaller(a, b);
    } else if b.Before(a) {
      BeforeIsSmaller(b, a);
    } else {
      assert a == b;
    }
  }

  lemma SameMarchYear(a: Date, b: Date)
    requires a.Valid() && b.Valid() && a.Before(b)
    ensures MarchYear(a) <= MarchYear(b)
    ensures MarchYear(a) == MarchYear(b) ==> MarchDay(a) < MarchDay(b)
  {
    hide IsLeap;
  }

  lemma BeforeIsSmaller(a: Date, b: Date)
    requires a.Valid() && b.Valid() && a.Before(b)
    ensures DaysFromCivil(a) < DaysFromCivil(b)
  {
    DaysFromCivilByYear(a);
    DaysFromCivilByYear(b);
    MarchDayRange(a);
    MarchDayRange(b);
    SameMarchYear(a, b);
    hide DaysFromCivil, YearDays, IsLeap, MarchDay, MarchYear;
    var ya, yb := MarchYear(a), MarchYear(b);
    if ya < yb {
      YearLength(ya);
      YearDaysIncrease(ya + 1, yb);
    }
  }

  // ---------------------------------------------------------------------------
  // The two conversions are mutual inverses.
  // ---------------------------------------------------------------------------

  /** Whether the March year `yoe` of its 400-year era has a leap day at its end. */
  predicate LeapOfEra(yoe: int) {
    ((yoe + 1) % 4 == 0 && (yoe + 1) % 100 != 0) || yoe + 1 == 400
  }

  /** The divisions by 1460, 36524 and 146096 recover the year of the era: a day `doe` is given by
      `c` centuries, `q` four-year cycles, `s` years and `doy` days. */
  lemma YearFormula(c: int, q: int, s: int, doy: int)
    requires 0 <= c < 4 && 0 <= q < 25 && 0 <= s < 4 && 0 <= doy <= 365
    requires doy == 365 ==> s == 3 && (q == 24 ==> c == 3)
    ensures var doe := 36524 * c + 1461 * q + 365 * s + doy;
            && 0 <= doe < 146_097
            && (doe - doe / 1460 + doe / 36524 - doe / 146_096) / 365 == 100 * c + 4 * q + s
  {
    CenturyOfDay(c, q, s, doy);
    var doe := 36524 * c + 1461 * q + 365 * s + doy;
    var e := 24 * c + q + 365 * s + doy;
    var x := if e < 1460 then 0 else 1;
    DivIs(doe, 1460, 25 * c + q + x);
    DivIs(doe - doe / 1460 + c, 365, 100 * c + 4 * q + s);
  }

  lemma CenturyOfDay(c: int, q: int, s: int, doy: int)
    requires 0 <= c < 4 && 0 <= q < 25 && 0 <= s < 4 && 0 <= doy <= 365
    requires doy == 365 ==> s == 3 && (q == 24 ==> c == 3)
    ensures var doe := 36524 * c + 1461 * q + 365 * s + doy;
            0 <= doe < 146_097 && doe / 36524 - doe / 146_096 == c
  {
    var w := 1461 * q + 365 * s + doy;
    var doe := 36524 * c + w;
    if w == 36524 {
      assert doe == 146_096;
    } else {
      assert w < 36524;
      DivIs(doe, 36524, c);
      DivIs(doe, 146_096, 0);
    }
  }

  lemma YearOfEra(yoe: int, doy: int)
    requires 0 <= yoe < 400
    requires 0 <= doy <= (if LeapOfEra(yoe) then 365 else 364)
    ensures var doe := 365 * yoe + yoe / 4 - yoe / 100 + doy;
            && 0 <= doe < 146_097
            && (doe - doe / 1460 + doe / 36524 - doe / 146_096) / 365 == yoe
  {
    var c, r := yoe / 100, yoe % 100;
    var q, s := r / 4, r % 4;
    assert yoe == 100 * c + 4 * q + s;
    DivIs(yoe, 4, 25 * c + q);
    YearFormula(c, q, s, doy);
  }

  lemma EraOfDay(era: int, doe: int)
    requires 0 <= doe < 146_097
    ensures CivilFromDays(era * 146_097 + doe - 719_468) == CivilOfEra(era, doe)
  {
    var z := era * 146_097 + doe;
    if z >= 0 {
      DivIs(z, 146_097, era);
    } else {
      DivIs(146_096 - z, 146_097, -era);
    }
  }

  /** `CivilOfEra` on a day given by its year of the era and day of the March year. */
  lemma CivilOfMarch(era: int, yoe: int, doy: int)
    requires 0 <= yoe < 400
    requires 0 <= doy <= (if LeapOfEra(yoe) then 365 else 364)
    ensures var doe := 365 * yoe + yoe / 4 - yoe / 100 + doy;
            0 <= doe < 146_097 && CivilOfEra(era, doe) == FromMarch(era * 400 + yoe, doy)
  {
    YearOfEra(yoe, doy);
  }

  /** The date of day `doy` of the March year `y`. */
  function FromMarch(y: int, doy: int): Date
    requires 0 <= doy
  {
    var mp := (5 * doy + 2) / 153;
    var m := if mp < 10 then mp + 3 else mp - 9;
    Date(if m <= 2 then y + 1 else y, m, doy - (153 * mp + 2) / 5 + 1)
  }

  lemma FromMarchIsValid(y: int, doy: int)
    requires 0 <= doy <= (if IsLeap(y + 1) then 365 else 364)
    ensures var date := FromMarch(y, doy);
            date.Valid() && MarchDay(date) == doy && MarchYear(date) == y
  {
    var mp := (5 * doy + 2) / 153;
    assert 0 <= mp <= 11;
  }

  lemma MarchRoundTrip(date: Date)
    requires date.Valid()
    ensures 0 <= MarchDay(date) <= (if IsLeap(MarchYear(date) + 1) then 365 else 364)
    ensures FromMarch(MarchYear(date), MarchDay(date)) == date
  {
    MarchDayRange(date);
  }

  lemma YearDaysOfEra(era: int, yoe: int)
    requires 0 <= yoe < 400
    ensures YearDays(era * 400 + yoe) == era * 146_097 + 365 * yoe + yoe / 4 - yoe / 100
  {
    var y := era * 400 + yoe;
    DivIs(y, 400, era);
    DivIs(y, 4, 100 * era + yoe / 4);
    DivIs(y, 100, 4 * era + yoe / 100);
  }

  lemma ModShift(a: int, b: int, n: int)
    requires 0 < b
    ensures (a + b * n) % b == a % b
  {
    DivIs(a + b * n, b, a / b + n);
  }

  lemma LeapOfEraIsLeap(era: int, yoe: int)
    requires 0 <= yoe < 400
    ensures LeapOfEra(yoe) <==> IsLeap(era * 400 + yoe + 1)
  {
    ModShift(yoe + 1, 4, 100 * era);
    ModShift(yoe + 1, 100, 4 * era);
    ModShift(yoe + 1, 400, era);
  }

  lemma DateRoundTrip(date: Date)
    requires date.Valid()
    ensures CivilFromDays(DaysFromCivil(date)) == date
  {
    hide *;
    var y, doy := MarchYear(date), MarchDay(date);
    var era, yoe := y / 400, y % 400;
    assert y == era * 400 + yoe;
    MarchRoundTrip(date);
    YearDaysOfEra(era, yoe);
    LeapOfEraIsLeap(era, yoe);
    CivilOfMarch(era, yoe, doy);
    EraOfDay(era, 365 * yoe + yoe / 4 - yoe / 100 + doy);
    DaysFromCivilByYear(date);
  }

  /** Every day of an era is in exactly one March year of it. */
  lemma SplitEra(doe: int) returns (yoe: int, doy: int)
    requires 0 <= doe < 146_097
    ensures 0 <= yoe < 400
    ensures 0 <= doy <= (if LeapOfEra(yoe) then 365 else 364)
    ensures doe == 365 * yoe + yoe / 4 - yoe / 100 + doy
  {
    var c := if doe == 146_096 then 3 else doe / 36524;
    var w := doe - 36524 * c;
    assert 0 <= w <= 36524 && (w == 36524 ==> c == 3);
    var q := if w == 36524 then 24 else w / 1461;
    var v := w - 1461 * q;
    assert 0 <= v <= 1460 && (v == 1460 ==> q < 24 || c == 3);
    var s := if v == 1460 then 3 else v / 365;
    doy := v - 365 * s;
    yoe := 100 * c + 4 * q + s;
    DivIs(yoe, 100, c);
    DivIs(yoe, 4, 25 * c + q);
    if doy == 365 {
      DivIs(yoe + 1, 4, 25 * c + q + 1);
      assert (yoe + 1) % 4 == 0;
      if (yoe + 1) % 100 == 0 {
        assert q == 24;
      }
    }
  }

  /** Every day number is a valid date, and the date's number is the day. */
  lemma DayRoundTrip(day: int)
    ensures CivilFromDays(day).Valid()
    ensures DaysFromCivil(CivilFromDays(day)) == day
  {
    hide *;
    var z := day + 719_468;
    var era := z / 146_097;
    var yoe, doy := SplitEra(z % 146_097);
    var date := FromMarch(era * 400 + yoe, doy);
    assert CivilFromDays(day) == date by {
      EraOfDay(era, z % 146_097);
      CivilOfMarch(era, yoe, doy);
    }
    LeapOfEraIsLeap(era, yoe);
    FromMarchIsValid(era * 400 + yoe, doy);
    YearDaysOfEra(era, yoe);
    DaysFromCivilByYear(date);
  }

  // ---------------------------------------------------------------------------
  // Weekdays.
  // ---------------------------------------------------------------------------

  lemma WeekdayByFloor(day: int)
    ensures WeekdayMon0(day) == (day + 3) % 7
  {
    var r := TruncMod(day + 3, 7);
    if day + 3 >= 0 {
      assert r == (day + 3) % 7;
    } else {
      assert r == -((-(day + 3)) % 7);
    }
  }

  lemma WeekdayRepeats(day: int, n: int)
    ensures WeekdayMon0(day + 7 * n) == WeekdayMon0(day)
  {
    hide *;
    WeekdayByFloor(day);
    WeekdayByFloor(day + 7 * n);
    var k := (day + 3) / 7;
    DivIs(day + 7 * n + 3, 7, k + n);
  }

  /** Weekdays advance by one a day, cyclically, also across the epoch. */
  lemma WeekdayAdvances(day: int)
    ensures 0 <= WeekdayMon0(day) < 7
    ensures WeekdayMon0(day + 1) == (WeekdayMon0(day) + 1) % 7
  {
    hide *;
    WeekdayByFloor(day);
    WeekdayByFloor(day + 1);
  }
}
