/** Where the unbounded integers of the calendar modules are the program's 64-bit integers. For the expansion of
    rules the exact condition is `Rrule.RuleFits`; here is what happens without it, and bounds that are enough
    for it. */
module Width {
  import opened Civil
  import opened Duration
  import opened Rrule
  import opened Text

  // ---------------------------------------------------------------------------
  // Durations.
  // ---------------------------------------------------------------------------

  predicate IsNatural(st: State) {
    st.days >= 0 && st.hours >= 0 && st.minutes >= 0 && st.seconds >= 0 && AllDigits(st.number)
  }

  /** Every product and partial sum of the total, in the order of the program. */
  predicate TotalFits(st: State) {
    var (d, h, m, s) := (st.days * MS_PER_DAY, st.hours * 3_600_000, st.minutes * 60_000, st.seconds * 1_000);
    && IsI64(st.days) && IsI64(d) && IsI64(h) && IsI64(d + h) && IsI64(m) && IsI64(d + h + m) && IsI64(s)
    && IsI64(d + h + m + s) && IsI64(-(d + h + m + s))
  }

  lemma {:induction false} RunIsNatural(st: State, text: string)
    requires IsNatural(st) && Run(st, text).Some?
    ensures IsNatural(Run(st, text).value)
    decreases |text|
  {
    if |text| > 0 {
      StepIsNatural(st, text[0]);
      RunIsNatural(Step(st, text[0]).value, text[1..]);
    }
  }

  lemma StepIsNatural(st: State, ch: char)
    requires IsNatural(st) && Step(st, ch).Some?
    ensures IsNatural(Step(st, ch).value)
  {
    if !IsDigit(ch) && st.number != "" {
      assert IsDigit(st.number[0]);
    }
  }

  /** The state at the end of a readable duration. */
  function EndOf(value: string): State
    requires DurationOf(value).Some?
  {
    Run(START, SignOf(value).1[1..]).value
  }

  /** The sum of a readable duration stays within 64 bits exactly when its value does. */
  lemma DurationFits(value: string)
    requires DurationOf(value).Some?
    ensures TotalFits(EndOf(value)) <==> -I64_MAX <= DurationOf(value).value <= I64_MAX
  {
    RunIsNatural(START, SignOf(value).1[1..]);
  }

  /** 106751991167 days are the last that fit. */
  lemma LongDurationOverflows()
    ensures DurationOf("-P" + (Decimal(106_751_991_168) + "D")).Some?
    ensures DurationOf("-P" + (Decimal(106_751_991_168) + "D")).value < -I64_MAX - 1
  {
    var n := 106_751_991_168;
    hide Decimal, Run, DurationOf;
    NegatedDuration(Decimal(n) + "D");
    RunDigits(START, Decimal(n), "D");
    assert "" + Decimal(n) == Decimal(n);
    ParseDecimal(n);
    ReadDays(n);
  }

  lemma ReadDays(n: nat)
    requires n <= I64_MAX
    ensures Run(START.(number := Decimal(n)), "D") == Some(START.(days := n))
  {
    ParseDecimal(n);
    hide Decimal, ParseI64;
    assert "D"[1..] == "";
  }

  // ---------------------------------------------------------------------------
  // The day loop in 64 bits, as a release build computes it: sums and products wrap around.
  // ---------------------------------------------------------------------------

  function Wrap64(n: int): (wrapped: int)
    ensures IsI64(wrapped)
    ensures IsI64(n) ==> wrapped == n
  {
    (n + 0x8000_0000_0000_0000) % 0x1_0000_0000_0000_0000 - 0x8000_0000_0000_0000
  }

  /** The day the loop looks at in round `k`, and that day's product. */
  function Cursor64(first: int, days: int, k: nat): int {
    if k == 0 then first / MS_PER_DAY else Wrap64(Cursor64(first, days, k - 1) + days)
  }

  function Product64(first: int, days: int, k: nat): int {
    Wrap64(Cursor64(first, days, k) * MS_PER_DAY)
  }

  function TrueDay(first: int, days: int, k: nat): int {
    first / MS_PER_DAY + k * days
  }

  lemma TrueDayStep(first: int, days: int, k: nat)
    requires days >= 1
    ensures TrueDay(first, days, k + 1) == TrueDay(first, days, k) + days
    ensures TrueDay(first, days, 0) <= TrueDay(first, days, k)
  {
    MulSign(days, k);
  }

  /** Up to a day whose product fits, nothing wraps around. */
  lemma {:induction false} SameCourse(first: int, days: int, k: nat)
    requires days >= 1
    requires IsI64(TrueDay(first, days, 0) * MS_PER_DAY) && IsI64(TrueDay(first, days, k) * MS_PER_DAY)
    ensures Cursor64(first, days, k) == TrueDay(first, days, k)
    ensures Product64(first, days, k) == TrueDay(first, days, k) * MS_PER_DAY
  {
    hide TrueDay;
    if k > 0 {
      TrueDayStep(first, days, k - 1);
      assert TrueDay(first, days, k - 1) * MS_PER_DAY <= TrueDay(first, days, k) * MS_PER_DAY;
      SameCourse(first, days, k - 1);
    } else {
      TrueDayStart(first, days);
    }
  }

  lemma TrueDayStart(first: int, days: int)
    ensures TrueDay(first, days, 0) == first / MS_PER_DAY
  {
  }

  /** Round `k` of the 64-bit loop sees the true product exactly when that product fits, as far as the first
      one does. */
  lemma RoundIsTrue(first: int, days: int, k: nat)
    requires days >= 1 && IsI64(first) && IsI64(TrueDay(first, days, 0) * MS_PER_DAY)
    ensures Product64(first, days, k) == TrueDay(first, days, k) * MS_PER_DAY <==>
              IsI64(TrueDay(first, days, k) * MS_PER_DAY)
  {
    if IsI64(TrueDay(first, days, k) * MS_PER_DAY) {
      SameCourse(first, days, k);
    }
  }

  /** Every product the day loop needs on its way past the horizon is the true one exactly when `DaysFit`. */
  lemma DayLoopIsTrue(first: int, days: int, horizon: int)
    requires days >= 1 && IsI64(first)
    ensures var (start, next) := (first / MS_PER_DAY, NextDay(first / MS_PER_DAY, days, horizon));
            (forall k: nat | TrueDay(first, days, k) <= next ::
               Product64(first, days, k) == TrueDay(first, days, k) * MS_PER_DAY)
            <==> DaysFit(start, days, horizon, false)
  {
    var (start, next) := (first / MS_PER_DAY, NextDay(first / MS_PER_DAY, days, horizon));
    var n: nat := if horizon / MS_PER_DAY < start then 0 else (horizon / MS_PER_DAY - start) / days + 1;
    assert next == TrueDay(first, days, n);
    TrueDayStart(first, days);
    NextDayIsNear(start, days, horizon);
    hide TrueDay, Product64, NextDay;
    if DaysFit(start, days, horizon, false) {
      forall k: nat | TrueDay(first, days, k) <= next
        ensures Product64(first, days, k) == TrueDay(first, days, k) * MS_PER_DAY
      {
        TrueDayStep(first, days, k);
        RoundIsTrue(first, days, k);
      }
    }
    if forall k: nat | TrueDay(first, days, k) <= next ::
         Product64(first, days, k) == TrueDay(first, days, k) * MS_PER_DAY {
      ProductFits(first, days, 0);
      ProductFits(first, days, n);
      assert TrueDay(first, days, 0) <= next && TrueDay(first, days, n) <= next;
    }
  }

  lemma ProductFits(first: int, days: int, k: nat)
    ensures IsI64(Product64(first, days, k))
  {
  }

  const LONG_INTERVAL: int := 213_503_982_335
  const IN_90_DAYS: int := 90 * MS_PER_DAY

  /** With an interval of 213503982335 days from the first instant of 1970, every one of the next 225 rounds
      wraps around to an instant of the next 90 days. None of them belongs to the rule. */
  lemma {:induction false} LongIntervalMisleads(k: nat)
    requires 1 <= k <= 225
    ensures 0 < Product64(0, LONG_INTERVAL, k) <= IN_90_DAYS
    ensures !EveryDays(0, LONG_INTERVAL, Product64(0, LONG_INTERVAL, k))
  {
    LongCursor(k);
    var wrapped := k * 34_448_384;
    assert k * LONG_INTERVAL * MS_PER_DAY == k * 0x1_0000_0000_0000_0000 + wrapped;
    WrapsTo(k * LONG_INTERVAL * MS_PER_DAY, k, wrapped);
    NotInLongSteps(wrapped);
  }

  lemma NotInLongSteps(x: int)
    requires 0 < x < LONG_INTERVAL * MS_PER_DAY
    ensures !EveryDays(0, LONG_INTERVAL, x)
  {
    forall j: nat
      ensures x != NthDay(0, LONG_INTERVAL, j)
    {
      if j > 0 {
        NthDayIncreases(0, LONG_INTERVAL, 0, j);
        MulSign(LONG_INTERVAL, j);
      }
    }
  }

  lemma WrapsTo(n: int, turns: int, wrapped: int)
    requires n == turns * 0x1_0000_0000_0000_0000 + wrapped && IsI64(wrapped)
    ensures Wrap64(n) == wrapped
  {
    DivIs(n + 0x8000_0000_0000_0000, 0x1_0000_0000_0000_0000, turns);
  }

  lemma {:induction false} LongCursor(k: nat)
    requires k <= 225
    ensures Cursor64(0, LONG_INTERVAL, k) == k * LONG_INTERVAL
  {
    if k > 0 {
      LongCursor(k - 1);
    }
  }

  /** The rule itself has no instant in those 90 days, and does not fit. */
  lemma LongIntervalIsEmpty(rule: Rule, cap: nat)
    requires rule.freq == "DAILY" && rule.interval == LONG_INTERVAL
    ensures Members(rule, 0, IN_90_DAYS) == iset{}
    ensures !RuleFits(rule, 0, IN_90_DAYS, cap, [])
  {
    forall x | 0 < x <= IN_90_DAYS
      ensures !EveryDays(0, LONG_INTERVAL, x)
    {
      NotInLongSteps(x);
    }
    MembersAreKept(rule, 0, IN_90_DAYS);
    hide Recurs;
  }

  // ---------------------------------------------------------------------------
  // Bounds that are enough for every rule.
  // ---------------------------------------------------------------------------

  const FAR: int := 0x2000_0000_0000_0000

  /** Instants within 73 million years of 1970 and an interval of at most a million. */
  predicate IsModest(first: int, horizon: int, interval: int) {
    -FAR <= first <= FAR && -FAR <= horizon <= FAR && 1 <= interval <= 1_000_000
  }

  lemma DayNumberIsBounded(date: Date)
    requires date.Valid()
    ensures var size := if date.y < 0 then -date.y else date.y;
            && -366 * size - 720_000 <= DaysFromCivil(date) <= 366 * size + 720_000
            && (365 * size - 720_000 <= DaysFromCivil(date) || DaysFromCivil(date) <= 720_000 - 365 * size)
  {
    DaysFromCivilByYear(date);
    MarchDayRange(date);
    hide DaysFromCivil;
  }

  /** The loop over months: each of the months it can compute is within 64 bits, whatever the horizon. */
  lemma MonthFits(first: int, interval: int, k: nat)
    requires IsModest(first, first, interval) && k <= MAX_MONTHS + 1
    ensures IsI64(k * interval) && IsI64(NthMonth(first, interval, k))
    ensures IsI64(NthMonth(first, interval, k) - first % MS_PER_DAY)
  {
    hide DaysFromCivil, CivilFromDays, AddMonths;
    var (day, months) := (first / MS_PER_DAY, k * interval);
    var date := CivilFromDays(day);
    MulMonths(interval, k);
    DayRoundTrip(day);
    DayNumberIsBounded(date);
    assert -80_000_000 <= date.y <= 80_000_000;
    AddedMonthsAreValid(date, months);
    DayNumberIsBounded(AddMonths(date, months));
    assert -100_000_000_000 <= DaysFromCivil(AddMonths(date, months)) <= 100_000_000_000;
  }

  lemma {:induction false} MulMonths(interval: int, k: nat)
    requires 1 <= interval <= 1_000_000
    ensures 0 <= k * interval <= 1_000_000 * k
  {
    if k > 0 {
      MulMonths(interval, k - 1);
      assert k * interval == (k - 1) * interval + interval;
    }
  }

  lemma AddedMonthsAreValid(date: Date, months: int)
    requires date.Valid() && 0 <= months
    ensures AddMonths(date, months).Valid() && date.y <= AddMonths(date, months).y <= date.y + months / 12 + 1
  {
  }

  /** A day beyond the horizon is at most one step beyond it. */
  lemma NextDayIsNear(start: int, step: int, horizon: int)
    requires step >= 1
    ensures start <= NextDay(start, step, horizon)
    ensures NextDay(start, step, horizon) <= start || NextDay(start, step, horizon) <= horizon / MS_PER_DAY + step
  {
    var last := horizon / MS_PER_DAY;
    if start <= last {
      var q := (last - start) / step;
      assert (q + 1) * step == q * step + step && step * q == q * step;
      assert 0 <= q * step <= last - start;
    }
  }

  lemma DaysFitModestly(first: int, horizon: int, interval: int, start: int, step: int, early: bool)
    requires IsModest(first, horizon, interval) && 0 < step <= 7 * interval
    requires first / MS_PER_DAY - 6 <= start <= first / MS_PER_DAY
    ensures DaysFit(start, step, horizon, early)
  {
    NextDayIsNear(start, step, horizon);
    hide NextDay;
  }

  /** Under these bounds the expansion of every rule fits, whatever its result. */
  lemma ModestRulesFit(rule: Rule, first: int, horizon: int, cap: nat, out: seq<int>)
    requires IsModest(first, horizon, rule.interval)
    ensures RuleFits(rule, first, horizon, cap, out)
  {
    var early := EndsEarly(out, Members(rule.(until := None), first, horizon), cap);
    MondayIsMonday(first);
    DaysFitModestly(first, horizon, rule.interval, first / MS_PER_DAY, rule.interval, early);
    DaysFitModestly(first, horizon, rule.interval, first / MS_PER_DAY, 7 * rule.interval, early);
    DaysFitModestly(first, horizon, rule.interval, MondayOf(first), 7 * rule.interval, early);
    MonthFits(first, rule.interval, NextMonth(first, rule.interval, horizon, 1));
    hide DaysFit, NthMonth, EndsEarly, Members, MonthsTried, MondayOf, IsModest;
  }

  /** Where a month's instant fits, so do the number of months and the year. */
  lemma MonthCountFits(first: int, interval: int, k: nat)
    requires IsI64(first) && interval >= 1 && IsI64(NthMonth(first, interval, k))
    ensures IsI64(12 + k * interval)
  {
    hide DaysFromCivil, CivilFromDays, AddMonths;
    var (day, months) := (first / MS_PER_DAY, k * interval);
    var date := CivilFromDays(day);
    DayRoundTrip(day);
    DayNumberIsBounded(date);
    assert -1_000_000_000 <= date.y <= 1_000_000_000;
    MulSign(interval, k);
    AddedMonthsAreValid(date, months);
    var later := AddMonths(date, months);
    DayNumberIsBounded(later);
    assert -1_000_000_000 <= later.y <= 1_000_000_000;
    AddedMonthsAreFew(date, months);
  }

  lemma AddedMonthsAreFew(date: Date, months: int)
    requires date.Valid()
    ensures months <= 12 * (AddMonths(date, months).y - date.y) + 12
  {
  }
}
