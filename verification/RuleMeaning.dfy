/** What a recurrence rule stands for, by remainders and calendar dates alone. */
module RuleMeaning {
  import opened Civil
  import opened Text
  import opened Rrule

  const DAY: int := 86_400_000

  lemma MultipleIs(x: int, n: int, k: nat)
    requires n >= 1 && x == k * n
    ensures x >= 0 && x % n == 0
  {
    DivIs(x, n, k);
  }

  lemma IsMultiple(x: int, n: int) returns (k: nat)
    requires n >= 1 && x >= 0 && x % n == 0
    ensures x == k * n
  {
    k := x / n;
  }

  /** Every `days` days: the distance is a whole number of such steps. */
  lemma StepsMean(first: int, days: int, x: int)
    requires days >= 1 && first < x
    ensures EveryDays(first, days, x) <==> (x - first) % (DAY * days) == 0
  {
    if EveryDays(first, days, x) {
      var k: nat :| x == NthDay(first, days, k);
      assert x - first == k * (DAY * days);
      MultipleIs(x - first, DAY * days, k);
    }
    if (x - first) % (DAY * days) == 0 {
      var k := IsMultiple(x - first, DAY * days);
      assert k * (DAY * days) == k * days * DAY;
      assert x == NthDay(first, days, k);
    }
  }

  /** The listed weekdays: the same time of day, in a week that is a whole number of steps after the first one. */
  predicate IsInWeek(first: int, interval: int, byday: seq<int>, x: int)
    requires interval >= 1
  {
    var weeks := MondayOf(x) - MondayOf(first);
    x % DAY == first % DAY && WeekdayMon0(x / DAY) in byday && weeks >= 0 && weeks % (7 * interval) == 0
  }

  lemma WeeksMean(first: int, interval: int, byday: seq<int>, x: int)
    requires interval >= 1
    ensures OnWeekdays(first, interval, byday, x) <==> IsInWeek(first, interval, byday, x)
  {
    hide MondayOf, WeekdayMon0;
    var weeks := MondayOf(x) - MondayOf(first);
    if OnWeekdays(first, interval, byday, x) {
      var k: nat :| MondayOf(x) == NthMonday(first, interval, k);
      assert weeks == k * (7 * interval);
      MultipleIs(weeks, 7 * interval, k);
    }
    if IsInWeek(first, interval, byday, x) {
      var k := IsMultiple(weeks, 7 * interval);
      assert 7 * interval * k == k * (7 * interval);
      assert MondayOf(x) == NthMonday(first, interval, k);
    }
  }

  /** The months from one date to another. */
  function MonthsTo(a: Date, b: Date): int {
    12 * (b.y - a.y) + b.m - a.m
  }

  predicate IsMonthly(first: int, interval: int, x: int)
    requires interval >= 1
  {
    var (a, b) := (CivilFromDays(first / DAY), CivilFromDays(x / DAY));
    && x % DAY == first % DAY && MonthsTo(a, b) > 0 && MonthsTo(a, b) % interval == 0
    && b.d == if a.d < DaysInMonth(b.y, b.m) then a.d else DaysInMonth(b.y, b.m)
  }

  lemma AddedAre(a: Date, months: int)
    requires a.Valid() && months >= 0
    ensures var b := AddMonths(a, months);
            && b.Valid() && MonthsTo(a, b) == months
            && b.d == if a.d < DaysInMonth(b.y, b.m) then a.d else DaysInMonth(b.y, b.m)
  {
  }

  lemma AreAdded(a: Date, b: Date)
    requires a.Valid() && b.Valid()
    requires b.d == if a.d < DaysInMonth(b.y, b.m) then a.d else DaysInMonth(b.y, b.m)
    ensures AddMonths(a, MonthsTo(a, b)) == b
  {
  }

  /** A whole number of steps of months later, on the same day of the month, or on its last day where the month is
      shorter, at the same time. */
  lemma MonthsMean(first: int, interval: int, x: int)
    requires interval >= 1
    ensures EveryMonths(first, interval, x) <==> IsMonthly(first, interval, x)
  {
    hide CivilFromDays, DaysFromCivil, AddMonths, DaysInMonth;
    var (a, b) := (CivilFromDays(first / DAY), CivilFromDays(x / DAY));
    DayRoundTrip(first / DAY);
    DayRoundTrip(x / DAY);
    if EveryMonths(first, interval, x) {
      var k: nat :| k >= 1 && x == NthMonth(first, interval, k);
      MulSign(interval, k);
      assert k * interval >= 1 by {
        assert (k - 1) * interval >= 0 && k * interval == (k - 1) * interval + interval;
      }
      AddedAre(a, k * interval);
      InDay(DaysFromCivil(AddMonths(a, k * interval)), first % DAY, x);
      DateRoundTrip(AddMonths(a, k * interval));
      MultipleIs(k * interval, interval, k);
    }
    if IsMonthly(first, interval, x) {
      var k := IsMultiple(MonthsTo(a, b), interval);
      AreAdded(a, b);
      assert k >= 1;
      assert x == NthMonth(first, interval, k);
    }
  }

  lemma InDay(day: int, time: int, x: int)
    requires 0 <= time < DAY && x == day * DAY + time
    ensures x / DAY == day && x % DAY == time
  {
    DivIs(x, DAY, day);
  }

  /** The set a rule stands for: every `interval` days; every `interval` weeks, or their listed weekdays; or every
      `interval` months; nothing for other frequencies. */
  lemma RuleMeans(rule: Rule, first: int, horizon: int, x: int)
    requires rule.interval >= 1
    ensures x in Members(rule, first, horizon) <==>
              && first < x <= horizon && (rule.until.Some? ==> x <= rule.until.value)
              && match rule.freq
                 case "DAILY" => (x - first) % (DAY * rule.interval) == 0
                 case "WEEKLY" =>
                   if rule.byday == [] then (x - first) % (7 * DAY * rule.interval) == 0
                   else IsInWeek(first, rule.interval, rule.byday, x)
                 case "MONTHLY" => IsMonthly(first, rule.interval, x)
                 case _ => false
  {
    hide EveryDays, OnWeekdays, EveryMonths, IsInWeek, IsMonthly;
    if first < x {
      StepsMean(first, rule.interval, x);
      StepsMean(first, 7 * rule.interval, x);
      assert DAY * (7 * rule.interval) == 7 * DAY * rule.interval;
      WeeksMean(first, rule.interval, rule.byday, x);
      MonthsMean(first, rule.interval, x);
    }
  }
}
