/** Expansion of recurrence rules (a subset of section 3.3.10 of RFC 5545): DAILY, WEEKLY, WEEKLY with
    BYDAY, and MONTHLY with the day clamped to the month's length. */
module Rrule {
  import opened Civil
  import opened Text
  import opened DateTime

  // ---------------------------------------------------------------------------
  // Reading a rule.
  // ---------------------------------------------------------------------------

  datatype Rule = Rule(freq: string, interval: int, until: Option<int>, byday: seq<int>)

  const WEEKDAYS: seq<string> := ["MO", "TU", "WE", "TH", "FR", "SA", "SU"]

  /** The first weekday, from `from` on, whose name ends `token`. */
  function WeekdayOfToken(token: string, from: nat): Option<int>
    decreases |WEEKDAYS| - from
  {
    if from >= |WEEKDAYS| then None
    else if EndsWith(token, WEEKDAYS[from]) then Some(from)
    else WeekdayOfToken(token, from + 1)
  }

  function Weekdays(tokens: seq<string>): seq<int> {
    if |tokens| == 0 then [] else
      match WeekdayOfToken(Trim(tokens[0]), 0)
      case Some(day) => [day] + Weekdays(tokens[1..])
      case None => Weekdays(tokens[1..])
  }

  function ParseByday(value: string): seq<int> {
    Weekdays(Split(value, ','))
  }

  function ParseInterval(value: string): (interval: int)
    ensures interval >= 1
  {
    match ParseI64(Trim(value))
    case Some(n) => if n < 1 then 1 else n
    case None => 1
  }

  function ApplyPart(rule: Rule, part: string): Rule {
    match SplitOnce(part, '=')
    case None => rule
    case Some((key, value)) =>
      var name := Upper(Trim(key));
      if name == "FREQ" then rule.(freq := Upper(Trim(value)))
      else if name == "INTERVAL" then rule.(interval := ParseInterval(value))
      else if name == "UNTIL" then
        rule.(until := match ParseDt(Trim(value)) case Ok(dt) => Some(dt.0) case Err(_) => None)
      else if name == "BYDAY" then rule.(byday := ParseByday(value))
      else rule
  }

  function ApplyParts(parts: seq<string>): (rule: Rule)
    ensures rule.interval >= 1
  {
    if |parts| == 0 then Rule("", 1, None, [])
    else ApplyPart(ApplyParts(parts[..|parts| - 1]), parts[|parts| - 1])
  }

  /** The rule a text denotes: of a repeated part the last one counts. */
  function ParseRule(rrule: string): (rule: Rule)
    ensures rule.interval >= 1
  {
    ApplyParts(Split(rrule, ';'))
  }

  // ---------------------------------------------------------------------------
  // What a rule means: a set of instants.
  // ---------------------------------------------------------------------------

  /** `k` steps of `days` days after `first`. */
  function NthDay(first: int, days: int, k: nat): int {
    first + k * days * MS_PER_DAY
  }

  /** The Monday of the week that holds `ms`, as a day number. */
  function MondayOf(ms: int): int {
    ms / MS_PER_DAY - WeekdayMon0(ms / MS_PER_DAY)
  }

  function NthMonday(first: int, interval: int, k: nat): int {
    MondayOf(first) + 7 * interval * k
  }

  /** The date `months` later, on the last day of the month where the month is too short. */
  function AddMonths(date: Date, months: int): Date {
    var total := date.m - 1 + months;
    var y, m := date.y + total / 12, total % 12 + 1;
    Date(y, m, if date.d < DaysInMonth(y, m) then date.d else DaysInMonth(y, m))
  }

  /** `months` months after `first`, at the same time of day. */
  function MonthsLater(first: int, months: int): int {
    DaysFromCivil(AddMonths(CivilFromDays(first / MS_PER_DAY), months)) * MS_PER_DAY + first % MS_PER_DAY
  }

  function NthMonth(first: int, interval: int, k: nat): int {
    MonthsLater(first, k * interval)
  }

  ghost predicate EveryDays(first: int, days: int, x: int) {
    exists k: nat :: x == NthDay(first, days, k)
  }

  ghost predicate OnWeekdays(first: int, interval: int, byday: seq<int>, x: int) {
    && x % MS_PER_DAY == first % MS_PER_DAY
    && WeekdayMon0(x / MS_PER_DAY) in byday
    && exists k: nat :: MondayOf(x) == NthMonday(first, interval, k)
  }

  ghost predicate EveryMonths(first: int, interval: int, x: int) {
    exists k: nat :: k >= 1 && x == NthMonth(first, interval, k)
  }

  ghost predicate Recurs(rule: Rule, first: int, x: int) {
    if rule.freq == "DAILY" then EveryDays(first, rule.interval, x)
    else if rule.freq == "WEEKLY" && rule.byday != [] then OnWeekdays(first, rule.interval, rule.byday, x)
    else if rule.freq == "WEEKLY" then EveryDays(first, 7 * rule.interval, x)
    else if rule.freq == "MONTHLY" then EveryMonths(first, rule.interval, x)
    else false
  }

  predicate InWindow(first: int, horizon: int, until: Option<int>, x: int) {
    first < x <= horizon && (until.Some? ==> x <= until.value)
  }

  /** The instants a rule stands for, after `first` and up to the horizon and the rule's own end. */
  ghost function Members(rule: Rule, first: int, horizon: int): iset<int> {
    iset x | InWindow(first, horizon, rule.until, x) && Recurs(rule, first, x)
  }

  ghost predicate Increasing(out: seq<int>) {
    forall i, j | 0 <= i < j < |out| :: out[i] < out[j]
  }

  /** `out` lists the `n` smallest members in order, or all of them when there are fewer. */
  ghost predicate FirstMembers(out: seq<int>, members: iset<int>, n: nat) {
    && Increasing(out)
    && |out| <= n
    && (forall x <- out :: x in members)
    && (forall x <- members :: x in out || (|out| == n && forall y <- out :: y < x))
  }

  /** `FirstMembers` leaves nothing open. */
  lemma FirstMembersUnique(a: seq<int>, b: seq<int>, members: iset<int>, n: nat)
    requires FirstMembers(a, members, n) && FirstMembers(b, members, n)
    ensures a == b
  {
    PrefixesAgree(a, b, members, n, |a|);
    PrefixesAgree(b, a, members, n, |b|);
  }

  /** An increasing list splits at each index into smaller and larger elements. */
  lemma SplitAt(a: seq<int>, i: nat)
    requires Increasing(a) && i < |a|
    ensures a[i] !in a[..i]
    ensures forall x <- a :: x in a[..i] || a[i] <= x
  {
    forall x <- a
      ensures x in a[..i] || a[i] <= x
    {
      var j :| 0 <= j < |a| && a[j] == x;
      if j < i {
        assert a[..i][j] == x;
      }
    }
  }

  lemma {:induction false} PrefixesAgree(a: seq<int>, b: seq<int>, members: iset<int>, n: nat, k: nat)
    requires FirstMembers(a, members, n) && FirstMembers(b, members, n)
    requires k <= |a|
    ensures k <= |b| && a[..k] == b[..k]
  {
    if k > 0 {
      PrefixesAgree(a, b, members, n, k - 1);
      SplitAt(a, k - 1);
      assert a[k - 1] in a && b[..|b|] == b;
      if k - 1 < |b| {
        SplitAt(b, k - 1);
        assert b[k - 1] in b;
      }
    }
  }

  // ---------------------------------------------------------------------------
  // The collector behind the expansion's `push` closure.
  // ---------------------------------------------------------------------------

  /** How many occurrences may be returned. A cap of zero still lets one through. */
  function Quota(count: Option<int>, cap: nat): nat {
    var most := if cap == 0 then 1 else cap;
    match count
    case None => most
    case Some(c) => if c < 0 then 0 else if c < most then c else most
  }

  const MAX_MONTHS: nat := 1200

  /** How many members the expansion looks for: a monthly rule is given up after its 1200th month. */
  function Reach(freq: string, quota: nat): nat {
    if freq == "MONTHLY" && quota > MAX_MONTHS then MAX_MONTHS else quota
  }

  /** A list cut at `reach` is still the list wanted of `n`, exactly when `n` is within reach or no member
      is left. */
  lemma CutIsEnough(out: seq<int>, members: iset<int>, n: nat, reach: nat)
    requires reach <= n && FirstMembers(out, members, reach)
    ensures FirstMembers(out, members, n) <==> n == reach || forall x <- members :: x in out
  {
    if reach < n && FirstMembers(out, members, n) {
      assert |out| != n;
    }
  }

  /** The instants a rule would have up to the horizon if it had no end of its own. */
  ghost predicate Spans(candidates: iset<int>, first: int, horizon: int) {
    forall x <- candidates :: first < x <= horizon
  }

  ghost function Kept(candidates: iset<int>, until: Option<int>): iset<int> {
    iset x | x in candidates && (until.Some? ==> x <= until.value)
  }

  /** The cap stopped the expansion, or the rule's own end did: some instant up to the horizon is not in `out`. */
  ghost predicate EndsEarly(out: seq<int>, candidates: iset<int>, cap: nat) {
    |out| >= (if cap == 0 then 1 else cap) || exists x <- candidates :: x !in out
  }

  class Collector {
    const first: int
    const horizon: int
    const until: Option<int>
    const cap: nat
    ghost const allowed: Option<int>
    var count: Option<int>
    var out: seq<int>

    constructor (first: int, horizon: int, until: Option<int>, count: Option<int>, cap: nat)
      ensures this.first == first && this.horizon == horizon && this.until == until
      ensures this.allowed == count && this.cap == cap
      ensures Open() && this.out == []
    {
      this.first, this.horizon, this.until, this.cap := first, horizon, until, cap;
      this.count, this.allowed, this.out := count, count, [];
    }

    /** The counter holds what is left of the allowance, and the cap is not reached. */
    ghost predicate Open()
      reads this
    {
      && |out| < (if cap == 0 then 1 else cap)
      && (match allowed
          case None => count == None
          case Some(c) => count == Some(c - |out|) && (|out| > 0 ==> |out| <= c))
    }

    /** Every candidate below `frontier` has been taken, and nothing else. */
    ghost predicate Reached(candidates: iset<int>, frontier: int)
      reads this
    {
      && Open() && Increasing(out)
      && (forall x <- out :: x in Kept(candidates, until) && x < frontier)
      && (forall x <- candidates :: x < frontier ==> x in out)
    }

    /** `out` is final: the list wanted. */
    ghost predicate Final(candidates: iset<int>)
      reads this
    {
      FirstMembers(out, Kept(candidates, until), Quota(allowed, cap))
    }

    /** Offer the next candidate. When the answer is false, `out` is final. */
    method Push(ms: int, ghost candidates: iset<int>, ghost frontier: int) returns (go: bool)
      requires Spans(candidates, first, horizon)
      requires first < ms <= horizon ==> ms in candidates
      requires frontier <= ms && forall x <- candidates :: frontier <= x ==> ms <= x
      requires Reached(candidates, frontier)
      modifies this
      ensures go ==> Reached(candidates, ms + 1)
      ensures !go ==> Final(candidates) && EndsEarly(out, candidates, cap) && first < ms <= horizon
      ensures !go ==> |out| >= (if cap == 0 then 1 else cap) || ms !in out
      ensures old(|out|) <= |out| <= old(|out|) + 1
      ensures go && first < ms <= horizon ==> |out| == old(|out|) + 1
    {
      if ms <= first || ms > horizon {
        return true;
      }
      assert ms !in out;
      if until.Some? && ms > until.value {
        return false;
      }
      if count.Some? {
        if count.value <= 0 {
          return false;
        }
        count := Some(count.value - 1);
      }
      assert forall i | 0 <= i < |out| :: out[i] in out;
      out := out + [ms];
      return |out| < cap;
    }

    /** The frontier may move over a gap. */
    lemma Skip(candidates: iset<int>, frontier: int, next: int)
      requires Reached(candidates, frontier) && frontier <= next
      requires forall x <- candidates | frontier <= x :: next <= x
      ensures Reached(candidates, next)
    {
    }

    /** Nothing is left when the frontier is past the horizon. */
    lemma BeyondHorizon(candidates: iset<int>, frontier: int)
      requires Reached(candidates, frontier) && Spans(candidates, first, horizon) && horizon < frontier
      ensures Final(candidates) && !EndsEarly(out, candidates, cap)
    {
    }
  }

  // ---------------------------------------------------------------------------
  // The four expansion loops. Each logs the products and instants it computes, which the program holds in
  // 64 bits.
  // ---------------------------------------------------------------------------

  ghost predicate AllFit(values: seq<int>) {
    forall v <- values :: IsI64(v)
  }

  /** Between two bounds. */
  ghost predicate Within(values: seq<int>, low: int, high: int) {
    forall v <- values :: low <= v <= high
  }

  /** The first of the days `start`, `start + step` and so on that lies beyond the horizon. */
  function NextDay(start: int, step: int, horizon: int): int
    requires step >= 1
  {
    var last := horizon / MS_PER_DAY;
    if last < start then start else start + ((last - start) / step + 1) * step
  }

  /** What the loops over days and weeks compute fits 64 bits: they stop before the horizon, or the first day
      beyond it fits. */
  predicate DaysFit(start: int, step: int, horizon: int, early: bool)
    requires step >= 1
  {
    IsI64(start * MS_PER_DAY) && (early || IsI64(NextDay(start, step, horizon) * MS_PER_DAY))
  }

  lemma NextDayIs(start: int, step: int, horizon: int, k: nat)
    requires step >= 1 && (start + k * step) * MS_PER_DAY > horizon
    requires k > 0 ==> (start + (k - 1) * step) * MS_PER_DAY <= horizon
    ensures NextDay(start, step, horizon) == start + k * step
  {
    var last := horizon / MS_PER_DAY;
    if k > 0 {
      assert start + (k - 1) * step <= last < start + k * step;
      assert k * step == (k - 1) * step + step && step * (k - 1) == (k - 1) * step;
      MulSign(step, k - 1);
      DivIs(last - start, step, k - 1);
    }
  }

  lemma NthDayIncreases(first: int, days: int, j: nat, k: nat)
    requires days >= 1 && j < k
    ensures NthDay(first, days, j) + MS_PER_DAY <= NthDay(first, days, k)
  {
    assert k * days == j * days + (k - j) * days;
    assert (k - j) * days >= 1;
  }

  /** No instant of a rule over days lies between two steps. */
  lemma DaysAround(first: int, days: int, k: nat, x: int)
    requires days >= 1 && EveryDays(first, days, x)
    ensures x <= NthDay(first, days, k) || NthDay(first, days, k + 1) <= x
    ensures first <= x
  {
    var j: nat :| x == NthDay(first, days, j);
    if j < k {
      NthDayIncreases(first, days, j, k);
    } else if k + 1 < j {
      NthDayIncreases(first, days, k + 1, j);
    }
    if 0 < j {
      NthDayIncreases(first, days, 0, j);
    }
  }

  lemma NthDayIs(first: int, days: int, k: nat)
    ensures (first / MS_PER_DAY + k * days) * MS_PER_DAY + first % MS_PER_DAY == NthDay(first, days, k)
    ensures first / MS_PER_DAY + k * days + days == first / MS_PER_DAY + (k + 1) * days
  {
  }

  /** DAILY, and WEEKLY without BYDAY. */
  method ExpandDays(c: Collector, days: int, ghost candidates: iset<int>)
    returns (ghost values: seq<int>, ghost early: bool)
    requires days >= 1
    requires c.Open() && c.out == []
    requires candidates == iset x | c.first < x <= c.horizon && EveryDays(c.first, days, x)
    modifies c
    ensures c.Final(candidates)
    ensures early <==> EndsEarly(c.out, candidates, c.cap)
    ensures IsI64(c.first) && IsI64(c.horizon) ==>
              (AllFit(values) <==> DaysFit(c.first / MS_PER_DAY, days, c.horizon, early))
  {
    var cursor := c.first / MS_PER_DAY;
    ghost var start, k: nat := cursor, 0;
    values, early := [cursor * MS_PER_DAY], false;
    forall x <- candidates
      ensures NthDay(c.first, days, 0) <= x
    {
      DaysAround(c.first, days, 0, x);
    }
    while cursor * MS_PER_DAY <= c.horizon
      invariant cursor == start + k * days
      invariant c.Reached(candidates, NthDay(c.first, days, k))
      invariant Within(values, start * MS_PER_DAY, cursor * MS_PER_DAY)
      invariant start * MS_PER_DAY in values && cursor * MS_PER_DAY in values
      invariant k > 0 ==> (start + (k - 1) * days) * MS_PER_DAY <= c.horizon
      decreases c.horizon - cursor * MS_PER_DAY
    {
      var ms := cursor * MS_PER_DAY + c.first % MS_PER_DAY;
      NthDayIs(c.first, days, k);
      values := values + [ms];
      var go := c.Push(ms, candidates, ms);
      if !go {
        early := true;
        return;
      }
      forall x <- candidates | ms < x
        ensures NthDay(c.first, days, k + 1) <= x
      {
        DaysAround(c.first, days, k, x);
      }
      NthDayIncreases(c.first, days, k, k + 1);
      c.Skip(candidates, ms + 1, NthDay(c.first, days, k + 1));
      cursor := cursor + days;
      values := values + [cursor * MS_PER_DAY];
      k := k + 1;
    }
    NthDayIs(c.first, days, k);
    c.BeyondHorizon(candidates, NthDay(c.first, days, k));
    NextDayIs(start, days, c.horizon, k);
  }

  lemma NthMondayIncreases(first: int, interval: int, j: nat, k: nat)
    requires interval >= 1 && j < k
    ensures NthMonday(first, interval, j) + 7 * interval <= NthMonday(first, interval, k)
  {
    var step := 7 * interval;
    assert step * k == step * j + step * (k - j);
    MulSign(step, k - j);
  }

  /** The instants of a Monday-anchored week at a given time of day. */
  lemma WeekdayInstant(monday: int, offset: int, time: int)
    requires WeekdayMon0(monday) == 0 && 0 <= offset < 7 && 0 <= time < MS_PER_DAY
    ensures var ms := (monday + offset) * MS_PER_DAY + time;
            && ms / MS_PER_DAY == monday + offset && ms % MS_PER_DAY == time
            && WeekdayMon0(monday + offset) == offset && MondayOf(ms) == monday
  {
    hide WeekdayMon0;
    WeekdayByFloor(monday);
    WeekdayByFloor(monday + offset);
  }

  lemma MondayIsMonday(ms: int)
    ensures WeekdayMon0(MondayOf(ms)) == 0
    ensures MondayOf(ms) <= ms / MS_PER_DAY < MondayOf(ms) + 7
  {
    hide WeekdayMon0;
    var day := ms / MS_PER_DAY;
    WeekdayByFloor(day);
    WeekdayByFloor(day - WeekdayMon0(day));
  }

  /** No wanted weekday lies between the last day of one counted week and the Monday of the next. */
  lemma NoWeekBetween(first: int, interval: int, byday: seq<int>, k: nat, x: int)
    requires interval >= 1 && OnWeekdays(first, interval, byday, x)
    requires (NthMonday(first, interval, k) + 7) * MS_PER_DAY + first % MS_PER_DAY <= x
    ensures NthMonday(first, interval, k + 1) * MS_PER_DAY + first % MS_PER_DAY <= x
  {
    MondayIsMonday(x);
    var j: nat :| MondayOf(x) == NthMonday(first, interval, j);
    if j < k {
      NthMondayIncreases(first, interval, j, k);
    } else if k + 1 < j {
      NthMondayIncreases(first, interval, k + 1, j);
    }
  }

  lemma NoWeekBefore(first: int, interval: int, byday: seq<int>, x: int)
    requires interval >= 1 && OnWeekdays(first, interval, byday, x)
    ensures NthMonday(first, interval, 0) * MS_PER_DAY + first % MS_PER_DAY <= x
  {
    MondayIsMonday(x);
    var j: nat :| MondayOf(x) == NthMonday(first, interval, j);
    if 0 < j {
      NthMondayIncreases(first, interval, 0, j);
    }
  }

  lemma OnceADay(first: int, interval: int, byday: seq<int>, ms: int, x: int)
    requires OnWeekdays(first, interval, byday, x)
    requires ms <= x < ms + MS_PER_DAY && ms % MS_PER_DAY == first % MS_PER_DAY
    ensures x == ms && WeekdayMon0(ms / MS_PER_DAY) in byday
  {
  }

  /** A wanted day of a counted week is a candidate, and the only one of its day. */
  lemma DayIsCandidate(c: Collector, interval: int, byday: seq<int>, week: int, offset: int, candidates: iset<int>)
    requires WeekdayMon0(week) == 0 && 0 <= offset < 7
    requires candidates == iset x | c.first < x <= c.horizon && OnWeekdays(c.first, interval, byday, x)
    requires exists k: nat :: week == NthMonday(c.first, interval, k)
    ensures var ms := (week + offset) * MS_PER_DAY + c.first % MS_PER_DAY;
            && (forall x <- candidates | ms <= x < ms + MS_PER_DAY ::
                  x == ms && WeekdayMon0(week + offset) in byday)
            && (c.first < ms <= c.horizon && WeekdayMon0(week + offset) in byday ==> ms in candidates)
  {
    var time := c.first % MS_PER_DAY;
    var ms := (week + offset) * MS_PER_DAY + time;
    WeekdayInstant(week, offset, time);
    hide WeekdayMon0, MondayOf, NthMonday;
    forall x <- candidates | ms <= x < ms + MS_PER_DAY
      ensures x == ms && WeekdayMon0(week + offset) in byday
    {
      OnceADay(c.first, interval, byday, ms, x);
    }
  }

  /** Offer the wanted days of one counted week. */
  method OfferWeek(c: Collector, interval: int, byday: seq<int>, week: int, ghost candidates: iset<int>)
    returns (go: bool, ghost values: seq<int>)
    requires WeekdayMon0(week) == 0 && week * MS_PER_DAY <= c.horizon
    requires candidates == iset x | c.first < x <= c.horizon && OnWeekdays(c.first, interval, byday, x)
    requires exists k: nat :: week == NthMonday(c.first, interval, k)
    requires c.Reached(candidates, week * MS_PER_DAY + c.first % MS_PER_DAY)
    modifies c
    ensures go ==> c.Reached(candidates, (week + 7) * MS_PER_DAY + c.first % MS_PER_DAY)
    ensures !go ==> c.Final(candidates) && EndsEarly(c.out, candidates, c.cap)
    ensures Within(values, week * MS_PER_DAY, if go then (week + 7) * MS_PER_DAY else c.horizon)
  {
    hide WeekdayMon0, MondayOf, NthMonday, OnWeekdays, EndsEarly, Kept, FirstMembers;
    var time := c.first % MS_PER_DAY;
    values := [];
    assert Spans(candidates, c.first, c.horizon);
    hide Spans;
    for offset := 0 to 7
      invariant c.Reached(candidates, (week + offset) * MS_PER_DAY + time)
      invariant Within(values, week * MS_PER_DAY, (week + offset) * MS_PER_DAY)
    {
      var day := week + offset;
      var ms := day * MS_PER_DAY + time;
      ghost var soFar := values;
      DayIsCandidate(c, interval, byday, week, offset, candidates);
      if WeekdayMon0(day) !in byday {
        c.Skip(candidates, ms, ms + MS_PER_DAY);
        continue;
      }
      values := values + [day * MS_PER_DAY, ms];
      go := c.Push(ms, candidates, ms);
      if !go {
        WithinMore(soFar, [day * MS_PER_DAY, ms], week * MS_PER_DAY, day * MS_PER_DAY, c.horizon);
        return;
      }
      WithinMore(soFar, [day * MS_PER_DAY, ms], week * MS_PER_DAY, day * MS_PER_DAY, (day + 1) * MS_PER_DAY);
      c.Skip(candidates, ms + 1, ms + MS_PER_DAY);
    }
    go := true;
  }

  lemma WithinMore(values: seq<int>, more: seq<int>, low: int, high: int, top: int)
    requires Within(values, low, high) && Within(more, low, top) && high <= top
    ensures Within(values + more, low, top)
  {
  }

  /** WEEKLY with BYDAY: weeks start on Monday, the first one holds the first occurrence. */
  method ExpandWeeks(c: Collector, interval: int, byday: seq<int>, ghost candidates: iset<int>)
    returns (ghost values: seq<int>, ghost early: bool)
    requires interval >= 1
    requires c.Open() && c.out == []
    requires candidates == iset x | c.first < x <= c.horizon && OnWeekdays(c.first, interval, byday, x)
    modifies c
    ensures c.Final(candidates)
    ensures early <==> EndsEarly(c.out, candidates, c.cap)
    ensures IsI64(c.first) && IsI64(c.horizon) ==>
              (AllFit(values) <==> DaysFit(MondayOf(c.first), 7 * interval, c.horizon, early))
  {
    var time := c.first % MS_PER_DAY;
    var week := c.first / MS_PER_DAY - WeekdayMon0(c.first / MS_PER_DAY);
    ghost var start, k: nat := week, 0;
    values, early := [week * MS_PER_DAY], false;
    MondayIsMonday(c.first);
    NthMondayIs(c.first, interval, 0);
    hide WeekdayMon0, MondayOf, NthMonday, OnWeekdays;
    forall x <- candidates
      ensures week * MS_PER_DAY + time <= x
    {
      NoWeekBefore(c.first, interval, byday, x);
    }
    while week * MS_PER_DAY <= c.horizon
      invariant week == start + k * (7 * interval) == NthMonday(c.first, interval, k) && WeekdayMon0(week) == 0
      invariant c.Reached(candidates, week * MS_PER_DAY + time)
      invariant Within(values, start * MS_PER_DAY, week * MS_PER_DAY)
      invariant start * MS_PER_DAY in values && week * MS_PER_DAY in values
      invariant k > 0 ==> (start + (k - 1) * (7 * interval)) * MS_PER_DAY <= c.horizon
      decreases c.horizon - week * MS_PER_DAY
    {
      var go; ghost var ofWeek;
      go, ofWeek := OfferWeek(c, interval, byday, week, candidates);
      ghost var soFar := values;
      values := values + ofWeek;
      if !go {
        WithinMore(soFar, ofWeek, start * MS_PER_DAY, week * MS_PER_DAY, c.horizon);
        early := true;
        return;
      }
      ghost var monday := week + 7 * interval;
      NthMondayIs(c.first, interval, k + 1);
      forall x <- candidates | (week + 7) * MS_PER_DAY + time <= x
        ensures monday * MS_PER_DAY + time <= x
      {
        NoWeekBetween(c.first, interval, byday, k, x);
      }
      c.Skip(candidates, (week + 7) * MS_PER_DAY + time, monday * MS_PER_DAY + time);
      WeekdayRepeats(week, interval);
      WithinMore(soFar, ofWeek, start * MS_PER_DAY, week * MS_PER_DAY, monday * MS_PER_DAY);
      week := week + 7 * interval;
      values := values + [week * MS_PER_DAY];
      k := k + 1;
    }
    c.BeyondHorizon(candidates, week * MS_PER_DAY + time);
    NextDayIs(start, 7 * interval, c.horizon, k);
  }

  lemma NthMondayIs(first: int, interval: int, k: nat)
    ensures NthMonday(first, interval, k) == MondayOf(first) + k * (7 * interval)
    ensures k > 0 ==> NthMonday(first, interval, k) == MondayOf(first) + (k - 1) * (7 * interval) + 7 * interval
  {
    assert 7 * interval * k == k * (7 * interval);
  }

  lemma MonthsLaterIncreases(first: int, j: int, k: int)
    requires 0 <= j < k
    ensures MonthsLater(first, j) < MonthsLater(first, k)
    ensures first < MonthsLater(first, k)
  {
    hide DaysFromCivil, CivilFromDays;
    var date := CivilFromDays(first / MS_PER_DAY);
    DayRoundTrip(first / MS_PER_DAY);
    AddMonthsIncreases(date, j, k);
    AddMonthsIncreases(date, 0, k);
    DaysFromCivilIncreases(AddMonths(date, j), AddMonths(date, k));
    DaysFromCivilIncreases(date, AddMonths(date, k));
  }

  lemma AddMonthsIncreases(date: Date, j: int, k: int)
    requires date.Valid() && 0 <= j < k
    ensures AddMonths(date, j).Valid() && AddMonths(date, k).Valid()
    ensures AddMonths(date, j).Before(AddMonths(date, k))
    ensures AddMonths(date, 0) == date
  {
  }

  lemma NthMonthIncreases(first: int, interval: int, j: nat, k: nat)
    requires interval >= 1 && j < k
    ensures NthMonth(first, interval, j) < NthMonth(first, interval, k)
    ensures first < NthMonth(first, interval, k)
  {
    assert k * interval == j * interval + (k - j) * interval;
    assert (k - j) * interval >= 1 && j * interval >= 0;
    MonthsLaterIncreases(first, j * interval, k * interval);
  }

  lemma NthMonthIs(first: int, interval: int, k: nat, y: int, m: int, d: int)
    requires var start := CivilFromDays(first / MS_PER_DAY);
             var total := start.m - 1 + k * interval;
             && y == start.y + total / 12 && m == total % 12 + 1
             && d == if start.d < DaysInMonth(y, m) then start.d else DaysInMonth(y, m)
    ensures DaysFromCivil(Date(y, m, d)) * MS_PER_DAY + first % MS_PER_DAY == NthMonth(first, interval, k)
  {
    hide CivilFromDays, DaysFromCivil;
  }

  lemma MonthsFollow(first: int, interval: int, index: nat)
    requires interval >= 1
    ensures forall x | EveryMonths(first, interval, x) ::
              && NthMonth(first, interval, 1) <= x
              && (NthMonth(first, interval, index) < x ==> NthMonth(first, interval, index + 1) <= x)
  {
    hide NthMonth, EveryMonths;
    forall x | EveryMonths(first, interval, x)
      ensures NthMonth(first, interval, 1) <= x
      ensures NthMonth(first, interval, index) < x ==> NthMonth(first, interval, index + 1) <= x
    {
      MonthsAround(first, interval, index, x);
    }
  }

  lemma MonthsAround(first: int, interval: int, index: nat, x: int)
    requires interval >= 1 && EveryMonths(first, interval, x)
    ensures NthMonth(first, interval, 1) <= x
    ensures x < NthMonth(first, interval, index) || x == NthMonth(first, interval, index)
         || NthMonth(first, interval, index + 1) <= x
  {
    hide NthMonth;
    var j: nat :| 1 <= j && x == NthMonth(first, interval, j);
    if 1 < j {
      NthMonthIncreases(first, interval, 1, j);
    }
    if j < index {
      NthMonthIncreases(first, interval, j, index);
    } else if index + 1 < j {
      NthMonthIncreases(first, interval, index + 1, j);
    }
  }

  /** The first month from `index` on that lies beyond the horizon, or the one after the last that is tried. */
  function NextMonth(first: int, interval: int, horizon: int, index: nat): (next: nat)
    requires index <= MAX_MONTHS + 1
    ensures index <= next <= MAX_MONTHS + 1
    decreases MAX_MONTHS + 1 - index
  {
    if index > MAX_MONTHS || NthMonth(first, interval, index) > horizon then index
    else NextMonth(first, interval, horizon, index + 1)
  }

  /** What the loop over months computes fits 64 bits: it stops before, or the last month it looks at fits. */
  predicate MonthsFit(first: int, interval: int, horizon: int, early: bool) {
    early || IsI64(NthMonth(first, interval, NextMonth(first, interval, horizon, 1)))
  }

  ghost predicate IsTried(first: int, interval: int, x: int) {
    exists k: nat :: 1 <= k <= MAX_MONTHS && x == NthMonth(first, interval, k)
  }

  /** The instants in the months that are tried. */
  ghost function MonthsTried(first: int, interval: int, horizon: int): iset<int> {
    iset x | first < x <= horizon && IsTried(first, interval, x)
  }

  /** The months keep the time of day, so that they are days apart. */
  lemma MonthIsLater(first: int, interval: int, k: nat)
    requires interval >= 1 && k >= 1
    ensures first + MS_PER_DAY <= NthMonth(first, interval, k)
  {
    hide CivilFromDays, DaysFromCivil, AddMonths, NthMonth;
    NthMonthIncreases(first, interval, 0, k);
    NthMonthDay(first, interval, k);
  }

  lemma NthMonthDay(first: int, interval: int, k: nat)
    ensures NthMonth(first, interval, k) % MS_PER_DAY == first % MS_PER_DAY
    ensures NthMonth(first, interval, k) > first ==> NthMonth(first, interval, k) >= first + MS_PER_DAY
  {
    hide CivilFromDays, DaysFromCivil, AddMonths;
    var day := DaysFromCivil(AddMonths(CivilFromDays(first / MS_PER_DAY), k * interval));
    assert NthMonth(first, interval, k) == day * MS_PER_DAY + first % MS_PER_DAY;
    SameTime(first / MS_PER_DAY, day, first % MS_PER_DAY);
  }

  lemma SameTime(a: int, b: int, time: int)
    requires 0 <= time < MS_PER_DAY
    ensures (b * MS_PER_DAY + time) % MS_PER_DAY == time
    ensures b * MS_PER_DAY > a * MS_PER_DAY ==> b * MS_PER_DAY >= a * MS_PER_DAY + MS_PER_DAY
  {
  }

  /** A list cut at 1200 months. */
  lemma MonthsAreCut(out: seq<int>, members: iset<int>, quota: nat)
    requires |out| <= MAX_MONTHS && FirstMembers(out, members, quota)
    ensures FirstMembers(out, members, Reach("MONTHLY", quota))
  {
  }

  lemma MonthsRunOut(c: Collector, candidates: iset<int>, frontier: int)
    requires c.Reached(candidates, frontier) && |c.out| == MAX_MONTHS
    requires forall x <- candidates :: x < frontier || frontier <= x
    ensures FirstMembers(c.out, Kept(candidates, c.until), Reach("MONTHLY", Quota(c.allowed, c.cap)))
  {
  }

  lemma NothingTriedIsLeft(c: Collector, interval: int, candidates: iset<int>, index: nat)
    requires interval >= 1 && 1 <= index
    requires candidates == iset x | c.first < x <= c.horizon && EveryMonths(c.first, interval, x)
    requires c.Reached(candidates, NthMonth(c.first, interval, index))
    requires index > MAX_MONTHS || NthMonth(c.first, interval, index) > c.horizon
    ensures !EndsEarly(c.out, MonthsTried(c.first, interval, c.horizon), c.cap)
  {
    hide NthMonth;
    forall x <- MonthsTried(c.first, interval, c.horizon)
      ensures x in c.out
    {
      var k: nat :| 1 <= k <= MAX_MONTHS && x == NthMonth(c.first, interval, k);
      assert x in candidates;
      if k < index {
        NthMonthIncreases(c.first, interval, k, index);
      } else if index < k {
        NthMonthIncreases(c.first, interval, index, k);
      }
    }
  }

  lemma TriedEndsEarly(c: Collector, interval: int, index: nat)
    requires 1 <= index <= MAX_MONTHS && c.first < NthMonth(c.first, interval, index) <= c.horizon
    requires |c.out| >= (if c.cap == 0 then 1 else c.cap) || NthMonth(c.first, interval, index) !in c.out
    ensures EndsEarly(c.out, MonthsTried(c.first, interval, c.horizon), c.cap)
  {
    hide NthMonth;
    assert NthMonth(c.first, interval, index) in MonthsTried(c.first, interval, c.horizon);
  }

  /** The log with the product and the instant of one more month. */
  ghost function MonthLog(values: seq<int>, first: int, product: int, ms: int): (log: seq<int>)
    requires first <= product <= ms && Within(values, first, ms)
    ensures log == values + [product, ms]
    ensures Within(log, first, ms) && ms in log
  {
    values + [product, ms]
  }

  lemma NextMonthFrom(first: int, interval: int, horizon: int, index: nat)
    requires 1 <= index <= MAX_MONTHS + 1
    ensures NextMonth(first, interval, horizon, index) ==
            if index > MAX_MONTHS || NthMonth(first, interval, index) > horizon then index
            else NextMonth(first, interval, horizon, index + 1)
  {
    hide NthMonth;
  }

  lemma LastMonthFits(values: seq<int>, first: int, interval: int, horizon: int, index: nat)
    requires NthMonth(first, interval, index) in values && Within(values, first, NthMonth(first, interval, index))
    requires NextMonth(first, interval, horizon, 1) == index
    ensures IsI64(first) && IsI64(horizon) ==> (AllFit(values) <==> MonthsFit(first, interval, horizon, false))
  {
    hide NthMonth, NextMonth;
  }

  lemma EarlyMonthsFit(values: seq<int>, first: int, interval: int, horizon: int, ms: int)
    requires Within(values, first, ms) && ms <= horizon
    ensures IsI64(first) && IsI64(horizon) ==> (AllFit(values) <==> MonthsFit(first, interval, horizon, true))
  {
    hide NthMonth, NextMonth;
  }

  lemma NothingWithin(low: int, high: int)
    ensures Within([], low, high)
  {
  }

  lemma WithinHigher(values: seq<int>, low: int, high: int, top: int)
    requires Within(values, low, high) && high <= top
    ensures Within(values, low, top)
  {
  }

  /** MONTHLY: the clamped day never sticks, each month is computed from the first occurrence. Each of the
      1200 months it tries at most is a member, so it misses none of the first 1200 members. */
  method ExpandMonths(c: Collector, interval: int, ghost candidates: iset<int>)
    returns (ghost values: seq<int>, ghost early: bool)
    requires interval >= 1
    requires c.Open() && c.out == []
    requires candidates == iset x | c.first < x <= c.horizon && EveryMonths(c.first, interval, x)
    modifies c
    ensures FirstMembers(c.out, Kept(candidates, c.until), Reach("MONTHLY", Quota(c.allowed, c.cap)))
    ensures early <==> EndsEarly(c.out, MonthsTried(c.first, interval, c.horizon), c.cap)
    ensures IsI64(c.first) && IsI64(c.horizon) ==>
              (AllFit(values) <==> MonthsFit(c.first, interval, c.horizon, early))
  {
    hide CivilFromDays, DaysFromCivil, DaysInMonth, NthMonth, Kept, EndsEarly, MonthsTried, Quota,
      Reach, FirstMembers, AllFit, Within, NextMonth, MonthsFit;
    var start := CivilFromDays(c.first / MS_PER_DAY);
    var timeOfDay := c.first % MS_PER_DAY;
    var index := 1;
    values, early := [], false;
    NothingWithin(c.first, NthMonth(c.first, interval, 1));
    MonthsFollow(c.first, interval, 1);
    while true
      invariant 1 <= index <= MAX_MONTHS + 1 && |c.out| == index - 1
      invariant c.Reached(candidates, NthMonth(c.first, interval, index))
      invariant NextMonth(c.first, interval, c.horizon, 1) == NextMonth(c.first, interval, c.horizon, index)
      invariant Within(values, c.first, NthMonth(c.first, interval, index))
      decreases MAX_MONTHS + 1 - index
    {
      var total := start.m - 1 + index * interval;
      var y := start.y + total / 12;
      var m := total % 12 + 1;
      var d := if start.d < DaysInMonth(y, m) then start.d else DaysInMonth(y, m);
      var day := DaysFromCivil(Date(y, m, d));
      var ms := day * MS_PER_DAY + timeOfDay;
      NthMonthIs(c.first, interval, index, y, m, d);
      MonthIsLater(c.first, interval, index);
      values := MonthLog(values, c.first, day * MS_PER_DAY, ms);
      NextMonthFrom(c.first, interval, c.horizon, index);
      if ms > c.horizon || index > MAX_MONTHS {
        NothingTriedIsLeft(c, interval, candidates, index);
        if ms > c.horizon {
          c.BeyondHorizon(candidates, ms);
          MonthsAreCut(c.out, Kept(candidates, c.until), Quota(c.allowed, c.cap));
        } else {
          MonthsRunOut(c, candidates, ms);
        }
        LastMonthFits(values, c.first, interval, c.horizon, index);
        return;
      }
      var go := c.Push(ms, candidates, ms);
      if !go {
        MonthsAreCut(c.out, Kept(candidates, c.until), Quota(c.allowed, c.cap));
        TriedEndsEarly(c, interval, index);
        early := true;
        EarlyMonthsFit(values, c.first, interval, c.horizon, ms);
        return;
      }
      MonthsFollow(c.first, interval, index);
      NthMonthIncreases(c.first, interval, index, index + 1);
      WithinHigher(values, c.first, ms, NthMonth(c.first, interval, index + 1));
      c.Skip(candidates, ms + 1, NthMonth(c.first, interval, index + 1));
      index := index + 1;
    }
  }

  /** What the expansion of a rule computes fits 64 bits. `out` is its result. */
  ghost predicate RuleFits(rule: Rule, first: int, horizon: int, cap: nat, out: seq<int>)
    requires rule.interval >= 1
  {
    var early := EndsEarly(out, Members(rule.(until := None), first, horizon), cap);
    if rule.freq == "DAILY" then DaysFit(first / MS_PER_DAY, rule.interval, horizon, early)
    else if rule.freq == "WEEKLY" && rule.byday != [] then DaysFit(MondayOf(first), 7 * rule.interval, horizon, early)
    else if rule.freq == "WEEKLY" then DaysFit(first / MS_PER_DAY, 7 * rule.interval, horizon, early)
    else rule.freq == "MONTHLY" ==>
      MonthsFit(first, rule.interval, horizon, EndsEarly(out, MonthsTried(first, rule.interval, horizon), cap))
  }

  /** Exactly the first occurrences of the rule, whatever its interval: as many as COUNT still
      allows, up to the cap, and of a monthly rule at most 1200 (`CutIsEnough` says when that matters). The
      products and instants it computes fit 64 bits exactly when `RuleFits` says so. */
  method ExpandRrule(first: int, rrule: string, horizon: int, count: Option<int>, cap: nat)
    returns (out: seq<int>, ghost values: seq<int>)
    ensures var rule := ParseRule(rrule);
            FirstMembers(out, Members(rule, first, horizon), Reach(rule.freq, Quota(count, cap)))
    ensures cap <= MAX_MONTHS ==> FirstMembers(out, Members(ParseRule(rrule), first, horizon), Quota(count, cap))
    ensures IsI64(first) && IsI64(horizon) ==>
              (AllFit(values) <==> RuleFits(ParseRule(rrule), first, horizon, cap, out))
  {
    var parts := Split(rrule, ';');
    var rule := Rule("", 1, None, []);
    for i := 0 to |parts|
      invariant rule == ApplyParts(parts[..i])
    {
      assert parts[..i + 1][..i] == parts[..i];
      rule := ApplyPart(rule, parts[i]);
    }
    assert parts[..|parts|] == parts;
    assert rule == ParseRule(rrule);
    out, values := ExpandRule(first, rule, horizon, count, cap);
  }

  lemma MembersAreKept(rule: Rule, first: int, horizon: int)
    ensures Members(rule, first, horizon) == Kept(Members(rule.(until := None), first, horizon), rule.until)
  {
    hide Recurs;
    assert forall x :: Recurs(rule, first, x) == Recurs(rule.(until := None), first, x) by {
      forall x
        ensures Recurs(rule, first, x) == Recurs(rule.(until := None), first, x)
      {
        UntilRecurs(rule, first, x);
      }
    }
  }

  lemma UntilRecurs(rule: Rule, first: int, x: int)
    ensures Recurs(rule, first, x) == Recurs(rule.(until := None), first, x)
  {
  }

  /** The expansion of a rule that has been read. */
  method ExpandRule(first: int, rule: Rule, horizon: int, count: Option<int>, cap: nat)
    returns (out: seq<int>, ghost values: seq<int>)
    requires rule.interval >= 1
    ensures FirstMembers(out, Members(rule, first, horizon), Reach(rule.freq, Quota(count, cap)))
    ensures IsI64(first) && IsI64(horizon) ==> (AllFit(values) <==> RuleFits(rule, first, horizon, cap, out))
  {
    hide EveryDays, OnWeekdays, EveryMonths, DaysFit, MonthsFit, EndsEarly, AllFit, Quota, Kept, MondayOf;
    ghost var candidates := Members(rule.(until := None), first, horizon);
    MembersAreKept(rule, first, horizon);
    values := [];
    ghost var early := false;
    var c := new Collector(first, horizon, rule.until, count, cap);
    if rule.freq == "DAILY" {
      assert candidates == iset x | c.first < x <= c.horizon && EveryDays(c.first, rule.interval, x);
      values, early := ExpandDays(c, rule.interval, candidates);
    } else if rule.freq == "WEEKLY" && rule.byday != [] {
      assert candidates == iset x | c.first < x <= c.horizon && OnWeekdays(c.first, rule.interval, rule.byday, x);
      values, early := ExpandWeeks(c, rule.interval, rule.byday, candidates);
    } else if rule.freq == "WEEKLY" {
      assert candidates == iset x | c.first < x <= c.horizon && EveryDays(c.first, 7 * rule.interval, x);
      values, early := ExpandDays(c, 7 * rule.interval, candidates);
    } else if rule.freq == "MONTHLY" {
      assert candidates == iset x | c.first < x <= c.horizon && EveryMonths(c.first, rule.interval, x);
      values, early := ExpandMonths(c, rule.interval, candidates);
    } else {
      NothingRecurs(rule, first, horizon, cap);
    }
    return c.out, values;
  }

  /** Other frequencies are not expanded. */
  lemma NothingRecurs(rule: Rule, first: int, horizon: int, cap: nat)
    requires rule.freq !in {"DAILY", "WEEKLY", "MONTHLY"} && rule.interval >= 1
    ensures Members(rule, first, horizon) == iset{} && AllFit([]) && RuleFits(rule, first, horizon, cap, [])
  {
  }
}
