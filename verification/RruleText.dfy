/** Recurrence rules as text: every rule that is written out is read back. */
module RruleText {
  import opened Civil
  import opened DateTime
  import opened Duration
  import opened Rrule
  import opened Text

  function Join(parts: seq<string>, sep: char): string {
    if |parts| == 0 then ""
    else if |parts| == 1 then parts[0]
    else parts[0] + [sep] + Join(parts[1..], sep)
  }

  lemma {:induction false} SplitOfJoin(parts: seq<string>, sep: char)
    requires |parts| > 0 && forall part | part in parts :: sep !in part
    ensures Split(Join(parts, sep), sep) == parts
    decreases |parts|
  {
    hide Split;
    if |parts| == 1 {
      NoSeparator(parts[0], sep);
      assert parts == [parts[0]];
    } else {
      SplitOfJoin(parts[1..], sep);
      SplitFirst(parts[0], sep, Join(parts[1..], sep));
      assert parts == [parts[0]] + parts[1..];
    }
  }

  lemma NoSeparator(text: string, sep: char)
    requires sep !in text
    ensures Split(text, sep) == [text]
  {
  }

  lemma SplitFirst(first: string, sep: char, rest: string)
    requires sep !in first
    ensures Split(first + [sep] + rest, sep) == [first] + Split(rest, sep)
  {
    IndexOfAfter(first, sep, rest);
    var s := first + [sep] + rest;
    assert s[..|first|] == first && s[|first| + 1..] == rest;
  }

  predicate AreDays(byday: seq<int>) {
    forall i | 0 <= i < |byday| :: 0 <= byday[i] < 7
  }

  function DayNames(byday: seq<int>): (names: seq<string>)
    requires AreDays(byday)
    ensures |names| == |byday|
  {
    if |byday| == 0 then [] else [WEEKDAYS[byday[0]]] + DayNames(byday[1..])
  }

  predicate IsCapitals(s: string) {
    |s| > 0 && forall i | 0 <= i < |s| :: 'A' <= s[i] <= 'Z'
  }

  /** A rule that has a text: any frequency word, an interval that fits, an end in whole seconds of a
      four-digit year, real weekdays. */
  predicate IsWritable(rule: Rule) {
    && IsCapitals(rule.freq)
    && 1 <= rule.interval <= I64_MAX
    && (rule.until.Some? ==> FourDigitYear(rule.until.value) && rule.until.value % 1_000 == 0)
    && AreDays(rule.byday)
  }

  function Part(key: string, value: string): string {
    key + "=" + value
  }

  function PartsOf(rule: Rule): seq<string>
    requires IsWritable(rule)
  {
    [Part("FREQ", rule.freq), Part("INTERVAL", Decimal(rule.interval))] + EndParts(rule) + DayParts(rule)
  }

  function EndParts(rule: Rule): seq<string> {
    if rule.until.None? then [] else [Part("UNTIL", FmtDt(rule.until.value, false))]
  }

  function DayParts(rule: Rule): seq<string>
    requires AreDays(rule.byday)
  {
    if rule.byday == [] then [] else [Part("BYDAY", Join(DayNames(rule.byday), ','))]
  }

  function WriteRule(rule: Rule): string
    requires IsWritable(rule)
  {
    Join(PartsOf(rule), ';')
  }

  // ---------------------------------------------------------------------------
  // Each part is read back.
  // ---------------------------------------------------------------------------

  lemma TrimKeeps(s: string)
    requires |s| > 0 ==> !IsWhite(s[0]) && !IsWhite(s[|s| - 1])
    ensures Trim(s) == s
  {
  }

  lemma CapitalsStay(s: string)
    requires IsCapitals(s)
    ensures Upper(Trim(s)) == s
  {
    TrimKeeps(s);
  }

  lemma PartSplits(key: string, value: string)
    requires IsCapitals(key)
    ensures SplitOnce(Part(key, value), '=') == Some((key, value))
    ensures Upper(Trim(key)) == key
  {
    var s := key + ['='] + value;
    IndexOfAfter(key, '=', value);
    assert s[..|key|] == key && s[|key| + 1..] == value;
    CapitalsStay(key);
  }

  /** Which field a part sets. */
  lemma PartSets(rule: Rule, key: string, value: string)
    requires IsCapitals(key)
    ensures key == "FREQ" ==> ApplyPart(rule, Part(key, value)) == rule.(freq := Upper(Trim(value)))
    ensures key == "INTERVAL" ==> ApplyPart(rule, Part(key, value)) == rule.(interval := ParseInterval(value))
    ensures key == "UNTIL" ==>
              ApplyPart(rule, Part(key, value)) ==
              rule.(until := match ParseDt(Trim(value)) case Ok(dt) => Some(dt.0) case Err(_) => None)
    ensures key == "BYDAY" ==> ApplyPart(rule, Part(key, value)) == rule.(byday := ParseByday(value))
  {
    PartSplits(key, value);
    hide SplitOnce, Upper, Trim, ParseByday, ParseInterval, ParseDt, Part;
    assert "INTERVAL"[0] != "FREQ"[0] && "UNTIL"[0] != "FREQ"[0] && "BYDAY"[0] != "FREQ"[0];
    assert "UNTIL"[0] != "INTERVAL"[0] && "BYDAY"[0] != "INTERVAL"[0] && "BYDAY"[0] != "UNTIL"[0];
  }

  lemma ReadFreq(rule: Rule, freq: string)
    requires IsCapitals(freq)
    ensures ApplyPart(rule, Part("FREQ", freq)) == rule.(freq := freq)
  {
    hide ApplyPart, Part, Upper, Trim;
    PartSets(rule, "FREQ", freq);
    CapitalsStay(freq);
  }

  lemma ReadInterval(rule: Rule, n: int)
    requires 1 <= n <= I64_MAX
    ensures ApplyPart(rule, Part("INTERVAL", Decimal(n))) == rule.(interval := n)
  {
    hide ApplyPart, Part, Decimal, ParseI64, Trim;
    PartSets(rule, "INTERVAL", Decimal(n));
    TrimKeeps(Decimal(n));
    ParseDecimal(n);
  }

  lemma ReadUntil(rule: Rule, ms: int)
    requires FourDigitYear(ms) && ms % 1_000 == 0
    ensures ApplyPart(rule, Part("UNTIL", FmtDt(ms, false))) == rule.(until := Some(ms))
  {
    hide ApplyPart, Part, FmtDt, ParseDt, Trim, FourDigitYear;
    PartSets(rule, "UNTIL", FmtDt(ms, false));
    StampEnds(ms);
    TrimKeeps(FmtDt(ms, false));
    DateTimeRoundTrip(ms, false);
    assert Floor(ms, false) == ms;
  }

  lemma ReadDays(rule: Rule, byday: seq<int>)
    requires AreDays(byday) && byday != []
    ensures ApplyPart(rule, Part("BYDAY", Join(DayNames(byday), ','))) == rule.(byday := byday)
  {
    hide ApplyPart, Part, Split, Join, Weekdays;
    var names := DayNames(byday);
    PartSets(rule, "BYDAY", Join(names, ','));
    NamesAreWords(byday, ',');
    SplitOfJoin(names, ',');
    NamesAreRead(byday);
  }

  lemma {:induction false} NamesAreWords(byday: seq<int>, sep: char)
    requires AreDays(byday) && !('A' <= sep <= 'Z')
    ensures forall name | name in DayNames(byday) :: sep !in name
    decreases |byday|
  {
    if |byday| > 0 {
      NamesAreWords(byday[1..], sep);
      assert sep !in WEEKDAYS[byday[0]];
    }
  }

  lemma NameIsRead(day: int)
    requires 0 <= day < 7
    ensures WeekdayOfToken(Trim(WEEKDAYS[day]), 0) == Some(day)
  {
    TrimKeeps(WEEKDAYS[day]);
    OnlyItself(day, 0);
  }

  lemma {:induction false} OnlyItself(day: int, from: nat)
    requires from <= day < 7
    ensures WeekdayOfToken(WEEKDAYS[day], from) == Some(day)
    decreases day - from
  {
    var token := WEEKDAYS[day];
    assert token[0..] == token;
    if from < day {
      assert WEEKDAYS[from] != token;
      OnlyItself(day, from + 1);
    }
  }

  lemma {:induction false} NamesAreRead(byday: seq<int>)
    requires AreDays(byday)
    ensures Weekdays(DayNames(byday)) == byday
    decreases |byday|
  {
    hide WeekdayOfToken, Trim, Weekdays;
    if |byday| == 0 {
      NoWeekdays();
    } else {
      NameIsRead(byday[0]);
      NamesAreRead(byday[1..]);
      OneWeekday(WEEKDAYS[byday[0]], DayNames(byday[1..]), byday[0]);
      assert byday == [byday[0]] + byday[1..];
    }
  }

  lemma NoWeekdays()
    ensures Weekdays([]) == []
  {
  }

  lemma OneWeekday(name: string, names: seq<string>, day: int)
    requires WeekdayOfToken(Trim(name), 0) == Some(day)
    ensures Weekdays([name] + names) == [day] + Weekdays(names)
  {
    hide WeekdayOfToken, Trim;
    assert ([name] + names)[1..] == names;
  }

  lemma DigitsAreWords(s: string)
    requires AllDigits(s)
    ensures ';' !in s && (|s| > 0 ==> !IsWhite(s[0]))
  {
  }

  lemma StampEnds(ms: int)
    requires FourDigitYear(ms)
    ensures var s := FmtDt(ms, false);
            && |s| > 0 && !IsWhite(s[0]) && !IsWhite(s[|s| - 1])
            && ';' !in s
  {
    var y, mo, d := YmdFits(ms);
    var h, mi, se := HmsFits(ms);
    hide CivilFromDays, FourDigitYear, IsWhite, AllDigits, NatOf, Padded;
    assert FmtDt(ms, false) == y + mo + d + "T" + h + mi + se + "Z";
    hide FmtDt;
    DigitsAreWords(y);
    DigitsAreWords(mo);
    DigitsAreWords(d);
    DigitsAreWords(h);
    DigitsAreWords(mi);
    DigitsAreWords(se);
    ZuluIsVisible();
    assert FmtDt(ms, false)[0] == y[0];
  }

  lemma ZuluIsVisible()
    ensures !IsWhite('Z')
  {
  }

  // ---------------------------------------------------------------------------
  // The whole rule is read back.
  // ---------------------------------------------------------------------------

  lemma ApplyOne(parts: seq<string>, part: string)
    ensures ApplyParts(parts + [part]) == ApplyPart(ApplyParts(parts), part)
  {
    assert (parts + [part])[..|parts|] == parts;
  }

  lemma PartsAreWords(rule: Rule)
    requires IsWritable(rule)
    ensures forall part | part in PartsOf(rule) :: ';' !in part
  {
    hide FmtDt, FourDigitYear, Decimal;
    assert ';' !in Decimal(rule.interval);
    if rule.until.Some? {
      StampEnds(rule.until.value);
    }
    NamesAreWords(rule.byday, ';');
    JoinIsWord(DayNames(rule.byday));
  }

  lemma {:induction false} JoinIsWord(names: seq<string>)
    requires forall name | name in names :: ';' !in name
    ensures ';' !in Join(names, ',')
  {
    if |names| > 1 {
      JoinIsWord(names[1..]);
    }
  }

  lemma ReadHead(rule: Rule)
    requires IsWritable(rule)
    ensures ApplyParts([Part("FREQ", rule.freq), Part("INTERVAL", Decimal(rule.interval))]) ==
            Rule(rule.freq, rule.interval, None, [])
  {
    hide ApplyPart, ApplyParts, Part, Decimal, FourDigitYear;
    var freq, interval := Part("FREQ", rule.freq), Part("INTERVAL", Decimal(rule.interval));
    NoParts();
    ApplyOne([], freq);
    ReadFreq(Rule("", 1, None, []), rule.freq);
    ApplyOne([freq], interval);
    ReadInterval(Rule(rule.freq, 1, None, []), rule.interval);
    assert [] + [freq] == [freq] && [freq] + [interval] == [freq, interval];
  }

  lemma ReadEnd(rule: Rule, parts: seq<string>)
    requires IsWritable(rule) && ApplyParts(parts) == Rule(rule.freq, rule.interval, None, [])
    ensures ApplyParts(parts + EndParts(rule)) == Rule(rule.freq, rule.interval, rule.until, [])
  {
    hide ApplyPart, ApplyParts, Part, FmtDt, FourDigitYear;
    if rule.until.None? {
      assert parts + [] == parts;
    } else {
      ApplyOne(parts, EndParts(rule)[0]);
      ReadUntil(Rule(rule.freq, rule.interval, None, []), rule.until.value);
    }
  }

  lemma ReadWeek(rule: Rule, parts: seq<string>)
    requires IsWritable(rule) && ApplyParts(parts) == Rule(rule.freq, rule.interval, rule.until, [])
    ensures ApplyParts(parts + DayParts(rule)) == rule
  {
    hide ApplyPart, ApplyParts, Part, Join, FourDigitYear;
    if rule.byday == [] {
      assert parts + [] == parts;
    } else {
      ApplyOne(parts, DayParts(rule)[0]);
      ReadDays(Rule(rule.freq, rule.interval, rule.until, []), rule.byday);
    }
  }

  /** Reading a rule's text gives the rule: its frequency, interval, end and weekdays, in order. */
  lemma RuleIsRead(rule: Rule)
    requires IsWritable(rule)
    ensures ParseRule(WriteRule(rule)) == rule
  {
    PartsAreWords(rule);
    SplitOfJoin(PartsOf(rule), ';');
    hide ApplyParts, Part, EndParts, DayParts, Decimal, Split, Join, IsWritable;
    var head := [Part("FREQ", rule.freq), Part("INTERVAL", Decimal(rule.interval))];
    ReadHead(rule);
    ReadEnd(rule, head);
    ReadWeek(rule, head + EndParts(rule));
  }

  lemma NoParts()
    ensures ApplyParts([]) == Rule("", 1, None, [])
  {
  }

  // ---------------------------------------------------------------------------
  // Parts written by others: blanks, any case, ordinals, values that make no sense.
  // ---------------------------------------------------------------------------

  predicate IsPadding(text: string) {
    forall i | 0 <= i < |text| :: text[i] == ' ' || text[i] == '\t'
  }

  /** A key and a value with blanks around both. */
  function LoosePart(a: string, key: string, b: string, c: string, value: string, d: string): string {
    a + key + b + "=" + (c + value + d)
  }

  lemma {:induction false} TrimPadding(before: string, text: string, after: string)
    requires IsPadding(before) && IsPadding(after)
    requires |text| > 0 && !IsWhite(text[0]) && !IsWhite(text[|text| - 1])
    ensures Trim(before + text + after) == text
  {
    TrimStartPadding(before, text + after);
    TrimEndPadding(text, after);
    assert before + text + after == before + (text + after);
    hide IsWhite, TrimEnd;
    assert (text + after)[0] == text[0];
  }

  lemma {:induction false} TrimStartPadding(before: string, text: string)
    requires IsPadding(before)
    ensures TrimStart(before + text) == TrimStart(text)
  {
    if |before| == 0 {
      assert before + text == text;
    } else {
      TrimStartPadding(before[1..], text);
      assert (before + text)[1..] == before[1..] + text;
    }
  }

  lemma {:induction false} TrimEndPadding(text: string, after: string)
    requires IsPadding(after) && |text| > 0 && !IsWhite(text[|text| - 1])
    ensures TrimEnd(text + after) == text
  {
    var s := text + after;
    if |after| == 0 {
      assert s == text;
    } else {
      assert s[|s| - 1] == after[|after| - 1];
      assert s[..|s| - 1] == text + after[..|after| - 1];
      TrimEndPadding(text, after[..|after| - 1]);
    }
  }

  predicate IsKey(key: string) {
    |key| > 0 && forall i | 0 <= i < |key| :: 'A' <= key[i] <= 'Z' || 'a' <= key[i] <= 'z'
  }

  /** Blanks around a key and its case do not matter. */
  lemma LooseKey(rule: Rule, a: string, key: string, b: string, value: string)
    requires IsPadding(a) && IsPadding(b) && IsKey(key)
    ensures ApplyPart(rule, a + key + b + "=" + value) == ApplyPart(rule, Part(Upper(key), value))
  {
    var left := a + key + b;
    assert left + "=" + value == left + ['='] + value;
    IndexOfAfter(left, '=', value);
    assert (left + ['='] + value)[..|left|] == left && (left + ['='] + value)[|left| + 1..] == value;
    TrimPadding(a, key, b);
    assert IsCapitals(Upper(key));
    PartSplits(Upper(key), value);
    hide Trim, Upper, ParseDt, ParseByday, ParseInterval, IndexOf;
  }

  /** What each part of a rule sets, however it is written: blanks around key and value, and any case of the key and
      of a frequency, make no difference. A part with another key sets nothing. */
  lemma LoosePartIsRead(rule: Rule, a: string, key: string, b: string, c: string, value: string, d: string)
    requires IsPadding(a) && IsPadding(b) && IsPadding(c) && IsPadding(d) && IsKey(key)
    requires |value| > 0 && !IsWhite(value[0]) && !IsWhite(value[|value| - 1])
    ensures var (name, next) := (Upper(key), ApplyPart(rule, LoosePart(a, key, b, c, value, d)));
            && (name == "FREQ" ==> next == rule.(freq := Upper(value)))
            && (name == "INTERVAL" ==> next == rule.(interval :=
                  match ParseI64(value) case Some(n) => if n >= 1 then n else 1 case None => 1))
            && (name == "UNTIL" ==> next == rule.(until :=
                  match ParseDt(value) case Ok(time) => Some(time.0) case Err(_) => None))
            && (name !in ["FREQ", "INTERVAL", "UNTIL", "BYDAY"] ==> next == rule)
  {
    LooseKey(rule, a, key, b, c + value + d);
    TrimPadding(c, value, d);
    assert IsCapitals(Upper(key));
    PartSplits(Upper(key), c + value + d);
    hide Trim, Upper, ParseDt, ParseByday, ParseI64, SplitOnce, Part;
  }

  /** Weekdays with numbers before them, in blanks. */
  function OrdinalNames(ordinals: seq<string>, byday: seq<int>): (names: seq<string>)
    requires |ordinals| == |byday| && AreDays(byday)
    ensures |names| == |byday|
  {
    if |byday| == 0 then []
    else [" " + (ordinals[0] + WEEKDAYS[byday[0]]) + " "] + OrdinalNames(ordinals[1..], byday[1..])
  }

  predicate AreOrdinals(ordinals: seq<string>) {
    forall i | 0 <= i < |ordinals| :: forall c <- ordinals[i] :: IsDigit(c) || c in "+-"
  }

  lemma OrdinalName(ordinal: string, day: int)
    requires 0 <= day < 7 && forall c <- ordinal :: IsDigit(c) || c in "+-"
    ensures WeekdayOfToken(Trim(" " + (ordinal + WEEKDAYS[day]) + " "), 0) == Some(day)
    ensures ',' !in " " + (ordinal + WEEKDAYS[day]) + " "
  {
    var token := ordinal + WEEKDAYS[day];
    assert token[0] == (if |ordinal| > 0 then ordinal[0] else WEEKDAYS[day][0]);
    assert |ordinal| > 0 ==> ordinal[0] in ordinal;
    assert token[|token| - 1] == WEEKDAYS[day][1];
    TrimPadding(" ", token, " ");
    EndsInItself(ordinal, day, 0);
    assert ',' !in token;
  }

  lemma {:induction false} EndsInItself(ordinal: string, day: int, from: nat)
    requires from <= day < 7
    ensures WeekdayOfToken(ordinal + WEEKDAYS[day], from) == Some(day)
    decreases day - from
  {
    var token := ordinal + WEEKDAYS[day];
    assert token[|token| - 2..] == WEEKDAYS[day];
    if from < day {
      assert WEEKDAYS[from] != WEEKDAYS[day] && |WEEKDAYS[from]| == 2;
      EndsInItself(ordinal, day, from + 1);
    }
  }

  lemma {:induction false} OrdinalNamesAreRead(ordinals: seq<string>, byday: seq<int>)
    requires |ordinals| == |byday| && AreDays(byday) && AreOrdinals(ordinals)
    ensures Weekdays(OrdinalNames(ordinals, byday)) == byday
    ensures forall name <- OrdinalNames(ordinals, byday) :: ',' !in name
    decreases |byday|
  {
    if |byday| == 0 {
      NoWeekdays();
    } else {
      OrdinalName(ordinals[0], byday[0]);
      hide WeekdayOfToken, Trim, Weekdays;
      OrdinalNamesAreRead(ordinals[1..], byday[1..]);
      OneWeekday(" " + (ordinals[0] + WEEKDAYS[byday[0]]) + " ", OrdinalNames(ordinals[1..], byday[1..]), byday[0]);
      assert byday == [byday[0]] + byday[1..];
    }
  }

  /** Numbers before the weekdays are passed over, and so are blanks around them. */
  lemma OrdinalsAreIgnored(rule: Rule, ordinals: seq<string>, byday: seq<int>)
    requires |ordinals| == |byday| && AreDays(byday) && AreOrdinals(ordinals) && byday != []
    ensures ApplyPart(rule, Part("BYDAY", Join(OrdinalNames(ordinals, byday), ','))) == rule.(byday := byday)
  {
    hide ApplyPart, Part, Split, Join, Weekdays;
    var names := OrdinalNames(ordinals, byday);
    PartSets(rule, "BYDAY", Join(names, ','));
    OrdinalNamesAreRead(ordinals, byday);
    SplitOfJoin(names, ',');
  }
}
