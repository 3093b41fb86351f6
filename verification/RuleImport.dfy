/** From the text of a recurrence rule inside an event to the occurrences of the event. */
module RuleImport {
  import opened Text
  import opened DateTime
  import opened Duration
  import opened IcsText
  import opened Ics
  import opened IcsRoundTrip
  import opened Rrule
  import opened RruleText
  import opened Occurrences
  import opened EventText

  // ---------------------------------------------------------------------------
  // A rule with a COUNT is read.
  // ---------------------------------------------------------------------------

  /** A rule as text, with its COUNT if it has one. */
  function WriteCounted(rule: Rule, count: Option<nat>): string
    requires IsWritable(rule)
  {
    match count
    case None => WriteRule(rule)
    case Some(n) => WriteRule(rule) + ";" + Part("COUNT", Decimal(n))
  }

  lemma {:induction false} JoinAppend(parts: seq<string>, part: string)
    requires |parts| > 0
    ensures RruleText.Join(parts + [part], ';') == RruleText.Join(parts, ';') + ";" + part
  {
    if |parts| > 1 {
      JoinAppend(parts[1..], part);
      assert (parts + [part])[1..] == parts[1..] + [part];
      var head, tail := parts[0] + [';'], RruleText.Join(parts[1..], ';');
      assert head + (tail + ";" + part) == (head + tail) + ";" + part;
    } else {
      assert (parts + [part])[1..] == [part];
      assert parts[0] + [';'] + part == parts[0] + ";" + part;
    }
  }

  lemma CountPart(n: nat)
    requires n <= I64_MAX
    ensures CountOfPart(Part("COUNT", Decimal(n))) == Some(n) && ';' !in Part("COUNT", Decimal(n))
    ensures forall rule :: ApplyPart(rule, Part("COUNT", Decimal(n))) == rule
  {
    PartSplits("COUNT", Decimal(n));
    ParseDecimal(n);
    assert ';' !in "COUNT" + "=" && ';' !in Decimal(n) by {
      DigitsAreWords(Decimal(n));
    }
    hide Decimal, ParseI64, SplitOnce, Trim, Upper;
    OtherKeys();
  }

  lemma OtherKeys()
    ensures "COUNT" !in ["FREQ", "INTERVAL", "UNTIL", "BYDAY"] && EqIgnoreCase("COUNT", "COUNT")
  {
    assert "COUNT"[0] == 'C';
  }

  lemma PartHasNoCount(key: string, value: string)
    requires key in ["FREQ", "INTERVAL", "UNTIL", "BYDAY"]
    ensures CountOfPart(Part(key, value)).None?
  {
    assert IsCapitals(key);
    PartSplits(key, value);
    assert Upper(key)[0] == key[0] && Upper("COUNT")[0] == 'C';
    hide SplitOnce, Upper;
  }

  lemma PartsHaveNoCount(rule: Rule)
    requires IsWritable(rule)
    ensures forall part <- PartsOf(rule) :: CountOfPart(part).None?
  {
    hide CountOfPart, Part, FmtDt, Decimal, FourDigitYear, RruleText.Join;
    PartHasNoCount("FREQ", rule.freq);
    PartHasNoCount("INTERVAL", Decimal(rule.interval));
    if rule.until.Some? {
      PartHasNoCount("UNTIL", FmtDt(rule.until.value, false));
    }
    if rule.byday != [] {
      PartHasNoCount("BYDAY", RruleText.Join(DayNames(rule.byday), ','));
    }
  }

  lemma {:induction false} CountAfter(parts: seq<string>, more: seq<string>)
    requires forall part <- parts :: CountOfPart(part).None?
    ensures CountTotal(parts + more) == CountTotal(more)
  {
    hide CountOfPart;
    if |parts| == 0 {
      assert parts + more == more;
    } else {
      assert CountOfPart(parts[0]).None?;
      assert forall part <- parts[1..] :: part in parts;
      CountAfter(parts[1..], more);
      assert (parts + more)[1..] == parts[1..] + more;
    }
  }

  /** A rule written with a COUNT is read exactly, and so is its COUNT. */
  lemma CountedIsRead(rule: Rule, count: Option<nat>)
    requires IsWritable(rule) && (count.Some? ==> count.value <= I64_MAX)
    ensures ParseRule(WriteCounted(rule, count)) == rule
    ensures CountTotal(Split(WriteCounted(rule, count), ';')) == count
  {
    var parts := PartsOf(rule);
    PartsAreWords(rule);
    PartsHaveNoCount(rule);
    RuleIsRead(rule);
    SplitOfJoin(parts, ';');
    hide ApplyParts, ApplyPart, PartsOf, Split, RruleText.Join, IsWritable, CountOfPart, Part, Decimal;
    match count {
      case None =>
        CountAfter(parts, []);
        assert parts + [] == parts;
      case Some(n) =>
        var part := Part("COUNT", Decimal(n));
        CountPart(n);
        JoinAppend(parts, part);
        SplitOfJoin(parts + [part], ';');
        ApplyOne(parts, part);
        CountAfter(parts, [part]);
        assert [part][0] == part;
    }
  }

  /** A rule with COUNT=n has n occurrences, the start included, or as many as there are; without a COUNT it has
      them all. */
  lemma CountIncludesFirst(rule: Rule, count: Option<nat>, all: seq<int>, start: int, to: int)
    requires IsWritable(rule) && (count.Some? ==> count.value <= I64_MAX)
    ensures Tail(all, start, WriteCounted(rule, count), to) <==>
              match count
              case None => FirstMembers(all, Members(rule, start, to), |all| + 1)
              case Some(n) => FirstMembers(all, Members(rule, start, to), if n == 0 then 0 else n - 1)
  {
    hide Split, WriteCounted, IsWritable, FirstMembers, Members, ParseRule, CountTotal;
    CountedIsRead(rule, count);
  }

  // ---------------------------------------------------------------------------
  // The rule inside an event.
  // ---------------------------------------------------------------------------

  predicate IsRuleText(text: string) {
    forall c <- text :: c != '\\' && c != '\n'
  }

  lemma {:induction false} JoinIsRuleText(parts: seq<string>, sep: char)
    requires sep in ";," && forall part <- parts :: IsRuleText(part)
    ensures IsRuleText(RruleText.Join(parts, sep))
  {
    if |parts| > 1 {
      assert IsRuleText(parts[0]) && forall part <- parts[1..] :: part in parts;
      JoinIsRuleText(parts[1..], sep);
    } else if |parts| == 1 {
      assert IsRuleText(parts[0]);
    }
  }

  lemma WordIsRuleText(word: string)
    requires IsWord(word)
    ensures IsRuleText(word)
  {
    assert forall c <- word :: c <= 'Z' && c >= '-';
  }

  lemma PartIsRuleText(key: string, value: string)
    requires key in ["FREQ", "INTERVAL", "UNTIL", "BYDAY", "COUNT"] && IsRuleText(value)
    ensures IsRuleText(Part(key, value))
  {
    assert IsRuleText(key + "=");
  }

  lemma {:induction false} DayNamesAreRuleText(byday: seq<int>)
    requires AreDays(byday)
    ensures forall name <- DayNames(byday) :: IsRuleText(name)
    decreases |byday|
  {
    if |byday| > 0 {
      DayNamesAreRuleText(byday[1..]);
      assert IsRuleText(WEEKDAYS[byday[0]]);
    }
  }

  lemma HeadIsRuleText(rule: Rule)
    requires IsWritable(rule)
    ensures IsRuleText(Part("FREQ", rule.freq)) && IsRuleText(Part("INTERVAL", Decimal(rule.interval)))
  {
    assert IsWord(rule.freq) && IsWord(Decimal(rule.interval));
    hide IsRuleText, Part, Decimal, IsWord;
    WordIsRuleText(rule.freq);
    WordIsRuleText(Decimal(rule.interval));
    PartIsRuleText("FREQ", rule.freq);
    PartIsRuleText("INTERVAL", Decimal(rule.interval));
  }

  lemma EndIsRuleText(rule: Rule)
    ensures forall part <- EndParts(rule) :: IsRuleText(part)
  {
    hide IsRuleText, Part, FmtDt, IsWord;
    if rule.until.Some? {
      FmtDtIsWord(rule.until.value, false);
      WordIsRuleText(FmtDt(rule.until.value, false));
      PartIsRuleText("UNTIL", FmtDt(rule.until.value, false));
    }
  }

  lemma DaysAreRuleText(rule: Rule)
    requires AreDays(rule.byday)
    ensures forall part <- DayParts(rule) :: IsRuleText(part)
  {
    hide IsRuleText, Part, RruleText.Join, IsWord, DayNames;
    if rule.byday != [] {
      DayNamesAreRuleText(rule.byday);
      JoinIsRuleText(DayNames(rule.byday), ',');
      PartIsRuleText("BYDAY", RruleText.Join(DayNames(rule.byday), ','));
    }
  }

  lemma RuleIsRuleText(rule: Rule)
    requires IsWritable(rule)
    ensures IsRuleText(WriteRule(rule))
  {
    HeadIsRuleText(rule);
    EndIsRuleText(rule);
    DaysAreRuleText(rule);
    hide IsRuleText, Part, EndParts, DayParts, Decimal, RruleText.Join;
    JoinIsRuleText(PartsOf(rule), ';');
  }

  lemma CountedIsRuleText(rule: Rule, count: Option<nat>)
    requires IsWritable(rule)
    ensures IsRuleText(WriteCounted(rule, count))
  {
    RuleIsRuleText(rule);
    if count.Some? {
      assert IsWord(Decimal(count.value));
      WordIsRuleText(Decimal(count.value));
      PartIsRuleText("COUNT", Decimal(count.value));
    }
    hide WriteRule, Part, Decimal;
  }

  /** The property that stands at `k` is the first of its name. */
  predicate IsFirst(lines: seq<Line>, k: nat, name: string) {
    && k < |lines| && Upper(lines[k].name) == name
    && forall j | 0 <= j < k :: Upper(lines[j].name) != name
  }

  lemma {:induction false} FirstIsTheValue(lines: seq<Line>, k: nat, name: string)
    requires IsFirst(lines, k, name)
    ensures ValueOf(lines, name) == Some(Unescape(lines[k].value))
  {
    hide Upper, Unescape;
    if k > 0 {
      assert IsFirst(lines[1..], k - 1, name);
      FirstIsTheValue(lines[1..], k - 1, name);
    }
  }

  /** An event in whose text a rule is written, wherever among its properties, has exactly the occurrences of that
      rule. */
  lemma RuleIsImported(c: Component, k: nat, rule: Rule, count: Option<nat>, e: ParsedEvent)
    requires IsWritable(rule) && (count.Some? ==> count.value <= I64_MAX)
    requires IsFirst(c.lines, k, "RRULE") && c.lines[k].value == WriteCounted(rule, count)
    requires Means(e, c)
    ensures e.rrule.Some? && ParseRule(e.rrule.value) == rule
    ensures forall all, to ::
              Tail(all, e.startMs, e.rrule.value, to) <==>
              match count
              case None => FirstMembers(all, Members(rule, e.startMs, to), |all| + 1)
              case Some(n) => FirstMembers(all, Members(rule, e.startMs, to), if n == 0 then 0 else n - 1)
  {
    hide WriteCounted, IsWritable, FirstMembers, Members, ParseRule, Unescape, Tail, IsFirst, ValueOf, TimeOf,
      IsLeast, EventText.Or;
    FirstIsTheValue(c.lines, k, "RRULE");
    CountedIsRuleText(rule, count);
    UnescapePlain(WriteCounted(rule, count));
    CountedIsRead(rule, count);
    forall all, to
      ensures Tail(all, e.startMs, e.rrule.value, to) <==>
              match count
              case None => FirstMembers(all, Members(rule, e.startMs, to), |all| + 1)
              case Some(n) => FirstMembers(all, Members(rule, e.startMs, to), if n == 0 then 0 else n - 1)
    {
      CountIncludesFirst(rule, count, all, e.startMs, to);
    }
  }
}
