/** The import seen from the text: what each written property of a component becomes, whatever else stands beside
    it. */
module EventText {
  import opened Text
  import opened DateTime
  import opened Duration
  import opened IcsText
  import opened Octets
  import opened Folding
  import opened Ics
  import opened IcsRoundTrip

  // ---------------------------------------------------------------------------
  // Written lines.
  // ---------------------------------------------------------------------------

  /** A parameter: text without quotes, and then perhaps a quoted text. */
  datatype Param = Param(plain: string, quoted: Option<string>)

  /** A property as someone may write it: a name in any case, blanks after it, parameters, and the value. */
  datatype Line = Line(name: string, gap: string, params: seq<Param>, value: string)

  function ParamText(p: Param): string {
    ";" + (p.plain + match p.quoted case None => "" case Some(text) => "\"" + (text + "\""))
  }

  function ParamsText(params: seq<Param>): string {
    if |params| == 0 then "" else ParamText(params[0]) + ParamsText(params[1..])
  }

  function LineText(line: Line): string {
    line.name + (line.gap + (ParamsText(line.params) + (":" + line.value)))
  }

  predicate IsLetters(name: string) {
    |name| > 0 && forall c <- name :: 'A' <= c <= 'Z' || 'a' <= c <= 'z'
  }

  predicate IsGap(gap: string) {
    forall i | 0 <= i < |gap| :: gap[i] == ' ' || gap[i] == '\t'
  }

  predicate IsParam(p: Param) {
    && (forall c <- p.plain :: c !in "\":\n")
    && (p.quoted.Some? ==> forall c <- p.quoted.value :: c !in "\"\n")
  }

  predicate IsWritten(line: Line) {
    && IsLetters(line.name) && Upper(line.name) !in ["BEGIN", "END"]
    && IsGap(line.gap)
    && (forall p <- line.params :: IsParam(p))
    && '\n' !in line.value
  }

  // ---------------------------------------------------------------------------
  // The property of a written line.
  // ---------------------------------------------------------------------------

  lemma {:induction false} ColonShift(before: string, rest: string, i: nat, inQuotes: bool)
    requires i <= |rest|
    ensures ColonFrom(before + rest, |before| + i, inQuotes) == |before| + ColonFrom(rest, i, inQuotes)
    decreases |rest| - i
  {
    if i < |rest| {
      assert (before + rest)[|before| + i] == rest[i];
      ColonShift(before, rest, i + 1, inQuotes);
      ColonShift(before, rest, i + 1, !inQuotes);
    }
  }

  /** Text without a quote, and outside quotes without a colon, is passed over. */
  lemma {:induction false} ColonWord(word: string, rest: string, inQuotes: bool)
    requires forall c <- word :: c != '"' && (inQuotes || c != ':')
    ensures ColonFrom(word + rest, 0, inQuotes) == |word| + ColonFrom(rest, 0, inQuotes)
  {
    var s := word + rest;
    if |word| == 0 {
      assert s == rest;
    } else {
      assert word[0] in word && s[0] == word[0];
      assert forall c <- word[1..] :: c in word;
      assert s == [word[0]] + (word[1..] + rest);
      ColonShift([word[0]], word[1..] + rest, 0, inQuotes);
      ColonWord(word[1..], rest, inQuotes);
    }
  }

  lemma ColonQuote(rest: string, inQuotes: bool)
    ensures ColonFrom("\"" + rest, 0, inQuotes) == 1 + ColonFrom(rest, 0, !inQuotes)
  {
    ColonShift("\"", rest, 0, !inQuotes);
  }

  lemma ColonParam(p: Param, rest: string)
    requires IsParam(p)
    ensures ColonFrom(ParamText(p) + rest, 0, false) == |ParamText(p)| + ColonFrom(rest, 0, false)
  {
    hide ColonFrom;
    match p.quoted {
      case None =>
        ColonWord(";" + p.plain, rest, false);
        assert p.plain + "" == p.plain;
      case Some(text) =>
        var quoted := "\"" + (text + "\"");
        assert ParamText(p) + rest == (";" + p.plain) + ("\"" + (text + ("\"" + rest)));
        ColonWord(";" + p.plain, "\"" + (text + ("\"" + rest)), false);
        ColonQuote(text + ("\"" + rest), false);
        ColonWord(text, "\"" + rest, true);
        ColonQuote(rest, true);
    }
  }

  lemma {:induction false} ColonParams(params: seq<Param>, rest: string)
    requires forall p <- params :: IsParam(p)
    ensures ColonFrom(ParamsText(params) + rest, 0, false) == |ParamsText(params)| + ColonFrom(rest, 0, false)
  {
    hide ColonFrom, ParamText, IsParam;
    if |params| == 0 {
      assert "" + rest == rest;
    } else {
      ColonParam(params[0], ParamsText(params[1..]) + rest);
      ColonParams(params[1..], rest);
      assert ParamsText(params) + rest == ParamText(params[0]) + (ParamsText(params[1..]) + rest);
    }
  }

  lemma {:induction false} TrimEndGap(name: string, gap: string)
    requires IsLetters(name) && IsGap(gap)
    ensures TrimEnd(name + gap) == name
  {
    var s := name + gap;
    if |gap| == 0 {
      assert s == name && name[|name| - 1] in name;
    } else {
      assert s[|s| - 1] == gap[|gap| - 1];
      assert s[..|s| - 1] == name + gap[..|gap| - 1];
      TrimEndGap(name, gap[..|gap| - 1]);
    }
  }

  /** What stands before the first semicolon is the name. */
  lemma NameIsRead(name: string, gap: string, params: seq<Param>)
    requires IsLetters(name) && IsGap(gap)
    ensures NameOf(name + (gap + ParamsText(params))) == Upper(name)
  {
    hide Upper;
    var (left, head) := (name + (gap + ParamsText(params)), name + gap);
    if |params| == 0 {
      assert left == head;
      assert ';' !in head;
    } else {
      var more := (ParamText(params[0]) + ParamsText(params[1..]))[1..];
      assert left == head + [';'] + more;
      IndexOfAfter(head, ';', more);
      assert left[..|head|] == head;
    }
    TrimEndGap(name, gap);
    assert name[0] in name && TrimStart(head) == head;
  }

  lemma LineParts(line: Line)
    ensures var (head, tail) := (line.name + (line.gap + ParamsText(line.params)), ":" + line.value);
            && LineText(line) == head + tail
            && LineText(line) == (line.name + line.gap) + (ParamsText(line.params) + tail)
  {
    hide ParamsText;
    var params, tail := ParamsText(line.params), ":" + line.value;
    Assoc(line.gap, params, tail);
    Assoc(line.name, line.gap + params, tail);
    Assoc(line.name, line.gap, params + tail);
  }

  lemma Halves(head: string, value: string)
    ensures (head + (":" + value))[..|head|] == head && (head + (":" + value))[|head| + 1..] == value
  {
  }

  lemma ColonStart(value: string)
    ensures ColonFrom(":" + value, 0, false) == 0
  {
  }

  /** A written line is the property of its name, whatever its case, and its value, whatever its parameters. */
  lemma LineIsRead(line: Line)
    requires IsWritten(line)
    ensures PropertyOf(LineText(line)) == Some((Upper(line.name), line.value))
  {
    var (head, tail) := (line.name + (line.gap + ParamsText(line.params)), ":" + line.value);
    NameHasNoQuote(line);
    hide NameOf, Upper, IsLetters, ColonFrom, ParamsText, LineText;
    LineParts(line);
    ColonWord(line.name + line.gap, ParamsText(line.params) + tail, false);
    ColonParams(line.params, tail);
    ColonStart(line.value);
    Halves(head, line.value);
    NameIsRead(line.name, line.gap, line.params);
  }

  lemma NameHasNoQuote(line: Line)
    requires IsWritten(line)
    ensures forall c <- line.name + line.gap :: c != '"' && c != ':' && c != '\n'
  {
  }

  lemma {:induction false} ParamsAreOneLine(params: seq<Param>)
    requires forall p <- params :: IsParam(p)
    ensures '\n' !in ParamsText(params)
  {
    if |params| > 0 {
      assert IsParam(params[0]);
      ParamsAreOneLine(params[1..]);
    }
  }

  predicate IsSeparate(text: string) {
    '\n' !in text && |text| > 0 && !IsBlank(text[0])
  }

  lemma LineIsSeparate(line: Line)
    requires IsWritten(line)
    ensures IsSeparate(LineText(line))
  {
    ParamsAreOneLine(line.params);
    NameHasNoQuote(line);
    assert line.name[0] in line.name && LineText(line)[0] == line.name[0];
  }

  // ---------------------------------------------------------------------------
  // Written components.
  // ---------------------------------------------------------------------------

  /** An event: its properties in any order, then its alarms. */
  datatype Component = Component(lines: seq<Line>, alarms: seq<seq<Line>>)

  predicate AreWritten(lines: seq<Line>) {
    forall line <- lines :: IsWritten(line)
  }

  predicate IsComponent(c: Component) {
    AreWritten(c.lines) && forall alarm <- c.alarms :: AreWritten(alarm)
  }

  function Texts(lines: seq<Line>): (texts: seq<string>)
    ensures |texts| == |lines|
    ensures forall i | 0 <= i < |lines| :: texts[i] == LineText(lines[i])
  {
    seq(|lines|, i requires 0 <= i < |lines| => LineText(lines[i]))
  }

  function AlarmTexts(alarms: seq<seq<Line>>): seq<string> {
    if |alarms| == 0 then [] else
      var n := |alarms| - 1;
      AlarmTexts(alarms[..n]) + (["BEGIN:VALARM"] + (Texts(alarms[n]) + ["END:VALARM"]))
  }

  function ComponentTexts(c: Component): seq<string> {
    ["BEGIN:VEVENT"] + (Texts(c.lines) + (AlarmTexts(c.alarms) + ["END:VEVENT"]))
  }

  function AllTexts(components: seq<Component>): seq<string> {
    if |components| == 0 then [] else
      var n := |components| - 1;
      AllTexts(components[..n]) + ComponentTexts(components[n])
  }

  function CalendarTexts(components: seq<Component>): seq<string> {
    ["BEGIN:VCALENDAR"] + (AllTexts(components) + ["END:VCALENDAR"])
  }

  /** Lines, each with its line end. */
  function Joined(texts: seq<string>): string {
    if |texts| == 0 then "" else texts[0] + CRLF + Joined(texts[1..])
  }

  function WriteCalendar(components: seq<Component>): string {
    Joined(CalendarTexts(components))
  }

  // ---------------------------------------------------------------------------
  // The lines come back.
  // ---------------------------------------------------------------------------

  lemma {:induction false} LinesOfJoined(texts: seq<string>)
    requires forall text <- texts :: IsSeparate(text)
    ensures Lines(Joined(texts), '\r', '\n') == texts
  {
    if |texts| > 0 {
      assert IsSeparate(texts[0]);
      assert forall text <- texts[1..] :: text in texts;
      LinesOfJoined(texts[1..]);
      hide Lines;
      LinesOfTerminated(texts[0], Joined(texts[1..]), '\r', '\n');
      assert texts == [texts[0]] + texts[1..];
    }
  }

  lemma {:induction false} UnfoldSeparate(texts: seq<string>)
    requires forall text <- texts :: IsSeparate(text)
    ensures UnfoldRaw(texts) == texts
  {
    if |texts| > 0 {
      var init, last := texts[..|texts| - 1], texts[|texts| - 1];
      assert forall text <- init :: text in texts;
      UnfoldSeparate(init);
      assert IsSeparate(last);
      assert texts == init + [last];
    }
  }

  lemma TextsAreSeparate(lines: seq<Line>)
    requires AreWritten(lines)
    ensures forall text <- Texts(lines) :: IsSeparate(text)
  {
    hide IsWritten, IsSeparate, LineText;
    forall text <- Texts(lines)
      ensures IsSeparate(text)
    {
      var i :| 0 <= i < |lines| && Texts(lines)[i] == text;
      assert lines[i] in lines;
      LineIsSeparate(lines[i]);
    }
  }

  lemma {:induction false} AlarmsAreSeparate(alarms: seq<seq<Line>>)
    requires forall alarm <- alarms :: AreWritten(alarm)
    ensures forall text <- AlarmTexts(alarms) :: IsSeparate(text)
  {
    hide AreWritten, Texts;
    if |alarms| > 0 {
      var init, last := alarms[..|alarms| - 1], alarms[|alarms| - 1];
      assert last in alarms && forall alarm <- init :: alarm in alarms;
      AlarmsAreSeparate(init);
      TextsAreSeparate(last);
      assert IsSeparate("BEGIN:VALARM") && IsSeparate("END:VALARM");
      hide IsSeparate;
    }
  }

  lemma {:induction false} AllAreSeparate(components: seq<Component>)
    requires forall c <- components :: IsComponent(c)
    ensures forall text <- AllTexts(components) :: IsSeparate(text)
  {
    if |components| > 0 {
      var init, last := components[..|components| - 1], components[|components| - 1];
      assert IsComponent(last) && forall c <- init :: c in components;
      AllAreSeparate(init);
      TextsAreSeparate(last.lines);
      AlarmsAreSeparate(last.alarms);
      assert IsSeparate("BEGIN:VEVENT") && IsSeparate("END:VEVENT");
      hide IsSeparate, Texts, AlarmTexts, IsComponent;
    }
  }

  lemma CalendarIsUnfolded(components: seq<Component>)
    requires forall c <- components :: IsComponent(c)
    ensures Unfold(WriteCalendar(components)) == CalendarTexts(components)
  {
    AllAreSeparate(components);
    assert IsSeparate("BEGIN:VCALENDAR") && IsSeparate("END:VCALENDAR");
    hide IsSeparate, AllTexts, IsComponent, Lines, UnfoldRaw, Joined;
    LinesOfJoined(CalendarTexts(components));
    UnfoldSeparate(CalendarTexts(components));
  }

  // ---------------------------------------------------------------------------
  // What is collected.
  // ---------------------------------------------------------------------------

  function PropOf(line: Line): Property {
    (Upper(line.name), Unescape(line.value))
  }

  function PropsOf(lines: seq<Line>): (props: seq<Property>)
    ensures |props| == |lines|
    ensures forall i | 0 <= i < |lines| :: props[i] == PropOf(lines[i])
  {
    seq(|lines|, i requires 0 <= i < |lines| => PropOf(lines[i]))
  }

  function AlarmProps(alarms: seq<seq<Line>>): seq<seq<Property>> {
    seq(|alarms|, i requires 0 <= i < |alarms| => PropsOf(alarms[i]))
  }

  function RawFor(c: Component): RawEvent {
    RawEvent(PropsOf(c.lines), AlarmProps(c.alarms))
  }

  lemma LineAdds(line: Line)
    requires IsWritten(line)
    ensures Adds(LineText(line), PropOf(line))
  {
    LineIsRead(line);
    hide PropertyOf, Unescape, Upper, LineText;
  }

  lemma LinesAdd(lines: seq<Line>)
    requires AreWritten(lines)
    ensures AddsAll(Texts(lines), PropsOf(lines))
  {
    hide Adds, IsWritten, LineText, PropOf;
    forall i | 0 <= i < |lines|
      ensures Adds(Texts(lines)[i], PropsOf(lines)[i])
    {
      assert lines[i] in lines;
      LineAdds(lines[i]);
    }
  }

  /** Inside an alarm. */
  function InAlarm(events: seq<RawEvent>, raw: RawEvent, alarm: seq<Property>): Collection {
    Collection(events, Some(raw), true, alarm)
  }

  lemma {:induction false} AlarmAdds(events: seq<RawEvent>, raw: RawEvent, lines: seq<string>, props: seq<Property>)
    requires AddsAll(lines, props)
    ensures CollectAll(InAlarm(events, raw, []), lines) == InAlarm(events, raw, props)
    decreases |lines|
  {
    if |lines| > 0 {
      var k := |lines| - 1;
      AlarmAdds(events, raw, lines[..k], props[..k]);
      assert props == props[..k] + [props[k]];
      assert Adds(lines[k], props[k]);
      hide PropertyOf, Unescape, EqIgnoreCase;
    }
  }

  lemma AlarmEnds(events: seq<RawEvent>, raw: RawEvent, before: seq<Property>, alarm: seq<Property>)
    ensures CollectAll(Open(events, raw.props, raw.alarms, before), ["BEGIN:VALARM"]) == InAlarm(events, raw, [])
    ensures CollectAll(InAlarm(events, raw, alarm), ["END:VALARM"]) ==
            Open(events, raw.props, raw.alarms + [alarm], alarm)
  {
    hide PropertyOf;
    VEventIsNotVAlarm();
    PropertyOfPlain("BEGIN", "VALARM");
    PropertyOfPlain("END", "VALARM");
    assert PropLine("BEGIN", "VALARM") == "BEGIN:VALARM" && PropLine("END", "VALARM") == "END:VALARM";
    CollectOne(Open(events, raw.props, raw.alarms, before), "BEGIN:VALARM");
    CollectOne(InAlarm(events, raw, alarm), "END:VALARM");
  }

  lemma {:induction false} AlarmsAreCollected(events: seq<RawEvent>, props: seq<Property>, alarms: seq<seq<Line>>,
                                              before: seq<Property>)
    returns (after: seq<Property>)
    requires forall alarm <- alarms :: AreWritten(alarm)
    ensures CollectAll(Open(events, props, [], before), AlarmTexts(alarms)) ==
            Open(events, props, AlarmProps(alarms), after)
    decreases |alarms|
  {
    hide AreWritten, Texts, PropsOf, CollectAll, Open, InAlarm, AddsAll;
    if |alarms| == 0 {
      after := before;
      CollectNone(Open(events, props, [], before));
      assert AlarmProps(alarms) == [];
    } else {
      var init, last := alarms[..|alarms| - 1], alarms[|alarms| - 1];
      assert last in alarms && forall alarm <- init :: alarm in alarms;
      var middle := AlarmsAreCollected(events, props, init, before);
      var raw := RawEvent(props, AlarmProps(init));
      after := PropsOf(last);
      LinesAdd(last);
      AlarmEnds(events, raw, middle, after);
      AlarmAdds(events, raw, Texts(last), after);
      CollectConcat(Open(events, props, [], before), AlarmTexts(init),
                    ["BEGIN:VALARM"] + (Texts(last) + ["END:VALARM"]));
      CollectConcat(Open(events, props, raw.alarms, middle), ["BEGIN:VALARM"], Texts(last) + ["END:VALARM"]);
      CollectConcat(InAlarm(events, raw, []), Texts(last), ["END:VALARM"]);
      assert AlarmProps(alarms) == AlarmProps(init) + [after];
    }
  }

  lemma ComponentIsCollected(events: seq<RawEvent>, c: Component, before: seq<Property>) returns (after: seq<Property>)
    requires IsComponent(c)
    ensures CollectAll(Collection(events, None, false, before), ComponentTexts(c)) ==
            Collection(events + [RawFor(c)], None, false, after)
  {
    hide AreWritten, Texts, PropsOf, CollectAll, Open, AddsAll, AlarmTexts, AlarmProps;
    var start, props := Collection(events, None, false, before), PropsOf(c.lines);
    LinesAdd(c.lines);
    CollectAdds(events, [], [], before, Texts(c.lines), props);
    assert [] + props == props;
    after := AlarmsAreCollected(events, props, c.alarms, before);
    CollectEnds(events, before, RawFor(c));
    CollectEnds(events, after, RawFor(c));
    CollectConcat(start, ["BEGIN:VEVENT"], Texts(c.lines) + (AlarmTexts(c.alarms) + ["END:VEVENT"]));
    CollectConcat(Open(events, [], [], before), Texts(c.lines), AlarmTexts(c.alarms) + ["END:VEVENT"]);
    CollectConcat(Open(events, props, [], before), AlarmTexts(c.alarms), ["END:VEVENT"]);
  }

  function RawsFor(components: seq<Component>): seq<RawEvent> {
    seq(|components|, i requires 0 <= i < |components| => RawFor(components[i]))
  }

  lemma {:induction false} AllAreCollected(components: seq<Component>) returns (after: seq<Property>)
    requires forall c <- components :: IsComponent(c)
    ensures CollectAll(NOTHING, AllTexts(components)) == Collection(RawsFor(components), None, false, after)
  {
    hide IsComponent, RawFor, CollectAll, ComponentTexts;
    if |components| == 0 {
      CollectNone(NOTHING);
      after := [];
    } else {
      var init, last := components[..|components| - 1], components[|components| - 1];
      assert last in components && forall c <- init :: c in components;
      var middle := AllAreCollected(init);
      after := ComponentIsCollected(RawsFor(init), last, middle);
      CollectConcat(NOTHING, AllTexts(init), ComponentTexts(last));
      assert RawsFor(components) == RawsFor(init) + [RawFor(last)];
    }
  }

  lemma CalendarIsCollected(components: seq<Component>)
    requires forall c <- components :: IsComponent(c)
    ensures CollectAll(NOTHING, CalendarTexts(components)).events == RawsFor(components)
    ensures exists line <- CalendarTexts(components) :: IsBegin(line)
  {
    hide IsComponent, RawsFor, CollectAll, AllTexts, EqIgnoreCase, PropertyOf;
    HeaderValues();
    assert PropLine("BEGIN", "VCALENDAR") == "BEGIN:VCALENDAR" && PropLine("END", "VCALENDAR") == "END:VCALENDAR";
    PropertyOfPlain("BEGIN", "VCALENDAR");
    assert CalendarTexts(components)[0] == "BEGIN:VCALENDAR" && IsBegin("BEGIN:VCALENDAR");
    IgnoredOutside(NOTHING, "BEGIN", "VCALENDAR");
    var after := AllAreCollected(components);
    var end := Collection(RawsFor(components), None, false, after);
    IgnoredOutside(end, "END", "VCALENDAR");
    CollectConcat(NOTHING, ["BEGIN:VCALENDAR"], AllTexts(components) + ["END:VCALENDAR"]);
    CollectConcat(NOTHING, AllTexts(components), ["END:VCALENDAR"]);
  }

  // ---------------------------------------------------------------------------
  // What a component means.
  // ---------------------------------------------------------------------------

  /** The value of the first property of that name. */
  function ValueOf(lines: seq<Line>, name: string): Option<string> {
    if |lines| == 0 then None
    else if Upper(lines[0].name) == name then Some(Unescape(lines[0].value))
    else ValueOf(lines[1..], name)
  }

  function Or(value: Option<string>, default: string): string {
    match value
    case Some(text) => text
    case None => default
  }

  function TimeOf(lines: seq<Line>, name: string): Option<(int, bool)> {
    match ValueOf(lines, name)
    case None => None
    case Some(value) => match ParseDt(value) case Ok(time) => Some(time) case Err(_) => None
  }

  /** How long before the start an alarm rings, at most ten years; one at the start or later does not count. */
  function LeadOf(alarm: seq<Line>): Option<int> {
    match ValueOf(alarm, "TRIGGER")
    case None => None
    case Some(trigger) =>
      match DurationOf(trigger)
      case None => None
      case Some(ms) => if ms >= 0 then None else Some(if -ms < 315_360_000_000 then -ms else 315_360_000_000)
  }

  /** The smallest of the reminders. */
  ghost predicate IsLeast(reminder: Option<int>, alarms: seq<seq<Line>>) {
    && (reminder.None? <==> forall alarm <- alarms :: LeadOf(alarm).None?)
    && (reminder.Some? ==> exists alarm <- alarms :: LeadOf(alarm) == reminder)
    && (reminder.Some? ==> forall alarm <- alarms :: LeadOf(alarm).Some? ==> reminder.value <= LeadOf(alarm).value)
  }

  ghost predicate Means(e: ParsedEvent, c: Component) {
    var (location, text) := (Or(ValueOf(c.lines, "LOCATION"), ""), Or(ValueOf(c.lines, "DESCRIPTION"), ""));
    var end := TimeOf(c.lines, "DTEND");
    && TimeOf(c.lines, "DTSTART") == Some((e.startMs, e.allDay))
    && e.endMs == (if end.Some? && e.startMs <= end.value.0 then Some(end.value.0) else None)
    && e.title == Or(ValueOf(c.lines, "SUMMARY"), "(untitled)")
    && e.description == (if location == "" then text else "Location: " + location + "\n" + text)
    && e.uid == Or(ValueOf(c.lines, "UID"), "")
    && e.rrule == ValueOf(c.lines, "RRULE")
    && IsLeast(e.remindBeforeMs, c.alarms)
  }

  lemma {:induction false} ValueIsGot(lines: seq<Line>, name: string)
    ensures Get(PropsOf(lines), name) == ValueOf(lines, name)
  {
    hide Upper, Unescape;
    if |lines| > 0 {
      ValueIsGot(lines[1..], name);
      assert PropsOf(lines)[1..] == PropsOf(lines[1..]);
    }
  }

  lemma {:induction false} LeastIsFound(alarms: seq<seq<Line>>)
    ensures IsLeast(RemindBefore(AlarmProps(alarms)), alarms)
  {
    hide Get, DurationOf, ValueOf;
    if |alarms| > 0 {
      ValueIsGot(alarms[0], "TRIGGER");
      LeastIsFound(alarms[1..]);
      assert AlarmProps(alarms)[1..] == AlarmProps(alarms[1..]);
      assert AlarmReminder(AlarmProps(alarms)[0]) == LeadOf(alarms[0]);
      hide LeadOf, AlarmReminder;
      assert alarms[0] in alarms && forall alarm <- alarms[1..] :: alarm in alarms;
      assert forall alarm <- alarms :: alarm == alarms[0] || alarm in alarms[1..];
    }
  }

  lemma RawMeans(c: Component)
    ensures var e := ToEvent(RawFor(c));
            && (e.Some? <==> TimeOf(c.lines, "DTSTART").Some?)
            && (e.Some? ==> Means(e.value, c))
  {
    hide Get, ValueOf, ParseDt, RemindBefore, IsLeast, PropsOf, AlarmProps;
    forall name: string
      ensures Get(PropsOf(c.lines), name) == ValueOf(c.lines, name)
    {
      ValueIsGot(c.lines, name);
    }
    LeastIsFound(c.alarms);
  }

  /** The components that have a readable start. */
  function WithStart(components: seq<Component>): seq<Component> {
    if |components| == 0 then [] else
      var n := |components| - 1;
      WithStart(components[..n]) + if TimeOf(components[n].lines, "DTSTART").Some? then [components[n]] else []
  }

  lemma {:induction false} EventsMean(components: seq<Component>)
    ensures var events := ToEvents(RawsFor(components));
            && |events| == |WithStart(components)|
            && forall i | 0 <= i < |events| :: Means(events[i], WithStart(components)[i])
  {
    hide RawFor, Means, ToEvent, TimeOf;
    if |components| > 0 {
      var init, last := components[..|components| - 1], components[|components| - 1];
      EventsMean(init);
      RawMeans(last);
      assert RawsFor(components)[..|components| - 1] == RawsFor(init);
    }
  }

  /** Every calendar of written components is read without error: each component with a readable start becomes one
      event, in order, and means what is written; the others are passed over. */
  lemma CalendarMeans(components: seq<Component>)
    requires forall c <- components :: IsComponent(c)
    ensures var parsed := ParsedOf(WriteCalendar(components));
            && parsed.Ok? && |parsed.value| == |WithStart(components)|
            && forall i | 0 <= i < |parsed.value| :: Means(parsed.value[i], WithStart(components)[i])
  {
    hide IsComponent, WriteCalendar, Unfold, CollectAll, CalendarTexts, ToEvents, RawsFor, WithStart, Means, IsBegin;
    CalendarIsUnfolded(components);
    CalendarIsCollected(components);
    EventsMean(components);
  }

  lemma {:induction false} NothingBegins(lines: seq<Line>)
    requires AreWritten(lines)
    ensures forall text <- Texts(lines) :: !IsBegin(text)
  {
    hide Upper, LineText;
    forall text <- Texts(lines)
      ensures !IsBegin(text)
    {
      var i :| 0 <= i < |lines| && Texts(lines)[i] == text;
      assert lines[i] in lines;
      LineIsRead(lines[i]);
    }
  }

  /** A text in which no component begins is refused. */
  lemma NoComponentIsRefused(lines: seq<Line>)
    requires AreWritten(lines)
    ensures ParsedOf(Joined(Texts(lines))) == Err("no VCALENDAR/VEVENT components found")
  {
    hide AreWritten, Texts, Lines, UnfoldRaw, Joined, IsSeparate, IsBegin;
    TextsAreSeparate(lines);
    LinesOfJoined(Texts(lines));
    UnfoldSeparate(Texts(lines));
    NothingBegins(lines);
  }
}
