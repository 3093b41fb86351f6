/** Importing what was exported gives the documents back, as far as an iCalendar text can hold them. */
module IcsRoundTrip {
  import opened Civil
  import opened Text
  import opened DateTime
  import opened Duration
  import opened IcsText
  import opened Octets
  import opened Folding
  import opened Ics

  // ---------------------------------------------------------------------------
  // What can be exported, and what comes back.
  // ---------------------------------------------------------------------------

  /** No 71 blanks in a row, and no cut of the line inside a character. */
  ghost predicate CanFold(name: string, value: string) {
    var octets := Utf8(PropLine(name, value));
    !HasLongRun(value) && !IsSplit(octets, Cuts(octets))
  }

  /** The three texts of a document can be folded. Every other line of the export can. */
  ghost predicate TextsFold(doc: EventDoc) {
    && CanFold("UID", UidOf(doc)) && CanFold("SUMMARY", Escape(doc.title))
    && (doc.description != "" ==> CanFold("DESCRIPTION", Escape(doc.description)))
  }

  ghost predicate Exportable(doc: EventDoc) {
    TextsFold(doc) && OneLine(UidOf(doc)) && TimesPrint(doc)
  }

  /** The times have years of four digits, and the reminder is a 64-bit number. */
  ghost predicate TimesPrint(doc: EventDoc) {
    && FourDigitYear(doc.startMs)
    && (doc.endMs.Some? ==> FourDigitYear(doc.endMs.value))
    && (doc.remindBeforeMs.Some? ==> IsI64(doc.remindBeforeMs.value))
  }

  function EndOf(doc: EventDoc): Option<int> {
    match doc.endMs
    case None => None
    case Some(ms) =>
      if Floor(ms, doc.allDay) >= Floor(doc.startMs, doc.allDay) then Some(Floor(ms, doc.allDay)) else None
  }

  /** Whole seconds, at most the cap; less than a second is no reminder. */
  function ReminderOf(doc: EventDoc): Option<int> {
    match doc.remindBeforeMs
    case None => None
    case Some(ms) =>
      if ms < 1_000 then None
      else Some(if ms - ms % 1_000 < MAX_REMIND_BEFORE_MS then ms - ms % 1_000 else MAX_REMIND_BEFORE_MS)
  }

  /** What a document is read back as. The title and the description are written escaped, the UID as it
      stands; all three are unescaped. The recurrence rule is not exported. */
  function Imported(doc: EventDoc): ParsedEvent {
    ParsedEvent(OnlyLf(doc.title), OnlyLf(doc.description), Floor(doc.startMs, doc.allDay), EndOf(doc), doc.allDay,
                ReminderOf(doc), Unescape(UidOf(doc)), None)
  }

  function ImportedAll(docs: seq<EventDoc>): seq<ParsedEvent> {
    seq(|docs|, i requires 0 <= i < |docs| => Imported(docs[i]))
  }

  // ---------------------------------------------------------------------------
  // Properties are split where they were joined.
  // ---------------------------------------------------------------------------

  predicate IsName(name: string) {
    |name| >= 2 && forall i | 0 <= i < |name| :: 'A' <= name[i] <= 'Z'
  }

  lemma {:induction false} ColonAfter(line: string, i: nat, n: nat)
    requires i <= n < |line| && line[n] == ':'
    requires forall j | i <= j < n :: line[j] != ':' && line[j] != '"'
    ensures ColonFrom(line, i, false) == n
    decreases n - i
  {
    if i < n {
      ColonAfter(line, i + 1, n);
    }
  }

  lemma NameIsTrimmed(name: string)
    requires IsName(name)
    ensures Upper(Trim(name)) == name
  {
  }

  lemma PropertyOfPlain(name: string, value: string)
    requires IsName(name)
    ensures PropertyOf(PropLine(name, value)) == Some((name, value))
  {
    var line := name + ":" + value;
    ColonAfter(line, 0, |name|);
    assert line[..|name|] == name && line[|name| + 1..] == value;
    assert IndexOf(name, ';') == |name|;
    NameIsTrimmed(name);
  }

  lemma PropertyOfDate(name: string, value: string)
    requires IsName(name)
    ensures PropertyOf(name + ";VALUE=DATE:" + value) == Some((name, value))
  {
    var line := name + ";VALUE=DATE:" + value;
    var left := name + [';'] + "VALUE=DATE";
    ColonAfter(line, 0, |left|);
    assert line[..|left|] == left && line[|left| + 1..] == value;
    IndexOfAfter(name, ';', "VALUE=DATE");
    assert left[..|name|] == name;
    NameIsTrimmed(name);
  }

  // ---------------------------------------------------------------------------
  // Printed times and durations are plain words.
  // ---------------------------------------------------------------------------

  predicate IsWord(text: string) {
    forall i | 0 <= i < |text| :: '-' <= text[i] <= 'Z'
  }

  lemma {:induction false} WordIsPlain(text: string)
    requires IsWord(text)
    ensures OneLine(text) && !HasLongRun(text) && Unescape(text) == text
  {
    assert forall c <- text :: '-' <= c <= 'Z';
    UnescapePlain(text);
    WordHasNoRun(text);
  }

  lemma {:induction false} WordHasNoRun(text: string)
    requires IsWord(text)
    ensures !HasLongRun(text)
  {
    if |text| > 0 {
      WordHasNoRun(text[1..]);
    }
  }

  lemma FmtDtIsWord(ms: int, allDay: bool)
    ensures IsWord(FmtDt(ms, allDay))
  {
    hide CivilFromDays, Padded;
    var date := CivilFromDays(ms / MS_PER_DAY);
    var rem := ms % MS_PER_DAY;
    PaddedIsWord(date.y, 4);
    PaddedIsWord(date.m, 2);
    PaddedIsWord(date.d, 2);
    PaddedIsWord(rem / 3_600_000, 2);
    PaddedIsWord(rem % 3_600_000 / 60_000, 2);
    PaddedIsWord(rem % 60_000 / 1_000, 2);
  }

  lemma PaddedIsWord(n: int, width: nat)
    ensures IsWord(Padded(n, width))
  {
    var s := Padded(n, width);
    assert forall i | 0 <= i < |s| :: IsDigit(s[i]) || s[i] == '-';
  }

  lemma SignedIsWord(n: int)
    ensures IsWord(Signed(n))
  {
    var s := Signed(n);
    assert forall i | 0 <= i < |s| :: IsDigit(s[i]) || s[i] == '-';
  }

  lemma DurationIsWord(ms: int)
    ensures IsWord(FmtDurationBefore(ms))
  {
    hide TruncDiv, Signed;
    SignedIsWord(TruncDiv(ms, 3_600_000));
    SignedIsWord(TruncDiv(ms, 60_000));
    SignedIsWord(TruncDiv(ms, 1_000));
  }

  // ---------------------------------------------------------------------------
  // Every line of the export folds, so the text is defined.
  // ---------------------------------------------------------------------------

  ghost predicate Prints(piece: Piece) {
    Foldable(piece.line) && (piece.Plain? ==> |Utf8(piece.line)| <= FOLD_AT)
  }

  function LinesOf(pieces: seq<Piece>): (lines: seq<string>)
    ensures |lines| == |pieces|
    ensures forall i | 0 <= i < |pieces| :: lines[i] == pieces[i].line
  {
    seq(|pieces|, i requires 0 <= i < |pieces| => pieces[i].line)
  }

  lemma {:induction false} TextOfLines(pieces: seq<Piece>)
    requires forall piece <- pieces :: Prints(piece)
    ensures forall line <- LinesOf(pieces) :: Foldable(line)
    ensures TextOf(pieces) == Output.Text(FoldAll(LinesOf(pieces)))
  {
    forall line <- LinesOf(pieces)
      ensures Foldable(line)
    {
      var i :| 0 <= i < |pieces| && LinesOf(pieces)[i] == line;
      assert Prints(pieces[i]);
    }
    if |pieces| > 0 {
      assert Prints(pieces[0]);
      TextOfLines(pieces[1..]);
      assert LinesOf(pieces)[1..] == LinesOf(pieces[1..]);
      if pieces[0].Plain? {
        var line := pieces[0].line;
        assert (line + CRLF) + ContinuationText([]) == line + CRLF;
      }
    }
  }

  lemma PropertyOctets(name: string, value: string)
    requires IsName(name)
    ensures |Utf8(PropLine(name, value))| >= 2
    ensures HasLongRun(Utf8(PropLine(name, value))[2..]) <==> HasLongRun(Utf8(value))
  {
    var left := name + ":";
    Utf8Concat(left, value);
    AsciiOctets(left);
    hide HasLongRun, Utf8;
    assert (left + Utf8(value))[2..] == left[2..] + Utf8(value);
    PrefixHasNoRun(left[2..], Utf8(value));
  }

  /** A property folds exactly when its value holds no 71 blanks in a row and no cut is inside a character. */
  lemma PropertyFolds(name: string, value: string)
    requires IsName(name)
    ensures Fold(PropLine(name, value)).Parts? <==> CanFold(name, value)
  {
    hide HasLongRun, Fold, Utf8, IsSplit, Cuts, PropLine;
    PropertyOctets(name, value);
    OctetsKeepRuns(value);
    FoldPanics(PropLine(name, value));
    FoldTerminates(PropLine(name, value));
  }

  lemma PropertyIsOneLine(name: string, value: string)
    requires IsName(name) && OneLine(value)
    ensures OneLine(PropLine(name, value)) && !IsContinuation(PropLine(name, value))
  {
    assert forall c <- name :: 'A' <= c <= 'Z';
  }

  lemma PropertyPrints(name: string, value: string)
    requires IsName(name) && OneLine(value) && CanFold(name, value)
    ensures Prints(Folded(PropLine(name, value)))
  {
    hide CanFold, Fold, OneLine, IsContinuation, PropLine, IsName;
    PropertyFolds(name, value);
    PropertyIsOneLine(name, value);
  }

  lemma WordFolds(name: string, word: string)
    requires IsName(name) && IsWord(word)
    ensures CanFold(name, word)
  {
    var line := PropLine(name, word);
    assert IsAscii(line);
    WordHasNoRun(word);
    AsciiNeverPanics(line);
    FoldPanics(line);
    hide Fold, Utf8, IsSplit;
  }

  lemma WordPrints(name: string, word: string)
    requires IsName(name) && IsWord(word)
    ensures Prints(Folded(PropLine(name, word)))
  {
    WordFolds(name, word);
    WordIsPlain(word);
    PropertyPrints(name, word);
  }

  lemma TimePrints(name: string, ms: int, allDay: bool)
    requires IsName(name) && |name| <= 10 && FourDigitYear(ms)
    ensures forall piece <- TimePieces(name, ms, allDay) :: Prints(piece)
  {
    var time := FmtDt(ms, allDay);
    FmtDtIsWord(ms, allDay);
    if allDay {
      DatePrints(name, ms);
    } else {
      hide FmtDt, PropLine, Prints;
      WordPrints(name, time);
    }
  }

  lemma DatePrints(name: string, ms: int)
    requires IsName(name) && |name| <= 10 && FourDigitYear(ms)
    ensures Prints(Plain(name + ";VALUE=DATE:" + FmtDt(ms, true)))
  {
    hide FmtDt, Prints, FourDigitYear;
    FmtDtIsWord(ms, true);
    DateIsShort(ms);
    PlainPrints(name + ";VALUE=DATE:" + FmtDt(ms, true));
  }

  lemma DateIsShort(ms: int)
    requires FourDigitYear(ms)
    ensures |FmtDt(ms, true)| == 8
  {
    var y, mo, d := YmdFits(ms);
    hide CivilFromDays, DaysFromCivil, Padded, FourDigitYear;
    assert FmtDt(ms, true) == y + mo + d;
  }

  /** A short line of visible characters. */
  lemma PlainPrints(line: string)
    requires 0 < |line| <= FOLD_AT && forall i | 0 <= i < |line| :: ' ' < line[i] < '\U{80}'
    ensures Prints(Plain(line))
  {
    AsciiOctets(line);
    assert forall c <- line :: ' ' < c;
  }

  lemma AlarmPrints(ms: int)
    ensures forall piece <- AlarmPieces(ms) :: Prints(piece)
  {
    hide Prints, FmtDurationBefore, PropLine;
    DurationIsWord(ms);
    WordPrints("TRIGGER", FmtDurationBefore(ms));
    PlainPrints("BEGIN:VALARM");
    PlainPrints("ACTION:DISPLAY");
    PlainPrints("END:VALARM");
  }

  lemma TextPrints(name: string, text: string)
    requires IsName(name) && CanFold(name, Escape(text))
    ensures Prints(Folded(PropLine(name, Escape(text))))
  {
    EscapeIsOneLine(text);
    PropertyPrints(name, Escape(text));
  }

  /** The title and what follows it, up to the alarm. */
  function AfterUid(doc: EventDoc): seq<Piece> {
    [Folded(PropLine("SUMMARY", Escape(doc.title)))] + AboutPieces(doc)
    + TimePieces("DTSTART", doc.startMs, doc.allDay) + EndPieces(doc)
  }

  lemma AfterUidPrints(doc: EventDoc)
    requires TextsFold(doc) && TimesPrint(doc)
    ensures forall piece <- AfterUid(doc) :: Prints(piece)
  {
    hide Escape, Prints, TimePieces, UidOf, PropLine, CanFold, FourDigitYear;
    TextPrints("SUMMARY", doc.title);
    if doc.description != "" {
      TextPrints("DESCRIPTION", doc.description);
    }
    TimePrints("DTSTART", doc.startMs, doc.allDay);
    if doc.endMs.Some? {
      TimePrints("DTEND", doc.endMs.value, doc.allDay);
    }
  }

  lemma BodyIsUidFirst(doc: EventDoc)
    ensures BodyPieces(doc) == [Folded(PropLine("UID", UidOf(doc)))] + AfterUid(doc)
  {
    hide Escape, UidOf, PropLine, TimePieces, EndPieces, AboutPieces;
  }

  lemma BodyPrints(doc: EventDoc)
    requires Exportable(doc)
    ensures forall piece <- BodyPieces(doc) :: Prints(piece)
  {
    hide Prints, UidOf, PropLine, CanFold, FourDigitYear, AfterUid, BodyPieces, OneLine;
    BodyIsUidFirst(doc);
    AfterUidPrints(doc);
    PropertyPrints("UID", UidOf(doc));
  }

  lemma StampPrints(doc: EventDoc)
    ensures Prints(StampPiece(doc))
  {
    hide FmtDt, Prints, PropLine;
    var ms := if doc.updatedAtMs < 0 then 0 else doc.updatedAtMs;
    FmtDtIsWord(ms, false);
    WordPrints("DTSTAMP", FmtDt(ms, false));
  }

  lemma EventPrints(doc: EventDoc)
    requires Exportable(doc)
    ensures forall piece <- EventPieces(doc) :: Prints(piece)
  {
    hide Prints, BodyPieces, AlarmPieces, StampPiece, Exportable;
    PlainPrints("BEGIN:VEVENT");
    BodyPrints(doc);
    if doc.remindBeforeMs.Some? {
      AlarmPrints(doc.remindBeforeMs.value);
    }
    StampPrints(doc);
    PlainPrints("END:VEVENT");
  }

  lemma {:induction false} DocsPrint(docs: seq<EventDoc>)
    requires forall doc <- docs :: Exportable(doc)
    ensures forall piece <- DocPieces(docs) :: Prints(piece)
  {
    hide EventPieces, Prints;
    if |docs| == 0 {
      PlainPrints(PropLine("END", "VCALENDAR"));
    } else {
      assert docs[0] in docs;
      EventPrints(docs[0]);
      DocsPrint(docs[1..]);
    }
  }

  lemma HeaderPrints()
    ensures forall piece <- HEADER :: Prints(piece)
  {
    hide Prints;
    PlainPrints(PropLine("BEGIN", "VCALENDAR"));
    PlainPrints(PropLine("VERSION", "2.0"));
    PlainPrints(PropLine("PRODID", "-//vynkor//calendar//EN"));
    PlainPrints(PropLine("CALSCALE", "GREGORIAN"));
  }

  // ---------------------------------------------------------------------------
  // Collecting the lines of one event.
  // ---------------------------------------------------------------------------

  lemma {:induction false} CollectConcat(c: Collection, a: seq<string>, b: seq<string>)
    ensures CollectAll(c, a + b) == CollectAll(CollectAll(c, a), b)
  {
    if |b| == 0 {
      assert a + b == a;
    } else {
      CollectConcat(c, a, b[..|b| - 1]);
      assert (a + b)[..|a + b| - 1] == a + b[..|b| - 1];
    }
  }

  lemma CollectOne(c: Collection, line: string)
    ensures CollectAll(c, [line]) == CollectLine(c, line)
  {
    assert [line][..0] == [];
  }

  /** Inside an event and outside its alarms, with the properties read so far. */
  function Open(events: seq<RawEvent>, props: seq<Property>, alarms: seq<seq<Property>>,
                alarm: seq<Property>): Collection
  {
    Collection(events, Some(RawEvent(props, alarms)), false, alarm)
  }

  /** A line that adds one property to the event it stands in. */
  ghost predicate Adds(line: string, property: Property) {
    && PropertyOf(line).Some?
    && PropertyOf(line).value.0 == property.0 && property.0 !in {"BEGIN", "END"}
    && Unescape(PropertyOf(line).value.1) == property.1
  }

  ghost predicate AddsAll(lines: seq<string>, props: seq<Property>) {
    |lines| == |props| && forall i | 0 <= i < |lines| :: Adds(lines[i], props[i])
  }

  lemma {:induction false} CollectAdds(events: seq<RawEvent>, before: seq<Property>, alarms: seq<seq<Property>>,
                                       alarm: seq<Property>, lines: seq<string>, props: seq<Property>)
    requires AddsAll(lines, props)
    ensures CollectAll(Open(events, before, alarms, alarm), lines) == Open(events, before + props, alarms, alarm)
    decreases |lines|
  {
    if |lines| == 0 {
      assert before + props == before;
    } else {
      var k := |lines| - 1;
      CollectAdds(events, before, alarms, alarm, lines[..k], props[..k]);
      assert before + props == before + props[..k] + [props[k]];
      assert Adds(lines[k], props[k]);
    }
  }

  lemma AddsText(name: string, text: string)
    requires IsName(name) && name !in {"BEGIN", "END"}
    ensures Adds(PropLine(name, Escape(text)), (name, OnlyLf(text)))
  {
    PropertyOfPlain(name, Escape(text));
    EscapeRoundTrip(text);
  }

  lemma AddsRaw(name: string, value: string)
    requires IsName(name) && name !in {"BEGIN", "END"}
    ensures Adds(PropLine(name, value), (name, Unescape(value)))
  {
    PropertyOfPlain(name, value);
  }

  lemma AddsPlain(name: string, value: string)
    requires IsName(name) && name !in {"BEGIN", "END"} && '\\' !in value
    ensures Adds(PropLine(name, value), (name, value))
    ensures Adds(name + ";VALUE=DATE:" + value, (name, value))
  {
    PropertyOfPlain(name, value);
    PropertyOfDate(name, value);
    UnescapePlain(value);
  }

  lemma AddsTime(name: string, ms: int, allDay: bool)
    requires IsName(name) && name !in {"BEGIN", "END"}
    ensures AddsAll(LinesOf(TimePieces(name, ms, allDay)), [(name, FmtDt(ms, allDay))])
  {
    FmtDtIsWord(ms, allDay);
    WordIsPlain(FmtDt(ms, allDay));
    assert '\\' !in FmtDt(ms, allDay) by {
      assert forall c <- FmtDt(ms, allDay) :: c <= 'Z';
    }
    AddsPlain(name, FmtDt(ms, allDay));
  }

  function AlarmOf(ms: int): seq<Property> {
    [("ACTION", "DISPLAY"), ("TRIGGER", FmtDurationBefore(ms))]
  }

  function TextProps(doc: EventDoc): seq<Property> {
    [("UID", Unescape(UidOf(doc))), ("SUMMARY", OnlyLf(doc.title))]
  }

  function AboutProps(doc: EventDoc): seq<Property> {
    if doc.description == "" then [] else [("DESCRIPTION", OnlyLf(doc.description))]
  }

  function EndProps(doc: EventDoc): seq<Property> {
    if doc.endMs.None? then [] else [("DTEND", FmtDt(doc.endMs.value, doc.allDay))]
  }

  function BodyProps(doc: EventDoc): seq<Property> {
    TextProps(doc) + AboutProps(doc) + [("DTSTART", FmtDt(doc.startMs, doc.allDay))] + EndProps(doc)
  }

  function StampProp(doc: EventDoc): Property {
    ("DTSTAMP", FmtDt(if doc.updatedAtMs < 0 then 0 else doc.updatedAtMs, false))
  }

  function RawOf(doc: EventDoc): RawEvent {
    RawEvent(BodyProps(doc) + [StampProp(doc)],
             if doc.remindBeforeMs.None? then [] else [AlarmOf(doc.remindBeforeMs.value)])
  }

  lemma LinesOfConcat(a: seq<Piece>, b: seq<Piece>)
    ensures LinesOf(a + b) == LinesOf(a) + LinesOf(b)
  {
  }

  lemma AddsConcat(a: seq<string>, p: seq<Property>, b: seq<string>, q: seq<Property>)
    requires AddsAll(a, p) && AddsAll(b, q)
    ensures AddsAll(a + b, p + q)
  {
    hide Adds;
  }

  lemma TextsAdd(doc: EventDoc)
    ensures AddsAll(LinesOf(TextPieces(doc)), TextProps(doc))
    ensures AddsAll(LinesOf(AboutPieces(doc)), AboutProps(doc))
  {
    hide Adds, Escape, PropLine, UidOf, Unescape, OnlyLf;
    AddsRaw("UID", UidOf(doc));
    AddsText("SUMMARY", doc.title);
    AddsText("DESCRIPTION", doc.description);
  }

  lemma EndAdds(doc: EventDoc)
    ensures AddsAll(LinesOf(EndPieces(doc)), EndProps(doc))
  {
    hide Adds, FmtDt, TimePieces;
    if doc.endMs.Some? {
      AddsTime("DTEND", doc.endMs.value, doc.allDay);
    }
  }

  lemma BodyAdds(doc: EventDoc)
    ensures AddsAll(LinesOf(BodyPieces(doc)), BodyProps(doc))
  {
    hide Adds, IsName, PropLine;
    TextsAdd(doc);
    AddsTime("DTSTART", doc.startMs, doc.allDay);
    EndAdds(doc);
    hide AddsAll, FmtDt, TimePieces, TextPieces, AboutPieces, EndPieces, TextProps, AboutProps, EndProps, LinesOf;
    var a, b, c, d := TextPieces(doc), AboutPieces(doc), TimePieces("DTSTART", doc.startMs, doc.allDay), EndPieces(doc);
    var p, q, r, s := TextProps(doc), AboutProps(doc), [("DTSTART", FmtDt(doc.startMs, doc.allDay))], EndProps(doc);
    AddsConcat(LinesOf(a), p, LinesOf(b), q);
    AddsConcat(LinesOf(a) + LinesOf(b), p + q, LinesOf(c), r);
    AddsConcat(LinesOf(a) + LinesOf(b) + LinesOf(c), p + q + r, LinesOf(d), s);
    LinesOfConcat(a, b);
    LinesOfConcat(a + b, c);
    LinesOfConcat(a + b + c, d);
  }

  lemma StampAdds(doc: EventDoc)
    ensures AddsAll([StampPiece(doc).line], [StampProp(doc)])
  {
    hide FmtDt, PropLine;
    AddsTime("DTSTAMP", if doc.updatedAtMs < 0 then 0 else doc.updatedAtMs, false);
  }

  lemma CollectAlarm(events: seq<RawEvent>, props: seq<Property>, alarm: seq<Property>, ms: int)
    ensures CollectAll(Open(events, props, [], alarm), LinesOf(AlarmPieces(ms)))
         == Open(events, props, [AlarmOf(ms)], AlarmOf(ms))
  {
    hide FmtDurationBefore, PropertyOf, Unescape;
    var lines := LinesOf(AlarmPieces(ms));
    var trigger := FmtDurationBefore(ms);
    DurationIsWord(ms);
    WordIsPlain(trigger);
    PropertyOfPlain("BEGIN", "VALARM");
    PropertyOfPlain("ACTION", "DISPLAY");
    PropertyOfPlain("TRIGGER", trigger);
    PropertyOfPlain("END", "VALARM");
    UnescapePlain("DISPLAY");
    var c := Open(events, props, [], alarm);
    var c1 := c.(inAlarm := true, alarm := []);
    var c2 := c1.(alarm := [("ACTION", "DISPLAY")]);
    var c3 := c2.(alarm := AlarmOf(ms));
    assert PropLine("BEGIN", "VALARM") == "BEGIN:VALARM";
    assert PropLine("ACTION", "DISPLAY") == "ACTION:DISPLAY";
    assert PropLine("END", "VALARM") == "END:VALARM";
    VEventIsNotVAlarm();
    assert CollectAll(c, lines[..1]) == c1 by {
      assert lines[..1][..0] == [];
    }
    assert CollectAll(c, lines[..2]) == c2 by {
      assert lines[..2][..1] == lines[..1];
    }
    assert CollectAll(c, lines[..3]) == c3 by {
      assert lines[..3][..2] == lines[..2];
    }
    assert lines[..|lines| - 1] == lines[..3];
    assert [] + [AlarmOf(ms)] == [AlarmOf(ms)];
  }

  lemma VEventIsNotVAlarm()
    ensures !EqIgnoreCase("VALARM", "VEVENT") && !EqIgnoreCase("VEVENT", "VALARM")
  {
    assert Upper("VALARM")[1] == 'A' && Upper("VEVENT")[1] == 'E';
  }

  lemma CollectEnds(events: seq<RawEvent>, alarm: seq<Property>, raw: RawEvent)
    ensures CollectAll(Collection(events, None, false, alarm), ["BEGIN:VEVENT"]) == Open(events, [], [], alarm)
    ensures CollectAll(Open(events, raw.props, raw.alarms, alarm), ["END:VEVENT"])
         == Collection(events + [raw], None, false, alarm)
  {
    hide PropertyOf;
    VEventIsNotVAlarm();
    PropertyOfPlain("BEGIN", "VEVENT");
    PropertyOfPlain("END", "VEVENT");
    assert PropLine("BEGIN", "VEVENT") == "BEGIN:VEVENT" && PropLine("END", "VEVENT") == "END:VEVENT";
    CollectOne(Collection(events, None, false, alarm), "BEGIN:VEVENT");
    CollectOne(Open(events, raw.props, raw.alarms, alarm), "END:VEVENT");
  }

  /** Five runs of lines, one after the other. */
  lemma CollectFive(c: Collection, l1: seq<string>, l2: seq<string>, l3: seq<string>, l4: seq<string>, l5: seq<string>)
    ensures CollectAll(c, l1 + l2 + l3 + l4 + l5)
         == CollectAll(CollectAll(CollectAll(CollectAll(CollectAll(c, l1), l2), l3), l4), l5)
  {
    hide CollectAll;
    CollectConcat(c, l1, l2);
    CollectConcat(c, l1 + l2, l3);
    CollectConcat(c, l1 + l2 + l3, l4);
    CollectConcat(c, l1 + l2 + l3 + l4, l5);
  }

  lemma CollectEvent(events: seq<RawEvent>, alarm: seq<Property>, doc: EventDoc) returns (after: seq<Property>)
    ensures CollectAll(Collection(events, None, false, alarm), LinesOf(EventPieces(doc)))
         == Collection(events + [RawOf(doc)], None, false, after)
  {
    hide CollectAll, Open, BodyPieces, BodyProps, AlarmPieces, StampPiece, StampProp, EventPieces, AddsAll, AlarmOf;
    var c := Collection(events, None, false, alarm);
    var alarmPieces := if doc.remindBeforeMs.None? then [] else AlarmPieces(doc.remindBeforeMs.value);
    var alarms, props := RawOf(doc).alarms, BodyProps(doc);
    after := if doc.remindBeforeMs.None? then alarm else AlarmOf(doc.remindBeforeMs.value);
    var body, stamp := LinesOf(BodyPieces(doc)), [StampPiece(doc).line];
    CollectFive(c, ["BEGIN:VEVENT"], body, LinesOf(alarmPieces), stamp, ["END:VEVENT"]);
    CollectEnds(events, alarm, RawOf(doc));
    BodyAdds(doc);
    CollectAdds(events, [], [], alarm, body, props);
    assert [] + props == props;
    CollectOptionalAlarm(events, props, alarm, doc);
    StampAdds(doc);
    CollectAdds(events, props, alarms, after, stamp, [StampProp(doc)]);
    CollectEnds(events, after, RawOf(doc));
    EventLines(doc);
  }

  lemma EventLines(doc: EventDoc)
    ensures LinesOf(EventPieces(doc)) == ["BEGIN:VEVENT"] + LinesOf(BodyPieces(doc))
      + LinesOf(if doc.remindBeforeMs.None? then [] else AlarmPieces(doc.remindBeforeMs.value))
      + [StampPiece(doc).line] + ["END:VEVENT"]
  {
    hide BodyPieces, AlarmPieces, StampPiece;
  }

  lemma CollectOptionalAlarm(events: seq<RawEvent>, props: seq<Property>, alarm: seq<Property>, doc: EventDoc)
    ensures CollectAll(Open(events, props, [], alarm),
                       LinesOf(if doc.remindBeforeMs.None? then [] else AlarmPieces(doc.remindBeforeMs.value)))
         == Open(events, props, RawOf(doc).alarms,
                 if doc.remindBeforeMs.None? then alarm else AlarmOf(doc.remindBeforeMs.value))
  {
    if doc.remindBeforeMs.Some? {
      CollectAlarm(events, props, alarm, doc.remindBeforeMs.value);
    } else {
      assert LinesOf([]) == [];
    }
  }

  // ---------------------------------------------------------------------------
  // Reading an event back.
  // ---------------------------------------------------------------------------

  lemma {:induction false} GetConcat(a: seq<Property>, b: seq<Property>, name: string)
    ensures Get(a + b, name) == if Get(a, name).Some? then Get(a, name) else Get(b, name)
  {
    if |a| == 0 {
      assert a + b == b;
    } else {
      GetConcat(a[1..], b, name);
      assert (a + b)[1..] == a[1..] + b;
    }
  }

  lemma GetOne(property: Property, name: string)
    ensures Get([property], name) == if property.0 == name then Some(property.1) else None
  {
    assert [property][1..] == [];
  }

  lemma TriggerOf(ms: int)
    ensures Get(AlarmOf(ms), "TRIGGER") == Some(FmtDurationBefore(ms))
  {
    hide FmtDurationBefore;
    var alarm := AlarmOf(ms);
    assert alarm == [alarm[0]] + [alarm[1]];
    GetConcat([alarm[0]], [alarm[1]], "TRIGGER");
    GetOne(alarm[0], "TRIGGER");
    GetOne(alarm[1], "TRIGGER");
  }

  lemma ReminderIsReadBack(doc: EventDoc)
    requires doc.remindBeforeMs.Some? ==> IsI64(doc.remindBeforeMs.value)
    ensures RemindBefore(RawOf(doc).alarms) == ReminderOf(doc)
  {
    hide FmtDurationBefore, DurationOf, Get, AlarmOf, BodyProps, StampProp;
    var alarms := RawOf(doc).alarms;
    if doc.remindBeforeMs.Some? {
      var ms := doc.remindBeforeMs.value;
      DurationRoundTrip(ms);
      TriggerOf(ms);
      assert alarms[1..] == [];
      assert RemindBefore(alarms[1..]) == None;
    }
  }

  lemma PropsAreReadBack(doc: EventDoc)
    ensures var props := RawOf(doc).props;
            && Get(props, "UID") == Some(Unescape(UidOf(doc)))
            && Get(props, "SUMMARY") == Some(OnlyLf(doc.title))
            && GetOr(props, "DESCRIPTION", "") == OnlyLf(doc.description)
            && Get(props, "DTSTART") == Some(FmtDt(doc.startMs, doc.allDay))
            && Get(props, "DTEND") == (match doc.endMs case None => None case Some(ms) => Some(FmtDt(ms, doc.allDay)))
            && Get(props, "LOCATION") == None && Get(props, "RRULE") == None
  {
    hide FmtDt, UidOf, Get, Unescape;
    forall name: string
      ensures Get(RawOf(doc).props, name) == PropNamed(doc, name)
    {
      PropIs(doc, name);
    }
  }

  function PropNamed(doc: EventDoc, name: string): Option<string> {
    if name == "UID" then Some(Unescape(UidOf(doc)))
    else if name == "SUMMARY" then Some(OnlyLf(doc.title))
    else if name == "DESCRIPTION" && doc.description != "" then Some(OnlyLf(doc.description))
    else if name == "DTSTART" then Some(FmtDt(doc.startMs, doc.allDay))
    else if name == "DTEND" && doc.endMs.Some? then Some(FmtDt(doc.endMs.value, doc.allDay))
    else if name == "DTSTAMP" then Some(StampProp(doc).1)
    else None
  }

  lemma PropIs(doc: EventDoc, name: string)
    ensures Get(RawOf(doc).props, name) == PropNamed(doc, name)
  {
    hide FmtDt, UidOf, Get, Unescape, OnlyLf;
    var uid, summary: Property := ("UID", Unescape(UidOf(doc))), ("SUMMARY", OnlyLf(doc.title));
    var text: seq<Property> := if doc.description == "" then [] else [("DESCRIPTION", OnlyLf(doc.description))];
    var start: Property := ("DTSTART", FmtDt(doc.startMs, doc.allDay));
    var end: seq<Property> := if doc.endMs.None? then [] else [("DTEND", FmtDt(doc.endMs.value, doc.allDay))];
    assert RawOf(doc).props == [uid] + ([summary] + (text + ([start] + (end + [StampProp(doc)]))));
    GetConcat([uid], [summary] + (text + ([start] + (end + [StampProp(doc)]))), name);
    GetConcat([summary], text + ([start] + (end + [StampProp(doc)])), name);
    GetConcat(text, [start] + (end + [StampProp(doc)]), name);
    GetConcat([start], end + [StampProp(doc)], name);
    GetConcat(end, [StampProp(doc)], name);
    GetOne(uid, name);
    GetOne(summary, name);
    GetOne(start, name);
    GetOne(StampProp(doc), name);
    GetOptional(text, name);
    GetOptional(end, name);
  }

  lemma GetOptional(props: seq<Property>, name: string)
    requires |props| <= 1
    ensures Get(props, name) == if |props| == 1 && props[0].0 == name then Some(props[0].1) else None
  {
    if |props| == 1 {
      assert props == [props[0]];
      GetOne(props[0], name);
    }
  }

  lemma EventIsReadBack(doc: EventDoc)
    requires Exportable(doc)
    ensures ToEvent(RawOf(doc)) == Some(Imported(doc))
  {
    hide FmtDt, ParseDt, RawOf, RemindBefore, ReminderOf, Get, TextsFold, UidOf, OneLine, Floor, Unescape, OnlyLf;
    PropsAreReadBack(doc);
    ReminderIsReadBack(doc);
    DateTimeRoundTrip(doc.startMs, doc.allDay);
    if doc.endMs.Some? {
      DateTimeRoundTrip(doc.endMs.value, doc.allDay);
    }
  }

  // ---------------------------------------------------------------------------
  // The whole calendar.
  // ---------------------------------------------------------------------------

  function RawsOf(docs: seq<EventDoc>): seq<RawEvent> {
    if |docs| == 0 then [] else [RawOf(docs[0])] + RawsOf(docs[1..])
  }

  lemma DocLines(docs: seq<EventDoc>)
    ensures LinesOf(DocPieces([])) == [PropLine("END", "VCALENDAR")]
    ensures |docs| > 0 ==>
              LinesOf(DocPieces(docs)) == LinesOf(EventPieces(docs[0])) + LinesOf(DocPieces(docs[1..]))
  {
    hide EventPieces, PropLine;
    if |docs| > 0 {
      LinesOfConcat(EventPieces(docs[0]), DocPieces(docs[1..]));
    }
  }

  lemma {:induction false} CollectDocs(events: seq<RawEvent>, alarm: seq<Property>, docs: seq<EventDoc>)
    ensures CollectAll(Collection(events, None, false, alarm), LinesOf(DocPieces(docs))).events == events + RawsOf(docs)
    decreases |docs|
  {
    hide CollectAll, EventPieces, DocPieces, LinesOf, RawOf;
    var c := Collection(events, None, false, alarm);
    if |docs| == 0 {
      assert docs == [];
      CollectEnd(c);
      assert events + [] == events;
    } else {
      DocLines(docs);
      var after := CollectEvent(events, alarm, docs[0]);
      CollectDocs(events + [RawOf(docs[0])], after, docs[1..]);
      CollectConcat(c, LinesOf(EventPieces(docs[0])), LinesOf(DocPieces(docs[1..])));
      assert events + [RawOf(docs[0])] + RawsOf(docs[1..]) == events + RawsOf(docs);
    }
  }

  lemma CollectEnd(c: Collection)
    requires c.current == None && !c.inAlarm
    ensures CollectAll(c, LinesOf(DocPieces([]))) == c
  {
    hide CollectAll, EqIgnoreCase, PropLine;
    DocLines([]);
    HeaderValues();
    IgnoredOutside(c, "END", "VCALENDAR");
  }

  /** Lines outside any event change nothing, unless they begin one. */
  lemma IgnoredOutside(c: Collection, name: string, value: string)
    requires c.current == None && !c.inAlarm && IsName(name)
    requires !EqIgnoreCase(value, "VEVENT")
    ensures CollectAll(c, [PropLine(name, value)]) == c
  {
    hide PropertyOf, PropLine;
    PropertyOfPlain(name, value);
    CollectOne(c, PropLine(name, value));
  }

  lemma HeaderValues()
    ensures !EqIgnoreCase("VCALENDAR", "VEVENT") && !EqIgnoreCase("2.0", "VEVENT")
    ensures !EqIgnoreCase("-//vynkor//calendar//EN", "VEVENT") && !EqIgnoreCase("GREGORIAN", "VEVENT")
  {
    assert |Upper("VCALENDAR")| == 9 && |Upper("2.0")| == 3 && |Upper("VEVENT")| == 6;
    assert |Upper("-//vynkor//calendar//EN")| == 23 && |Upper("GREGORIAN")| == 9;
  }

  lemma HeaderIsIgnored()
    ensures CollectAll(NOTHING, LinesOf(HEADER)) == NOTHING
    ensures IsBegin(LinesOf(HEADER)[0])
  {
    hide CollectAll, PropertyOf, PropLine, EqIgnoreCase, LinesOf;
    HeaderValues();
    PropertyOfPlain("BEGIN", "VCALENDAR");
    CollectNone(NOTHING);
    IgnoredOutside(NOTHING, "BEGIN", "VCALENDAR");
    IgnoredOutside(NOTHING, "VERSION", "2.0");
    IgnoredOutside(NOTHING, "PRODID", "-//vynkor//calendar//EN");
    IgnoredOutside(NOTHING, "CALSCALE", "GREGORIAN");
    CollectFive(NOTHING, [PropLine("BEGIN", "VCALENDAR")], [PropLine("VERSION", "2.0")],
                [PropLine("PRODID", "-//vynkor//calendar//EN")], [PropLine("CALSCALE", "GREGORIAN")], []);
    assert LinesOf(HEADER) == [PropLine("BEGIN", "VCALENDAR")] + [PropLine("VERSION", "2.0")]
      + [PropLine("PRODID", "-//vynkor//calendar//EN")] + [PropLine("CALSCALE", "GREGORIAN")] + [];
  }

  lemma CollectNone(c: Collection)
    ensures CollectAll(c, []) == c
  {
  }

  lemma {:induction false} EventsAreReadBack(docs: seq<EventDoc>)
    requires forall doc <- docs :: Exportable(doc)
    ensures ToEvents(RawsOf(docs)) == ImportedAll(docs)
  {
    hide RawOf, ToEvent, Imported, Exportable;
    RawsByIndex(docs);
    if |docs| > 0 {
      var init, last := docs[..|docs| - 1], docs[|docs| - 1];
      assert last in docs;
      EventsAreReadBack(init);
      RawsByIndex(init);
      assert RawsOf(docs)[..|docs| - 1] == RawsOf(init);
      EventIsReadBack(last);
      assert ImportedAll(docs) == ImportedAll(init) + [Imported(last)];
    }
  }

  lemma {:induction false} RawsByIndex(docs: seq<EventDoc>)
    ensures |RawsOf(docs)| == |docs|
    ensures forall i | 0 <= i < |docs| :: RawsOf(docs)[i] == RawOf(docs[i])
  {
    hide RawOf;
    if |docs| > 0 {
      RawsByIndex(docs[1..]);
    }
  }

  lemma PrintedFolds(piece: Piece)
    requires Prints(piece)
    ensures PieceText(piece).Text?
  {
  }

  lemma WordPieceFolds(name: string, word: string)
    requires IsName(name) && IsWord(word)
    ensures PieceText(Folded(PropLine(name, word))).Text?
  {
    WordPrints(name, word);
    hide Prints, PropLine, PieceText;
    PrintedFolds(Folded(PropLine(name, word)));
  }

  lemma TimePieceFolds(name: string, ms: int, allDay: bool)
    requires IsName(name)
    ensures forall piece <- TimePieces(name, ms, allDay) :: PieceText(piece).Text?
  {
    FmtDtIsWord(ms, allDay);
    hide FmtDt, PropLine, FoldText;
    if !allDay {
      WordPieceFolds(name, FmtDt(ms, false));
    }
  }

  /** The texts of an event, and its times. */
  function EventTexts(doc: EventDoc): seq<Piece> {
    TextPieces(doc) + AboutPieces(doc)
  }

  function EventTimes(doc: EventDoc): seq<Piece> {
    TimePieces("DTSTART", doc.startMs, doc.allDay) + EndPieces(doc)
  }

  lemma InEvent(doc: EventDoc, piece: Piece)
    ensures piece in EventPieces(doc) <==>
              || piece in EventTexts(doc) || piece in EventTimes(doc)
              || (doc.remindBeforeMs.Some? && piece in AlarmPieces(doc.remindBeforeMs.value))
              || piece == StampPiece(doc) || piece == Plain("BEGIN:VEVENT") || piece == Plain("END:VEVENT")
  {
    hide TextPieces, AboutPieces, TimePieces, EndPieces, AlarmPieces, StampPiece;
  }

  lemma TextsAreWritten(doc: EventDoc)
    ensures (forall piece <- EventTexts(doc) :: PieceText(piece).Text?) <==> TextsFold(doc)
  {
    hide UidOf, Escape, PropLine, CanFold, Fold;
    var (uid, title) := (Folded(PropLine("UID", UidOf(doc))), Folded(PropLine("SUMMARY", Escape(doc.title))));
    var about := Folded(PropLine("DESCRIPTION", Escape(doc.description)));
    PropertyFolds("UID", UidOf(doc));
    PropertyFolds("SUMMARY", Escape(doc.title));
    PropertyFolds("DESCRIPTION", Escape(doc.description));
    assert uid in EventTexts(doc) && title in EventTexts(doc);
    assert doc.description != "" ==> about in EventTexts(doc);
  }

  /** Whatever its times are, an event is written exactly when its three texts fold. */
  lemma EventIsWritten(doc: EventDoc)
    ensures (forall piece <- EventPieces(doc) :: PieceText(piece).Text?) <==> TextsFold(doc)
  {
    TextsAreWritten(doc);
    OthersFold(doc);
    PlainIsWritten("BEGIN:VEVENT");
    PlainIsWritten("END:VEVENT");
    hide EventPieces, EventTexts, EventTimes, AlarmPieces, StampPiece, PieceText, TextsFold;
    forall piece: Piece
      ensures piece in EventTexts(doc) ==> piece in EventPieces(doc)
      ensures piece in EventPieces(doc) ==> piece in EventTexts(doc) || PieceText(piece).Text?
    {
      InEvent(doc, piece);
    }
  }

  lemma OthersFold(doc: EventDoc)
    ensures forall piece <- EventTimes(doc) :: PieceText(piece).Text?
    ensures doc.remindBeforeMs.Some? ==>
              forall piece <- AlarmPieces(doc.remindBeforeMs.value) :: PieceText(piece).Text?
    ensures PieceText(StampPiece(doc)).Text?
  {
    hide FmtDt, PropLine, TimePieces, FoldText, FmtDurationBefore;
    TimePieceFolds("DTSTART", doc.startMs, doc.allDay);
    if doc.endMs.Some? {
      TimePieceFolds("DTEND", doc.endMs.value, doc.allDay);
    }
    if doc.remindBeforeMs.Some? {
      DurationIsWord(doc.remindBeforeMs.value);
      WordPieceFolds("TRIGGER", FmtDurationBefore(doc.remindBeforeMs.value));
    }
    var ms := if doc.updatedAtMs < 0 then 0 else doc.updatedAtMs;
    FmtDtIsWord(ms, false);
    WordPieceFolds("DTSTAMP", FmtDt(ms, false));
  }

  lemma {:induction false} DocsAreWritten(docs: seq<EventDoc>)
    ensures (forall piece <- DocPieces(docs) :: PieceText(piece).Text?) <==> forall doc <- docs :: TextsFold(doc)
  {
    hide EventPieces, PieceText, TextsFold;
    if |docs| == 0 {
      assert PieceText(Plain(PropLine("END", "VCALENDAR"))).Text? by { PlainIsWritten(PropLine("END", "VCALENDAR")); }
    } else {
      EventIsWritten(docs[0]);
      DocsAreWritten(docs[1..]);
      assert docs[0] in docs;
      assert forall piece <- EventPieces(docs[0]) :: piece in DocPieces(docs);
      assert forall piece <- DocPieces(docs[1..]) :: piece in DocPieces(docs);
      assert forall doc <- docs[1..] :: doc in docs;
      assert forall doc <- docs :: doc == docs[0] || doc in docs[1..];
    }
  }

  lemma PlainIsWritten(line: string)
    ensures PieceText(Plain(line)).Text?
  {
  }

  /** The export of any documents is a text exactly when the texts of each of them fold; otherwise it
      panics or never returns. */
  lemma ExportSucceeds(docs: seq<EventDoc>)
    ensures TextOf(CalendarPieces(docs)).Text? <==> forall doc <- docs :: TextsFold(doc)
  {
    TextNeedsAll(CalendarPieces(docs));
    DocsAreWritten(docs);
    hide PieceText, TextsFold, TextOf, DocPieces;
    forall piece <- HEADER
      ensures PieceText(piece).Text?
    {
      PlainIsWritten(piece.line);
    }
    assert forall piece <- DocPieces(docs) :: piece in CalendarPieces(docs);
  }

  /** Every exportable list of documents is exported, and its text parses to one event for each
      document, in order, holding what `Imported` says. */
  lemma CalendarRoundTrip(docs: seq<EventDoc>)
    requires forall doc <- docs :: Exportable(doc)
    ensures TextOf(CalendarPieces(docs)).Text?
    ensures ParsedOf(TextOf(CalendarPieces(docs)).text) == Ok(ImportedAll(docs))
  {
    hide TextOf, CollectAll, Unfold, FoldAll, Foldable, Prints, Exportable, ToEvents, IsBegin, ImportedAll, DocPieces;
    var pieces := CalendarPieces(docs);
    HeaderPrints();
    DocsPrint(docs);
    TextOfLines(pieces);
    FoldRoundTrip(LinesOf(pieces));
    LinesOfConcat(HEADER, DocPieces(docs));
    HeaderIsIgnored();
    CollectConcat(NOTHING, LinesOf(HEADER), LinesOf(DocPieces(docs)));
    CollectDocs([], [], docs);
    assert [] + RawsOf(docs) == RawsOf(docs);
    EventsAreReadBack(docs);
    assert LinesOf(pieces)[0] == LinesOf(HEADER)[0] && LinesOf(pieces)[0] in LinesOf(pieces);
  }

  /** What the export holds that the import does not ask for: the lines a calendar must begin with, the time stamp
      of each event, and the action of each alarm. */
  lemma ExportIsConforming(docs: seq<EventDoc>, i: nat)
    requires (forall doc <- docs :: Exportable(doc)) && i < |docs|
    ensures TextOf(CalendarPieces(docs)).Text?
    ensures var lines := Unfold(TextOf(CalendarPieces(docs)).text);
            && |lines| > 4
            && lines[..4] == ["BEGIN:VCALENDAR", "VERSION:2.0", "PRODID:-//vynkor//calendar//EN",
                              "CALSCALE:GREGORIAN"]
            && lines[|lines| - 1] == "END:VCALENDAR"
            && |CollectAll(NOTHING, lines).events| == |docs|
            && IsStamped(docs[i], CollectAll(NOTHING, lines).events[i])
  {
    hide TextOf, CollectAll, Unfold, FoldAll, Foldable, Prints, Exportable, DocPieces, RawOf, IsStamped, LinesOf;
    var pieces := CalendarPieces(docs);
    HeaderPrints();
    DocsPrint(docs);
    TextOfLines(pieces);
    FoldRoundTrip(LinesOf(pieces));
    LinesOfConcat(HEADER, DocPieces(docs));
    HeaderIsIgnored();
    CollectConcat(NOTHING, LinesOf(HEADER), LinesOf(DocPieces(docs)));
    CollectDocs([], [], docs);
    assert [] + RawsOf(docs) == RawsOf(docs);
    RawsByIndex(docs);
    RawIsStamped(docs[i]);
    HeaderLines();
    LastLine(docs);
  }

  ghost predicate IsStamped(doc: EventDoc, raw: RawEvent) {
    var updated := if doc.updatedAtMs < 0 then 0 else doc.updatedAtMs;
    && (FourDigitYear(updated) ==>
          Get(raw.props, "DTSTAMP").Some? &&
          ParseDt(Get(raw.props, "DTSTAMP").value) == Ok((updated - updated % 1_000, false)))
    && (forall alarm <- raw.alarms :: Get(alarm, "ACTION") == Some("DISPLAY"))
  }

  lemma RawIsStamped(doc: EventDoc)
    ensures IsStamped(doc, RawOf(doc))
  {
    PropIs(doc, "DTSTAMP");
    var updated := if doc.updatedAtMs < 0 then 0 else doc.updatedAtMs;
    DateTimeRoundTrip(updated, false);
    hide FmtDt, ParseDt, BodyProps, FmtDurationBefore;
    if doc.remindBeforeMs.Some? {
      assert AlarmOf(doc.remindBeforeMs.value)[0] == ("ACTION", "DISPLAY");
    }
  }

  lemma HeaderLines()
    ensures LinesOf(HEADER) ==
            ["BEGIN:VCALENDAR", "VERSION:2.0", "PRODID:-//vynkor//calendar//EN", "CALSCALE:GREGORIAN"]
  {
    CalendarLine();
    ProductLine();
    ScaleLine();
    hide PropLine;
  }

  lemma CalendarLine()
    ensures PropLine("BEGIN", "VCALENDAR") == "BEGIN:VCALENDAR" && PropLine("VERSION", "2.0") == "VERSION:2.0"
  {
  }

  lemma ProductLine()
    ensures PropLine("PRODID", "-//vynkor//calendar//EN") == "PRODID:-//vynkor//calendar//EN"
  {
    var line := PropLine("PRODID", "-//vynkor//calendar//EN");
    assert line[..7] == "PRODID:" && line[7..] == "-//vynkor//calendar//EN";
  }

  lemma ScaleLine()
    ensures PropLine("CALSCALE", "GREGORIAN") == "CALSCALE:GREGORIAN"
  {
    var line := PropLine("CALSCALE", "GREGORIAN");
    assert line[..9] == "CALSCALE:" && line[9..] == "GREGORIAN";
  }

  lemma {:induction false} LastLine(docs: seq<EventDoc>)
    ensures |LinesOf(DocPieces(docs))| > 0
    ensures LinesOf(DocPieces(docs))[|LinesOf(DocPieces(docs))| - 1] == "END:VCALENDAR"
  {
    hide EventPieces, PropLine;
    if |docs| == 0 {
      EndLine();
    } else {
      LastLine(docs[1..]);
      LinesOfConcat(EventPieces(docs[0]), DocPieces(docs[1..]));
      LastOf(LinesOf(EventPieces(docs[0])), LinesOf(DocPieces(docs[1..])));
      hide LinesOf;
    }
  }

  lemma EndLine()
    ensures PropLine("END", "VCALENDAR") == "END:VCALENDAR"
  {
  }

  lemma LastOf(a: seq<string>, b: seq<string>)
    requires |b| > 0
    ensures |a + b| > 0 && (a + b)[|a + b| - 1] == b[|b| - 1]
  {
  }

  /** Documents that were not imported get UIDs of their own: two of them share one exactly when they share their
      id. An imported one keeps its UID. */
  lemma UidsAreOwn(a: EventDoc, b: EventDoc)
    ensures a.icsUid.None? && b.icsUid.None? ==> (UidOf(a) == UidOf(b) <==> a.id == b.id)
    ensures a.icsUid.Some? ==> UidOf(a) == a.icsUid.value
  {
    if a.icsUid.None? && b.icsUid.None? {
      var end := "@vynkor.calendar";
      var (x, y) := (UidOf(a), UidOf(b));
      assert x[4..|x| - |end|] == a.id && y[4..|y| - |end|] == b.id;
    }
  }

  // ---------------------------------------------------------------------------
  // When the round trip is exact.
  // ---------------------------------------------------------------------------

  /** What a document should be read back as: its own texts. */
  function Intended(doc: EventDoc): ParsedEvent {
    Imported(doc).(title := doc.title, description := doc.description, uid := UidOf(doc))
  }

  function IntendedAll(docs: seq<EventDoc>): seq<ParsedEvent> {
    seq(|docs|, i requires 0 <= i < |docs| => Intended(docs[i]))
  }

  /** No CR in the texts, and no backslash in the UID before its last character. */
  predicate KeepsTexts(doc: EventDoc) {
    '\r' !in doc.title && '\r' !in doc.description && !HasEscape(UidOf(doc))
  }

  lemma IntendedIsImported(doc: EventDoc)
    ensures Imported(doc) == Intended(doc) <==> KeepsTexts(doc)
  {
    EscapeRoundTrip(doc.title);
    EscapeRoundTrip(doc.description);
    UnescapeKeeps(UidOf(doc));
    hide OnlyLf, Unescape, UidOf, HasEscape, Floor, EndOf, ReminderOf;
  }

  lemma AllIntendedAreImported(docs: seq<EventDoc>)
    ensures ImportedAll(docs) == IntendedAll(docs) <==> forall doc <- docs :: KeepsTexts(doc)
  {
    hide KeepsTexts, Imported, Intended;
    forall doc <- docs
      ensures Imported(doc) == Intended(doc) <==> KeepsTexts(doc)
    {
      IntendedIsImported(doc);
    }
    if ImportedAll(docs) == IntendedAll(docs) {
      forall doc <- docs
        ensures KeepsTexts(doc)
      {
        var i :| 0 <= i < |docs| && docs[i] == doc;
        assert ImportedAll(docs)[i] == IntendedAll(docs)[i];
      }
    }
    if forall doc <- docs :: KeepsTexts(doc) {
      assert forall i | 0 <= i < |docs| :: docs[i] in docs;
      assert ImportedAll(docs) == IntendedAll(docs);
    }
  }

  /** The texts and the UIDs all come back as they were exactly when no title or description holds a CR and
      no UID a backslash before its last character. */
  lemma RoundTripIsExact(docs: seq<EventDoc>)
    requires forall doc <- docs :: Exportable(doc)
    ensures TextOf(CalendarPieces(docs)).Text?
    ensures ParsedOf(TextOf(CalendarPieces(docs)).text) == Ok(IntendedAll(docs)) <==>
              forall doc <- docs :: KeepsTexts(doc)
  {
    hide TextOf, ParsedOf, CalendarPieces, Exportable, KeepsTexts, ImportedAll, IntendedAll;
    CalendarRoundTrip(docs);
    AllIntendedAreImported(docs);
  }

  /** A UID with a backslash before its last character comes back shorter, so that an import takes the event
      for another one. */
  lemma BackslashUidIsLost(doc: EventDoc)
    requires Exportable(doc) && HasEscape(UidOf(doc))
    ensures |Imported(doc).uid| < |UidOf(doc)|
  {
    hide UidOf, Exportable;
    EscapeShortens(UidOf(doc));
  }

  lemma {:induction false} EscapeShortens(text: string)
    requires HasEscape(text)
    ensures |Unescape(text)| < |text|
  {
    if text[0] == '\\' {
      UnescapeIsShort(text[2..]);
    } else {
      assert text[..|text| - 1] == [text[0]] + text[1..][..|text| - 2];
      EscapeShortens(text[1..]);
    }
  }
}
