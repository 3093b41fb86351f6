/** Import and export of iCalendar documents, and the round trip between them. */
module Ics {
  import opened Civil
  import opened Text
  import opened DateTime
  import opened Duration
  import opened IcsText
  import opened Folding

  const MAX_REMIND_BEFORE_MS: int := 315_360_000_000

  // ---------------------------------------------------------------------------
  // Properties.
  // ---------------------------------------------------------------------------

  type Property = (string, string)

  /** The part of a property's left side that names it. */
  function NameOf(left: string): string {
    Upper(Trim(Split(left, ';')[0]))
  }

  /** Index of the first colon outside quotes, or the length. */
  function ColonFrom(line: string, i: nat, inQuotes: bool): (n: nat)
    requires i <= |line|
    ensures i <= n <= |line|
    decreases |line| - i
  {
    if i == |line| then i
    else if line[i] == '"' then ColonFrom(line, i + 1, !inQuotes)
    else if line[i] == ':' && !inQuotes then i
    else ColonFrom(line, i + 1, inQuotes)
  }

  function PropertyOf(line: string): Option<Property> {
    var n := ColonFrom(line, 0, false);
    if n == |line| then None else Some((NameOf(line[..n]), line[n + 1..]))
  }

  method SplitProperty(line: string) returns (property: Option<Property>)
    ensures property == PropertyOf(line)
  {
    var inQuotes := false;
    for i := 0 to |line|
      invariant ColonFrom(line, i, inQuotes) == ColonFrom(line, 0, false)
    {
      var ch := line[i];
      if ch == '"' {
        inQuotes := !inQuotes;
      } else if ch == ':' && !inQuotes {
        return Some((NameOf(line[..i]), line[i + 1..]));
      }
    }
    return None;
  }

  // ---------------------------------------------------------------------------
  // Collecting components.
  // ---------------------------------------------------------------------------

  datatype RawEvent = RawEvent(props: seq<Property>, alarms: seq<seq<Property>>)

  datatype Collection = Collection(
    events: seq<RawEvent>,
    current: Option<RawEvent>,
    inAlarm: bool,
    alarm: seq<Property>
  )

  function CollectProperty(c: Collection, name: string, value: string): Collection {
    if name == "BEGIN" && EqIgnoreCase(value, "VEVENT") then
      c.(current := Some(RawEvent([], [])))
    else if name == "BEGIN" && EqIgnoreCase(value, "VALARM") && c.current.Some? then
      c.(inAlarm := true, alarm := [])
    else if name == "END" && EqIgnoreCase(value, "VALARM") then
      var current := if c.inAlarm && c.current.Some?
                     then Some(c.current.value.(alarms := c.current.value.alarms + [c.alarm]))
                     else c.current;
      c.(current := current, inAlarm := false)
    else if name == "END" && EqIgnoreCase(value, "VEVENT") then
      if c.current.Some? then c.(events := c.events + [c.current.value], current := None) else c
    else if c.current.None? then c
    else if c.inAlarm then c.(alarm := c.alarm + [(name, Unescape(value))])
    else c.(current := Some(c.current.value.(props := c.current.value.props + [(name, Unescape(value))])))
  }

  function CollectLine(c: Collection, line: string): Collection {
    match PropertyOf(line)
    case None => c
    case Some((name, value)) => CollectProperty(c, name, value)
  }

  function CollectAll(c: Collection, lines: seq<string>): Collection {
    if |lines| == 0 then c
    else CollectLine(CollectAll(c, lines[..|lines| - 1]), lines[|lines| - 1])
  }

  const NOTHING: Collection := Collection([], None, false, [])

  method CollectEvents(lines: seq<string>) returns (events: seq<RawEvent>)
    ensures events == CollectAll(NOTHING, lines).events
  {
    events := [];
    var current: Option<RawEvent> := None;
    var inAlarm := false;
    var alarm: seq<Property> := [];
    for i := 0 to |lines|
      invariant Collection(events, current, inAlarm, alarm) == CollectAll(NOTHING, lines[..i])
    {
      assert lines[..i + 1][..i] == lines[..i];
      var property := SplitProperty(lines[i]);
      if property.Some? {
        var (name, value) := property.value;
        if name == "BEGIN" && EqIgnoreCase(value, "VEVENT") {
          current := Some(RawEvent([], []));
        } else if name == "BEGIN" && EqIgnoreCase(value, "VALARM") && current.Some? {
          inAlarm := true;
          alarm := [];
        } else if name == "END" && EqIgnoreCase(value, "VALARM") {
          if inAlarm && current.Some? {
            current := Some(current.value.(alarms := current.value.alarms + [alarm]));
          }
          inAlarm := false;
        } else if name == "END" && EqIgnoreCase(value, "VEVENT") {
          if current.Some? {
            events := events + [current.value];
            current := None;
          }
        } else if current.Some? {
          var text := UnescapeText(value);
          if inAlarm {
            alarm := alarm + [(name, text)];
          } else {
            current := Some(current.value.(props := current.value.props + [(name, text)]));
          }
        }
      }
    }
    assert lines[..|lines|] == lines;
  }

  // ---------------------------------------------------------------------------
  // Import.
  // ---------------------------------------------------------------------------

  datatype ParsedEvent = ParsedEvent(
    title: string,
    description: string,
    startMs: int,
    endMs: Option<int>,
    allDay: bool,
    remindBeforeMs: Option<int>,
    uid: string,
    rrule: Option<string>
  )

  function Get(props: seq<Property>, name: string): Option<string> {
    if |props| == 0 then None
    else if props[0].0 == name then Some(props[0].1)
    else Get(props[1..], name)
  }

  function GetOr(props: seq<Property>, name: string, default: string): string {
    match Get(props, name)
    case Some(value) => value
    case None => default
  }

  /** The reminder of one alarm, if it lies before the start. */
  function AlarmReminder(alarm: seq<Property>): Option<int> {
    match Get(alarm, "TRIGGER")
    case None => None
    case Some(trigger) =>
      match DurationOf(trigger)
      case None => None
      case Some(ms) =>
        if ms >= 0 then None
        else Some(if -ms < MAX_REMIND_BEFORE_MS then -ms else MAX_REMIND_BEFORE_MS)
  }

  function RemindBefore(alarms: seq<seq<Property>>): Option<int> {
    if |alarms| == 0 then None else
      match (AlarmReminder(alarms[0]), RemindBefore(alarms[1..]))
      case (Some(a), Some(b)) => Some(if a < b then a else b)
      case (Some(a), None) => Some(a)
      case (None, rest) => rest
  }

  /** An event without a usable start is skipped; an end before the start is dropped. */
  function ToEvent(raw: RawEvent): Option<ParsedEvent> {
    match Get(raw.props, "DTSTART")
    case None => None
    case Some(startValue) =>
      match ParseDt(startValue)
      case Err(_) => None
      case Ok((startMs, allDay)) =>
        var endMs := match Get(raw.props, "DTEND")
                     case None => None
                     case Some(value) =>
                       match ParseDt(value)
                       case Err(_) => None
                       case Ok((ms, _)) => if ms >= startMs then Some(ms) else None;
        var text := GetOr(raw.props, "DESCRIPTION", "");
        var location := GetOr(raw.props, "LOCATION", "");
        Some(ParsedEvent(
          GetOr(raw.props, "SUMMARY", "(untitled)"),
          if location == "" then text else "Location: " + location + "\n" + text,
          startMs, endMs, allDay, RemindBefore(raw.alarms), GetOr(raw.props, "UID", ""),
          Get(raw.props, "RRULE")))
  }

  function ToEvents(raws: seq<RawEvent>): seq<ParsedEvent> {
    if |raws| == 0 then [] else
      var before, last := ToEvents(raws[..|raws| - 1]), ToEvent(raws[|raws| - 1]);
      if last.Some? then before + [last.value] else before
  }

  predicate IsBegin(line: string) {
    match PropertyOf(line)
    case None => false
    case Some((name, _)) => name == "BEGIN"
  }

  function ParsedOf(input: string): Result<seq<ParsedEvent>> {
    var lines := Unfold(input);
    if exists line <- lines :: IsBegin(line)
    then Ok(ToEvents(CollectAll(NOTHING, lines).events))
    else Err("no VCALENDAR/VEVENT components found")
  }

  method ParseIcs(input: string) returns (result: Result<seq<ParsedEvent>>)
    ensures result == ParsedOf(input)
  {
    var lines := UnfoldLines(input);
    if !exists line <- lines :: IsBegin(line) {
      return Err("no VCALENDAR/VEVENT components found");
    }
    var raws := CollectEvents(lines);
    var out: seq<ParsedEvent> := [];
    for i := 0 to |raws|
      invariant out == ToEvents(raws[..i])
    {
      assert raws[..i + 1][..i] == raws[..i];
      var event := ToEvent(raws[i]);
      if event.None? {
        continue;
      }
      out := out + [event.value];
    }
    assert raws[..|raws|] == raws;
    return Ok(out);
  }

  // ---------------------------------------------------------------------------
  // Export.
  // ---------------------------------------------------------------------------

  /** The fields of a stored event that the export reads. */
  datatype EventDoc = EventDoc(
    id: string,
    title: string,
    description: string,
    startMs: int,
    endMs: Option<int>,
    allDay: bool,
    remindBeforeMs: Option<int>,
    icsUid: Option<string>,
    updatedAtMs: int
  )

  function UidOf(doc: EventDoc): string {
    match doc.icsUid
    case Some(uid) => uid
    case None => "cal-" + doc.id + "@vynkor.calendar"
  }

  /** A line of the export: folded, or written as it stands. */
  datatype Piece = Folded(line: string) | Plain(line: string)

  function PieceText(piece: Piece): Output {
    match piece
    case Folded(line) => FoldText(line)
    case Plain(line) => Output.Text(line + CRLF)
  }

  /** `text` followed by `rest`, where there is one. */
  function Append(text: string, rest: Output): Output {
    match rest
    case Text(more) => Output.Text(text + more)
    case _ => rest
  }

  /** The first line that cannot be folded decides. */
  function Then(first: Output, rest: Output): Output {
    match first
    case Text(text) => Append(text, rest)
    case _ => first
  }

  function TextOf(pieces: seq<Piece>): Output {
    if |pieces| == 0 then Output.Text("") else Then(PieceText(pieces[0]), TextOf(pieces[1..]))
  }

  function PropLine(name: string, value: string): string {
    name + ":" + value
  }

  function TimePieces(name: string, ms: int, allDay: bool): seq<Piece> {
    if allDay then [Plain(name + ";VALUE=DATE:" + FmtDt(ms, true))]
    else [Folded(PropLine(name, FmtDt(ms, false)))]
  }

  function AlarmPieces(ms: int): seq<Piece> {
    [Plain("BEGIN:VALARM"), Plain("ACTION:DISPLAY"), Folded(PropLine("TRIGGER", FmtDurationBefore(ms))),
     Plain("END:VALARM")]
  }

  function TextPieces(doc: EventDoc): seq<Piece> {
    [Folded(PropLine("UID", UidOf(doc))), Folded(PropLine("SUMMARY", Escape(doc.title)))]
  }

  function AboutPieces(doc: EventDoc): seq<Piece> {
    if doc.description == "" then [] else [Folded(PropLine("DESCRIPTION", Escape(doc.description)))]
  }

  function EndPieces(doc: EventDoc): seq<Piece> {
    if doc.endMs.None? then [] else TimePieces("DTEND", doc.endMs.value, doc.allDay)
  }

  /** The properties before the alarm and the time stamp. */
  function BodyPieces(doc: EventDoc): seq<Piece> {
    TextPieces(doc) + AboutPieces(doc) + TimePieces("DTSTART", doc.startMs, doc.allDay) + EndPieces(doc)
  }

  function StampPiece(doc: EventDoc): Piece {
    Folded(PropLine("DTSTAMP", FmtDt(if doc.updatedAtMs < 0 then 0 else doc.updatedAtMs, false)))
  }

  function EventPieces(doc: EventDoc): seq<Piece> {
    [Plain("BEGIN:VEVENT")] + BodyPieces(doc)
    + (if doc.remindBeforeMs.None? then [] else AlarmPieces(doc.remindBeforeMs.value))
    + [StampPiece(doc), Plain("END:VEVENT")]
  }

  const HEADER: seq<Piece> := [
    Plain(PropLine("BEGIN", "VCALENDAR")), Plain(PropLine("VERSION", "2.0")),
    Plain(PropLine("PRODID", "-//vynkor//calendar//EN")), Plain(PropLine("CALSCALE", "GREGORIAN"))]

  function DocPieces(docs: seq<EventDoc>): seq<Piece> {
    if |docs| == 0 then [Plain(PropLine("END", "VCALENDAR"))]
    else EventPieces(docs[0]) + DocPieces(docs[1..])
  }

  function CalendarPieces(docs: seq<EventDoc>): seq<Piece> {
    HEADER + DocPieces(docs)
  }

  /** An export panics or never returns where folding does. */
  method WritePieces(pieces: seq<Piece>) returns (out: Output)
    ensures out == TextOf(pieces)
  {
    hide FoldText;
    var text := "";
    assert pieces[0..] == pieces;
    AppendNothing(TextOf(pieces));
    for i := 0 to |pieces|
      invariant TextOf(pieces) == Append(text, TextOf(pieces[i..]))
    {
      assert pieces[i..][1..] == pieces[i + 1..];
      match pieces[i]
      case Plain(line) =>
        AppendTwice(text, line + CRLF, TextOf(pieces[i + 1..]));
        text := text + (line + CRLF);
      case Folded(line) =>
        var folded := FoldLine(line);
        if !folded.Text? {
          return folded;
        }
        AppendTwice(text, folded.text, TextOf(pieces[i + 1..]));
        text := text + folded.text;
    }
    assert text + "" == text;
    return Output.Text(text);
  }

  lemma AppendNothing(rest: Output)
    ensures Append("", rest) == rest
  {
    assert rest.Text? ==> "" + rest.text == rest.text;
  }

  lemma AppendTwice(a: string, b: string, rest: Output)
    ensures Append(a, Append(b, rest)) == Append(a + b, rest)
  {
    assert rest.Text? ==> a + (b + rest.text) == (a + b) + rest.text;
  }

  lemma {:induction false} TextOfConcat(a: seq<Piece>, b: seq<Piece>)
    ensures TextOf(a + b) == Then(TextOf(a), TextOf(b))
  {
    if |a| == 0 {
      assert a + b == b;
      AppendNothing(TextOf(b));
    } else {
      TextOfConcat(a[1..], b);
      assert (a + b)[1..] == a[1..] + b;
      hide PieceText;
      if PieceText(a[0]).Text? && TextOf(a[1..]).Text? {
        AppendTwice(PieceText(a[0]).text, TextOf(a[1..]).text, TextOf(b));
      }
    }
  }

  method GenerateIcs(docs: seq<EventDoc>) returns (out: Output)
    ensures out == TextOf(CalendarPieces(docs))
  {
    hide EventPieces, TextOf;
    PlainPrints(HEADER);
    TextOfConcat(HEADER, DocPieces(docs));
    var header := WritePieces(HEADER);
    var text := header.text;
    for i := 0 to |docs|
      invariant TextOf(CalendarPieces(docs)) == Append(text, TextOf(DocPieces(docs[i..])))
    {
      var doc := docs[i];
      assert docs[i..][1..] == docs[i + 1..];
      TextOfConcat(EventPieces(doc), DocPieces(docs[i + 1..]));
      var event := WritePieces(EventPieces(doc));
      if !event.Text? {
        return event;
      }
      AppendTwice(text, event.text, TextOf(DocPieces(docs[i + 1..])));
      text := text + event.text;
    }
    TextOfPlain(PropLine("END", "VCALENDAR"));
    return Output.Text(text + (PropLine("END", "VCALENDAR") + CRLF));
  }

  lemma TextOfPlain(line: string)
    ensures TextOf([Plain(line)]) == Output.Text(line + CRLF)
  {
    assert [Plain(line)][1..] == [];
    assert (line + CRLF) + "" == line + CRLF;
  }

  lemma {:induction false} PlainPrints(pieces: seq<Piece>)
    requires forall piece <- pieces :: piece.Plain?
    ensures TextOf(pieces).Text?
  {
    if |pieces| > 0 {
      assert pieces[0] in pieces;
      PlainPrints(pieces[1..]);
    }
  }

  /** The export is a text exactly when every line of it folds. */
  lemma {:induction false} TextNeedsAll(pieces: seq<Piece>)
    ensures TextOf(pieces).Text? <==> forall piece <- pieces :: PieceText(piece).Text?
  {
    hide PieceText;
    if |pieces| > 0 {
      TextNeedsAll(pieces[1..]);
      assert pieces[0] in pieces;
      assert forall piece <- pieces :: piece == pieces[0] || piece in pieces[1..];
      assert forall piece <- pieces[1..] :: piece in pieces;
    }
  }
}
