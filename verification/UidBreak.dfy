/** A UID is exported as it stands. One that holds a line break becomes several lines. Counting the characters of
    all UIDs, before the export and after the import, shows that they never come back whole. */
module UidBreak {
  import opened Text
  import opened DateTime
  import opened Duration
  import opened IcsText
  import opened Octets
  import opened Folding
  import opened Ics
  import opened IcsRoundTrip

  // ---------------------------------------------------------------------------
  // Lines of a text with line breaks inside, and how much of it they hold.
  // ---------------------------------------------------------------------------

  function Size(lines: seq<string>): nat {
    if |lines| == 0 then 0 else |lines[0]| + Size(lines[1..])
  }

  lemma {:induction false} SizeConcat(a: seq<string>, b: seq<string>)
    ensures Size(a + b) == Size(a) + Size(b)
  {
    if |a| == 0 {
      assert a + b == b;
    } else {
      SizeConcat(a[1..], b);
      assert (a + b)[1..] == a[1..] + b;
    }
  }

  lemma SizeNothing()
    ensures Size([]) == 0
  {
  }

  lemma SizeOne(line: string)
    ensures Size([line]) == |line|
  {
  }

  lemma {:induction false} SizeHas(lines: seq<string>, line: string)
    requires line in lines
    ensures |line| <= Size(lines)
  {
    if line != lines[0] {
      SizeHas(lines[1..], line);
    }
  }

  /** `\n` in it or not, as a number. */
  function Breaks(text: string): nat {
    if '\n' in text then 1 else 0
  }

  lemma BreaksConcat(a: string, b: string)
    ensures Breaks(a + b) <= Breaks(a) + Breaks(b)
  {
  }

  lemma {:induction false} IndexOfLonger(a: string, b: string)
    requires '\n' in a
    ensures IndexOf(a + b, '\n') == IndexOf(a, '\n') < |a|
  {
    var n := IndexOf(a, '\n');
    assert a[..|a|] == a;
    assert a == a[..n] + ['\n'] + a[n + 1..];
    assert a + b == a[..n] + ['\n'] + (a[n + 1..] + b);
    IndexOfAfter(a[..n], '\n', a[n + 1..] + b);
  }

  lemma LinesHead(text: string)
    requires '\n' in text
    ensures var n := IndexOf(text, '\n');
            n < |text| && Lines(text, '\r', '\n') == [StripCr(text[..n], '\r')] + Lines(text[n + 1..], '\r', '\n')
  {
    IndexOfLonger(text, "");
  }

  lemma {:induction false} LinesAppend(a: string, b: string)
    requires |a| > 0 && a[|a| - 1] == '\n'
    ensures Lines(a + b, '\r', '\n') == Lines(a, '\r', '\n') + Lines(b, '\r', '\n')
    decreases |a|
  {
    hide Lines, StripCr, IndexOf;
    var n := IndexOf(a, '\n');
    IndexOfLonger(a, b);
    LinesHead(a);
    LinesHead(a + b);
    var head, tail := [StripCr(a[..n], '\r')], a[n + 1..];
    assert (a + b)[..n] == a[..n] && (a + b)[n + 1..] == tail + b;
    if |tail| > 0 {
      assert tail[|tail| - 1] == a[|a| - 1];
      LinesAppend(tail, b);
    } else {
      assert tail + b == b;
      NoLines(tail);
    }
    Assoc(head, Lines(tail, '\r', '\n'), Lines(b, '\r', '\n'));
  }

  lemma NoLines(text: string)
    requires |text| == 0
    ensures Lines(text, '\r', '\n') == []
  {
  }

  /** The physical lines of one segment, line breaks inside it included. */
  function Raws(segment: string): seq<string> {
    Lines(segment + CRLF, '\r', '\n')
  }

  lemma {:induction false} RawsAreSmall(segment: string)
    ensures |Raws(segment)| > 0 && Size(Raws(segment)) + Breaks(segment) <= |segment|
    ensures |segment| > 0 && segment[0] !in "\r\n" ==> |Raws(segment)[0]| > 0 && Raws(segment)[0][0] == segment[0]
    decreases |segment|
  {
    var text := segment + CRLF;
    if '\n' !in segment {
      LinesOfTerminated(segment, "", '\r', '\n');
      assert segment + ['\r', '\n'] + "" == text;
      SizeOne(segment);
    } else {
      var n, tail := IndexOf(segment, '\n'), segment[IndexOf(segment, '\n') + 1..];
      IndexOfLonger(segment, CRLF);
      assert text[..n] == segment[..n] && text[n + 1..] == tail + CRLF;
      RawsAreSmall(tail);
      SizeConcat([StripCr(segment[..n], '\r')], Raws(tail));
    }
  }

  // ---------------------------------------------------------------------------
  // Unfolding adds nothing.
  // ---------------------------------------------------------------------------

  predicate Joins(lines: seq<string>, raw: string) {
    IsContinuation(raw) && |lines| > 0
  }

  lemma UnfoldNext(raws: seq<string>, raw: string)
    ensures var (lines, next) := (UnfoldRaw(raws), UnfoldRaw(raws + [raw]));
            && next == (if Joins(lines, raw)
                        then lines[|lines| - 1 := lines[|lines| - 1] + raw[1..]]
                        else lines + [raw])
            && Size(next) == Size(lines) + |raw| - (if Joins(lines, raw) then 1 else 0)
            && |next| > 0
  {
    var lines := UnfoldRaw(raws);
    assert (raws + [raw])[..|raws|] == raws;
    if Joins(lines, raw) {
      var init, last := lines[..|lines| - 1], lines[|lines| - 1];
      assert lines == init + [last];
      assert lines[|lines| - 1 := last + raw[1..]] == init + [last + raw[1..]];
      SizeConcat(init, [last]);
      SizeConcat(init, [last + raw[1..]]);
    } else {
      SizeConcat(lines, [raw]);
    }
  }

  lemma {:induction false} UnfoldGrows(a: seq<string>, b: seq<string>)
    ensures Size(UnfoldRaw(a + b)) + (if |b| > 0 && Joins(UnfoldRaw(a), b[0]) then 1 else 0) <=
            Size(UnfoldRaw(a)) + Size(b)
    ensures |UnfoldRaw(a)| + |b| > 0 ==> |UnfoldRaw(a + b)| > 0
    decreases |b|
  {
    hide UnfoldRaw, Size, Joins;
    if |b| == 0 {
      assert a + b == a;
    } else {
      var init, last := b[..|b| - 1], b[|b| - 1];
      assert a + b == (a + init) + [last] && b == init + [last];
      UnfoldGrows(a, init);
      UnfoldNext(a + init, last);
      SizeConcat(init, [last]);
      SizeOne(last);
      if |init| == 0 {
        assert a + init == a;
      }
    }
  }

  /** A line that does not start with a blank is joined to nothing before it. */
  lemma {:induction false} UnfoldApart(a: seq<string>, b: seq<string>)
    requires |b| > 0 && !IsContinuation(b[0])
    ensures UnfoldRaw(a + b) == UnfoldRaw(a) + UnfoldRaw(b) && |UnfoldRaw(b)| > 0
    decreases |b|
  {
    hide UnfoldRaw, Size;
    var init, last := b[..|b| - 1], b[|b| - 1];
    assert a + b == (a + init) + [last] && b == init + [last];
    UnfoldNext(a + init, last);
    UnfoldNext(init, last);
    if |init| == 0 {
      assert a + init == a && init == [];
      assert UnfoldRaw([]) == [] by { UnfoldNothing(); }
      assert [] + [last] == [last];
    } else {
      UnfoldApart(a, init);
    }
  }

  lemma UnfoldNothing()
    ensures UnfoldRaw([]) == []
  {
  }

  // ---------------------------------------------------------------------------
  // A folded line with a line break in it.
  // ---------------------------------------------------------------------------

  function RestRaws(rest: seq<string>): seq<string> {
    if |rest| == 0 then [] else Raws(" " + rest[0]) + RestRaws(rest[1..])
  }

  lemma {:induction false} ContinuationLines(rest: seq<string>, tail: string)
    ensures Lines(ContinuationText(rest) + tail, '\r', '\n') == RestRaws(rest) + Lines(tail, '\r', '\n')
  {
    hide Lines;
    if |rest| == 0 {
      assert ContinuationText(rest) + tail == tail;
    } else {
      ContinuationLines(rest[1..], tail);
      var head, more := " " + rest[0] + CRLF, ContinuationText(rest[1..]) + tail;
      assert ContinuationText(rest) + tail == head + more;
      LinesAppend(head, more);
    }
  }

  lemma {:induction false} RestIsSmall(a: seq<string>, rest: seq<string>)
    requires |UnfoldRaw(a)| > 0
    ensures Size(UnfoldRaw(a + RestRaws(rest))) + Breaks(Concat(rest)) <= Size(UnfoldRaw(a)) + |Concat(rest)|
    decreases |rest|
  {
    hide UnfoldRaw, Size, Raws, Breaks;
    if |rest| == 0 {
      assert a + RestRaws(rest) == a;
      NoBreak();
    } else {
      var head := Raws(" " + rest[0]);
      RawsAreSmall(" " + rest[0]);
      UnfoldGrows(a, head);
      RestIsSmall(a + head, rest[1..]);
      assert a + RestRaws(rest) == (a + head) + RestRaws(rest[1..]);
      BlankKeepsBreaks(rest[0]);
      BreaksConcat(rest[0], Concat(rest[1..]));
    }
  }

  lemma NoBreak()
    ensures Breaks("") == 0
  {
  }

  lemma BlankKeepsBreaks(text: string)
    ensures Breaks(" " + text) == Breaks(text)
  {
    assert forall c <- text :: c in " " + text;
  }

  /** The physical lines of a folded line, line breaks inside it included. */
  function Physical(line: string): seq<string> {
    if Fold(line).Parts? then Raws(FoldedAs(line).0) + RestRaws(FoldedAs(line).1) else []
  }

  lemma PhysicalLines(line: string, tail: string)
    requires Fold(line).Parts?
    ensures Lines(FoldText(line).text + tail, '\r', '\n') == Physical(line) + Lines(tail, '\r', '\n')
  {
    hide Fold, FoldedAs, Lines, Raws;
    var (first, rest) := FoldedAs(line);
    var more := ContinuationText(rest) + tail;
    FoldedText(line);
    assert (first + CRLF + ContinuationText(rest)) + tail == (first + CRLF) + more;
    LinesAppend(first + CRLF, more);
    ContinuationLines(rest, tail);
    RawsAre(first);
  }

  lemma FoldedText(line: string)
    requires Fold(line).Parts?
    ensures FoldText(line).text == FoldedAs(line).0 + CRLF + ContinuationText(FoldedAs(line).1)
  {
    hide Fold;
  }

  lemma RawsAre(segment: string)
    ensures Lines(segment + CRLF, '\r', '\n') == Raws(segment)
  {
  }

  /** What a line comes back as: one line or several. */
  function Came(line: string): seq<string> {
    UnfoldRaw(Physical(line))
  }

  predicate StartsApart(line: string) {
    |Physical(line)| > 0 && !IsContinuation(Physical(line)[0])
  }

  /** A line with a line break in it comes back smaller. */
  lemma BrokenIsSmall(line: string)
    requires Fold(line).Parts? && '\n' in line && line[0] !in " \t\r\n"
    ensures StartsApart(line) && Size(Came(line)) < |line|
  {
    var (first, rest) := FoldedAs(line);
    FoldedLinesAreShort(line);
    FirstSegment(line);
    hide Fold, FoldedAs, UnfoldRaw, Size, Breaks, RawLines, Raws;
    RawsAreSmall(first);
    assert !IsContinuation(Raws(first)[0]);
    hide IsContinuation;
    UnfoldAlone(Raws(first));
    RestIsSmall(Raws(first), rest);
    BreaksConcat(first, Concat(rest));
    BreakIn(line);
  }

  /** A line without one comes back as it was. */
  lemma WholeComesBack(line: string)
    requires Foldable(line)
    ensures StartsApart(line) && Came(line) == [line]
  {
    LinesOfFolded(line, "");
    FirstSegment(line);
    FirstIs(line);
    hide Lines, Fold, FoldText, FoldedAs, RawLines, UnfoldRaw, Physical, OneLine;
    PhysicalLines(line, "");
    NoLines("");
    assert Physical(line) + [] == Physical(line) && RawOfLine(line) + [] == RawOfLine(line);
    UnfoldLine([], line);
    UnfoldNothing();
    assert [] + RawOfLine(line) == RawOfLine(line) && [] + [line] == [line];
  }

  lemma FirstIs(line: string)
    requires Fold(line).Parts?
    ensures |RawOfLine(line)| > 0 && RawOfLine(line)[0] == FoldedAs(line).0
  {
    hide Fold;
  }

  lemma UnfoldAlone(raws: seq<string>)
    requires |raws| > 0
    ensures |UnfoldRaw(raws)| > 0 && Size(UnfoldRaw(raws)) <= Size(raws)
  {
    hide Size;
    UnfoldGrows([], raws);
    SizeNothing();
    assert [] + raws == raws;
  }

  lemma BreakIn(line: string)
    requires '\n' in line
    ensures Breaks(line) == 1
  {
  }

  // ---------------------------------------------------------------------------
  // The lines of an export as the import sees them.
  // ---------------------------------------------------------------------------

  /** A piece that the import can tell apart from the piece before it. */
  ghost predicate Arrives(piece: Piece) {
    PieceText(piece) == FoldText(piece.line) && Fold(piece.line).Parts? && StartsApart(piece.line)
  }

  function PhysicalAll(pieces: seq<Piece>): seq<string> {
    if |pieces| == 0 then [] else Physical(pieces[0].line) + PhysicalAll(pieces[1..])
  }

  function CameAll(pieces: seq<Piece>): seq<string> {
    if |pieces| == 0 then [] else Came(pieces[0].line) + CameAll(pieces[1..])
  }

  lemma {:induction false} CameConcat(a: seq<Piece>, b: seq<Piece>)
    ensures CameAll(a + b) == CameAll(a) + CameAll(b)
  {
    hide Came;
    if |a| == 0 {
      assert a + b == b && [] + CameAll(b) == CameAll(b);
    } else {
      CameConcat(a[1..], b);
      HeadAndTail(a, b);
      Assoc(Came(a[0].line), CameAll(a[1..]), CameAll(b));
    }
  }

  lemma CameOne(piece: Piece)
    ensures CameAll([piece]) == Came(piece.line)
  {
    hide Came;
    assert [piece][1..] == [] && Came(piece.line) + [] == Came(piece.line);
  }

  lemma {:induction false} AllLines(pieces: seq<Piece>)
    requires forall piece <- pieces :: Arrives(piece)
    ensures TextOf(pieces).Text? && Lines(TextOf(pieces).text, '\r', '\n') == PhysicalAll(pieces)
  {
    if |pieces| == 0 {
      NoLines("");
    } else {
      assert Arrives(pieces[0]);
      AllLines(pieces[1..]);
      FoldedText(pieces[0].line);
      hide Lines, Fold, Physical, StartsApart;
      PhysicalLines(pieces[0].line, TextOf(pieces[1..]).text);
    }
  }

  lemma {:induction false} AllApart(pieces: seq<Piece>)
    requires forall piece <- pieces :: Arrives(piece)
    ensures UnfoldRaw(PhysicalAll(pieces)) == CameAll(pieces)
    ensures |pieces| > 0 ==> |PhysicalAll(pieces)| > 0 && !IsContinuation(PhysicalAll(pieces)[0])
  {
    if |pieces| == 0 {
      UnfoldNothing();
    } else {
      assert Arrives(pieces[0]);
      hide PieceText, Physical, UnfoldRaw, IsContinuation;
      AllApart(pieces[1..]);
      var head, more := Physical(pieces[0].line), PhysicalAll(pieces[1..]);
      if |pieces| == 1 {
        assert head + more == head && Came(pieces[0].line) + [] == Came(pieces[0].line);
      } else {
        UnfoldApart(head, more);
      }
    }
  }

  lemma PrintedArrives(piece: Piece)
    requires Prints(piece)
    ensures Arrives(piece) && Came(piece.line) == [piece.line]
  {
    hide Came, StartsApart, Physical;
    WholeComesBack(piece.line);
    assert (piece.line + CRLF) + ContinuationText([]) == piece.line + CRLF;
  }

  // ---------------------------------------------------------------------------
  // How many characters of a UID a line gives.
  // ---------------------------------------------------------------------------

  function Load(line: string): nat {
    match PropertyOf(line)
    case None => 0
    case Some((name, value)) => if name == "UID" then |Unescape(value)| else 0
  }

  function LoadAll(lines: seq<string>): nat {
    if |lines| == 0 then 0 else Load(lines[0]) + LoadAll(lines[1..])
  }

  lemma {:induction false} LoadConcat(a: seq<string>, b: seq<string>)
    ensures LoadAll(a + b) == LoadAll(a) + LoadAll(b)
  {
    hide Load;
    if |a| == 0 {
      assert a + b == b;
    } else {
      LoadConcat(a[1..], b);
      HeadAndTail(a, b);
    }
  }

  lemma LoadOne(line: string)
    ensures LoadAll([line]) == Load(line)
  {
    hide Load;
    assert [line][1..] == [];
  }

  /** The name and the colon take at least four characters. */
  lemma LoadIsShort(line: string)
    ensures Load(line) == 0 || Load(line) + 4 <= |line|
  {
    var n := ColonFrom(line, 0, false);
    NameIsShort(line[..n]);
    if n < |line| {
      UnescapeIsShort(line[n + 1..]);
    }
  }

  lemma {:induction false} LoadsAreShort(lines: seq<string>)
    ensures LoadAll(lines) == 0 || LoadAll(lines) + 4 <= Size(lines)
  {
    hide Load;
    if |lines| > 0 {
      LoadIsShort(lines[0]);
      LoadsAreShort(lines[1..]);
    }
  }

  lemma NameIsShort(left: string)
    ensures |NameOf(left)| <= |left|
  {
    var n := IndexOf(left, ';');
    TrimIsShort(Split(left, ';')[0]);
  }

  lemma TrimIsShort(text: string)
    ensures |Trim(text)| <= |text|
  {
    TrimStartIsShort(text);
    TrimEndIsShort(TrimStart(text));
  }

  lemma {:induction false} TrimStartIsShort(text: string)
    ensures |TrimStart(text)| <= |text|
  {
    if |text| > 0 && IsWhite(text[0]) {
      TrimStartIsShort(text[1..]);
    }
  }

  lemma {:induction false} TrimEndIsShort(text: string)
    ensures |TrimEnd(text)| <= |text|
  {
    if |text| > 0 && IsWhite(text[|text| - 1]) {
      TrimEndIsShort(text[..|text| - 1]);
    }
  }

  /** A UID that no line break and no backslash spoils. */
  predicate IsPlainUid(uid: string) {
    '\n' !in uid && !HasEscape(uid)
  }

  lemma UnescapeShortens(text: string)
    ensures |Unescape(text)| <= |text|
    ensures HasEscape(text) ==> |Unescape(text)| < |text|
  {
    UnescapeIsShort(text);
    if HasEscape(text) {
      EscapeShortens(text);
    }
  }

  lemma UidStarts(uid: string)
    ensures var line := PropLine("UID", uid);
            |line| == |uid| + 4 && line[0] !in " \t\r\n" && ('\n' in uid ==> '\n' in line)
  {
    assert forall c <- uid :: c in PropLine("UID", uid);
  }

  /** The line of a UID gives back its characters, fewer when something spoils it. */
  lemma UidLoad(uid: string)
    requires CanFold("UID", uid)
    ensures var line := PropLine("UID", uid);
            && Arrives(Folded(line)) && LoadAll(Came(line)) <= |uid|
            && (!IsPlainUid(uid) ==> LoadAll(Came(line)) < |uid|)
  {
    var line := PropLine("UID", uid);
    hide Fold, Came, CanFold, StartsApart, Physical, Load, Size, HasEscape, Prints;
    PropertyFolds("UID", uid);
    UidStarts(uid);
    if '\n' in uid {
      BrokenIsSmall(line);
      LoadsAreShort(Came(line));
    } else {
      PropertyPrints("UID", uid);
      PrintedArrives(Folded(line));
      LoadOne(line);
      PlainUidLoad(uid);
      UnescapeShortens(uid);
    }
  }

  lemma PlainUidLoad(uid: string)
    ensures Load(PropLine("UID", uid)) == |Unescape(uid)|
  {
    PropertyOfPlain("UID", uid);
  }

  // ---------------------------------------------------------------------------
  // No other line gives any.
  // ---------------------------------------------------------------------------

  ghost predicate IsOther(piece: Piece) {
    Prints(piece) && Load(piece.line) == 0
  }

  lemma {:induction false} OthersLoad(pieces: seq<Piece>)
    requires forall piece <- pieces :: IsOther(piece)
    ensures forall piece <- pieces :: Arrives(piece)
    ensures LoadAll(CameAll(pieces)) == 0
  {
    hide Prints, Load, Came, Arrives;
    if |pieces| > 0 {
      assert IsOther(pieces[0]);
      PrintedArrives(pieces[0]);
      LoadOne(pieces[0].line);
      assert forall piece <- pieces[1..] :: piece in pieces;
      OthersLoad(pieces[1..]);
      LoadConcat(Came(pieces[0].line), CameAll(pieces[1..]));
      assert forall piece <- pieces :: piece == pieces[0] || piece in pieces[1..];
    }
  }

  lemma OtherName(name: string, value: string)
    requires IsName(name) && name != "UID"
    ensures Load(PropLine(name, value)) == 0 && Load(name + ";VALUE=DATE:" + value) == 0
  {
    PropertyOfPlain(name, value);
    PropertyOfDate(name, value);
    hide PropertyOf;
  }

  lemma OtherTimes(name: string, ms: int, allDay: bool)
    requires IsName(name) && name != "UID"
    ensures forall piece <- TimePieces(name, ms, allDay) :: Load(piece.line) == 0
  {
    hide Load, FmtDt, PropLine;
    OtherName(name, FmtDt(ms, allDay));
  }

  lemma WrittenNames()
    ensures "BEGIN:VEVENT" == PropLine("BEGIN", "VEVENT") && "END:VEVENT" == PropLine("END", "VEVENT")
    ensures "BEGIN:VALARM" == PropLine("BEGIN", "VALARM") && "END:VALARM" == PropLine("END", "VALARM")
    ensures "ACTION:DISPLAY" == PropLine("ACTION", "DISPLAY")
  {
  }

  lemma AfterUidIsOther(doc: EventDoc)
    ensures forall piece <- AfterUid(doc) :: Load(piece.line) == 0
  {
    hide Load, PropLine, Escape, TimePieces;
    OtherName("SUMMARY", Escape(doc.title));
    OtherName("DESCRIPTION", Escape(doc.description));
    OtherTimes("DTSTART", doc.startMs, doc.allDay);
    if doc.endMs.Some? {
      OtherTimes("DTEND", doc.endMs.value, doc.allDay);
    }
  }

  lemma AlarmIsOther(ms: int)
    ensures forall piece <- AlarmPieces(ms) :: Load(piece.line) == 0
  {
    hide Load, PropLine, FmtDurationBefore;
    WrittenNames();
    OtherName("BEGIN", "VALARM");
    OtherName("ACTION", "DISPLAY");
    OtherName("TRIGGER", FmtDurationBefore(ms));
    OtherName("END", "VALARM");
  }

  /** What is written after the UID. */
  function TailPieces(doc: EventDoc): seq<Piece> {
    AfterUid(doc) + (if doc.remindBeforeMs.None? then [] else AlarmPieces(doc.remindBeforeMs.value))
    + [StampPiece(doc), Plain("END:VEVENT")]
  }

  lemma EventIsUidFirst(doc: EventDoc)
    ensures EventPieces(doc) == [Plain("BEGIN:VEVENT")] + ([Folded(PropLine("UID", UidOf(doc)))] + TailPieces(doc))
  {
    BodyIsUidFirst(doc);
    hide BodyPieces, AfterUid, AlarmPieces, StampPiece, PropLine, UidOf;
  }

  lemma TailIsOther(doc: EventDoc)
    requires TextsFold(doc) && TimesPrint(doc)
    ensures forall piece <- TailPieces(doc) :: IsOther(piece)
  {
    hide Prints, Load, AfterUid, AlarmPieces, StampPiece, TextsFold, TimesPrint;
    AfterUidPrints(doc);
    AfterUidIsOther(doc);
    if doc.remindBeforeMs.Some? {
      AlarmPrints(doc.remindBeforeMs.value);
      AlarmIsOther(doc.remindBeforeMs.value);
    }
    StampPrints(doc);
    StampIsOther(doc);
    IcsRoundTrip.PlainPrints("END:VEVENT");
    PlainIsOther();
  }

  lemma StampIsOther(doc: EventDoc)
    ensures Load(StampPiece(doc).line) == 0
  {
    hide Load, PropLine, FmtDt;
    OtherName("DTSTAMP", FmtDt(if doc.updatedAtMs < 0 then 0 else doc.updatedAtMs, false));
  }

  lemma PlainIsOther()
    ensures Load("BEGIN:VEVENT") == 0 && Load("END:VEVENT") == 0
    ensures IsOther(Plain(PropLine("END", "VCALENDAR")))
    ensures forall piece <- HEADER :: IsOther(piece)
  {
    hide Load, Prints, PropLine;
    WrittenNames();
    HeaderPrints();
    OtherName("BEGIN", "VEVENT");
    OtherName("END", "VEVENT");
    OtherName("BEGIN", "VCALENDAR");
    OtherName("VERSION", "2.0");
    OtherName("PRODID", "-//vynkor//calendar//EN");
    OtherName("CALSCALE", "GREGORIAN");
    OtherName("END", "VCALENDAR");
    EndPrints();
  }

  lemma EndPrints()
    ensures Prints(Plain(PropLine("END", "VCALENDAR")))
  {
    hide Prints;
    IcsRoundTrip.PlainPrints(PropLine("END", "VCALENDAR"));
  }

  /** One piece between others that give nothing. */
  lemma LoadAround(first: Piece, uid: Piece, tail: seq<Piece>)
    requires IsOther(first) && Arrives(uid) && forall piece <- tail :: IsOther(piece)
    ensures forall piece <- [first] + ([uid] + tail) :: Arrives(piece)
    ensures LoadAll(CameAll([first] + ([uid] + tail))) == LoadAll(Came(uid.line))
  {
    hide Came, Arrives, IsOther, CameAll, LoadAll;
    OthersLoad([first]);
    OthersLoad(tail);
    CameConcat([first], [uid] + tail);
    CameConcat([uid], tail);
    CameOne(uid);
    LoadConcat(CameAll([first]), CameAll([uid] + tail));
    LoadConcat(CameAll([uid]), CameAll(tail));
  }

  lemma EventLoad(doc: EventDoc)
    requires TextsFold(doc) && TimesPrint(doc)
    ensures forall piece <- EventPieces(doc) :: Arrives(piece)
    ensures LoadAll(CameAll(EventPieces(doc))) <= |UidOf(doc)|
    ensures !IsPlainUid(UidOf(doc)) ==> LoadAll(CameAll(EventPieces(doc))) < |UidOf(doc)|
  {
    UidCanFold(doc);
    hide *;
    UidLoad(UidOf(doc));
    BeginIsOther();
    TailIsOther(doc);
    EventIsUidFirst(doc);
    LoadAround(Plain("BEGIN:VEVENT"), Folded(PropLine("UID", UidOf(doc))), TailPieces(doc));
  }

  lemma BeginIsOther()
    ensures IsOther(Plain("BEGIN:VEVENT"))
  {
    hide Load, Prints;
    IcsRoundTrip.PlainPrints("BEGIN:VEVENT");
    PlainIsOther();
  }

  lemma UidCanFold(doc: EventDoc)
    requires TextsFold(doc)
    ensures CanFold("UID", UidOf(doc))
  {
  }

  function DocUids(docs: seq<EventDoc>): seq<string> {
    seq(|docs|, i requires 0 <= i < |docs| => UidOf(docs[i]))
  }

  ghost predicate Written(docs: seq<EventDoc>) {
    forall doc <- docs :: TextsFold(doc) && TimesPrint(doc)
  }

  lemma {:induction false} DocsLoad(docs: seq<EventDoc>)
    requires Written(docs)
    ensures forall piece <- DocPieces(docs) :: Arrives(piece)
    ensures LoadAll(CameAll(DocPieces(docs))) <= Size(DocUids(docs))
    ensures (exists doc <- docs :: !IsPlainUid(UidOf(doc))) ==> LoadAll(CameAll(DocPieces(docs))) < Size(DocUids(docs))
  {
    hide Arrives, LoadAll, CameAll, EventPieces, UidOf, IsPlainUid, TextsFold, TimesPrint, IsOther, PropLine;
    if |docs| == 0 {
      PlainIsOther();
      OthersLoad([Plain(PropLine("END", "VCALENDAR"))]);
    } else {
      assert docs[0] in docs;
      assert forall doc <- docs[1..] :: doc in docs;
      EventLoad(docs[0]);
      DocsLoad(docs[1..]);
      CameConcat(EventPieces(docs[0]), DocPieces(docs[1..]));
      LoadConcat(CameAll(EventPieces(docs[0])), CameAll(DocPieces(docs[1..])));
      assert DocUids(docs)[1..] == DocUids(docs[1..]);
      assert forall doc <- docs :: doc == docs[0] || doc in docs[1..];
    }
  }

  lemma CalendarLoad(docs: seq<EventDoc>)
    requires Written(docs)
    ensures TextOf(CalendarPieces(docs)).Text?
    ensures var lines := Unfold(TextOf(CalendarPieces(docs)).text);
            && (exists line <- lines :: IsBegin(line))
            && LoadAll(lines) <= Size(DocUids(docs))
            && ((exists doc <- docs :: !IsPlainUid(UidOf(doc))) ==> LoadAll(lines) < Size(DocUids(docs)))
  {
    hide Arrives, LoadAll, CameAll, DocPieces, UidOf, IsPlainUid, Written, IsOther, TextOf, Lines, UnfoldRaw,
      PhysicalAll, IsBegin, Size, DocUids;
    var pieces := CalendarPieces(docs);
    PlainIsOther();
    OthersLoad(HEADER);
    DocsLoad(docs);
    AllLines(pieces);
    AllApart(pieces);
    CameConcat(HEADER, DocPieces(docs));
    LoadConcat(CameAll(HEADER), CameAll(DocPieces(docs)));
    HeaderComes();
    assert CameAll(pieces)[0] in CameAll(pieces);
  }

  lemma HeaderComes()
    ensures |CameAll(HEADER)| > 0 && IsBegin(CameAll(HEADER)[0])
  {
    HeaderPrints();
    HeaderIsIgnored();
    hide Prints, IsBegin, Came, PropLine, CollectAll;
    PrintedArrives(HEADER[0]);
    assert LinesOf(HEADER)[0] == HEADER[0].line;
  }

  // ---------------------------------------------------------------------------
  // The import adds nothing to what the lines give.
  // ---------------------------------------------------------------------------

  function Held(props: seq<Property>): nat {
    if |props| == 0 then 0
    else Held(props[..|props| - 1]) + (if props[|props| - 1].0 == "UID" then |props[|props| - 1].1| else 0)
  }

  function HeldBy(raws: seq<RawEvent>): nat {
    if |raws| == 0 then 0 else HeldBy(raws[..|raws| - 1]) + Held(raws[|raws| - 1].props)
  }

  function Total(c: Collection): nat {
    HeldBy(c.events) + (if c.current.Some? then Held(c.current.value.props) else 0)
  }

  lemma HeldMore(props: seq<Property>, name: string, value: string)
    ensures Held([]) == 0
    ensures Held(props + [(name, value)]) == Held(props) + (if name == "UID" then |value| else 0)
  {
    assert (props + [(name, value)])[..|props|] == props;
  }

  lemma HeldByMore(raws: seq<RawEvent>, raw: RawEvent)
    ensures HeldBy(raws + [raw]) == HeldBy(raws) + Held(raw.props)
  {
    hide Held;
    assert (raws + [raw])[..|raws|] == raws;
  }

  lemma CollectLoad(c: Collection, line: string)
    ensures Total(CollectLine(c, line)) <= Total(c) + Load(line)
  {
    hide PropertyOf, Unescape, EqIgnoreCase, Held, HeldBy;
    if PropertyOf(line).Some? && c.current.Some? {
      var (name, value) := PropertyOf(line).value;
      HeldMore(c.current.value.props, name, Unescape(value));
      HeldByMore(c.events, c.current.value);
    }
    HeldMore([], "", "");
  }

  lemma {:induction false} CollectAllLoad(lines: seq<string>)
    ensures Total(CollectAll(NOTHING, lines)) <= LoadAll(lines)
  {
    if |lines| > 0 {
      hide Load, CollectLine, Total;
      var init, last := lines[..|lines| - 1], lines[|lines| - 1];
      assert lines == init + [last];
      CollectAllLoad(init);
      CollectLoad(CollectAll(NOTHING, init), last);
      LoadConcat(init, [last]);
      LoadOne(last);
    }
  }

  lemma {:induction false} GetIsHeld(props: seq<Property>)
    ensures |GetOr(props, "UID", "")| <= Held(props)
  {
    if |props| > 0 {
      var init, last := props[..|props| - 1], props[|props| - 1];
      GetIsHeld(init);
      GetLast(init, last);
      assert props == init + [last];
    }
  }

  lemma {:induction false} GetLast(props: seq<Property>, last: Property)
    ensures Get(props + [last], "UID") ==
            if Get(props, "UID").Some? then Get(props, "UID")
            else if last.0 == "UID" then Some(last.1) else None
  {
    if |props| == 0 {
      assert props + [last] == [last];
    } else {
      GetLast(props[1..], last);
      assert (props + [last])[1..] == props[1..] + [last];
    }
  }

  function EventUids(events: seq<ParsedEvent>): seq<string> {
    seq(|events|, i requires 0 <= i < |events| => events[i].uid)
  }

  lemma {:induction false} EventsLoad(raws: seq<RawEvent>)
    ensures Size(EventUids(ToEvents(raws))) <= HeldBy(raws)
  {
    hide ToEvent, Held;
    if |raws| > 0 {
      var init, last := raws[..|raws| - 1], raws[|raws| - 1];
      EventsLoad(init);
      if ToEvent(last).Some? {
        var uid := ToEvent(last).value.uid;
        assert EventUids(ToEvents(raws)) == EventUids(ToEvents(init)) + [uid];
        SizeConcat(EventUids(ToEvents(init)), [uid]);
        SizeOne(uid);
        UidIsHeld(last);
      }
    }
  }

  lemma UidIsHeld(raw: RawEvent)
    requires ToEvent(raw).Some?
    ensures |ToEvent(raw).value.uid| <= Held(raw.props)
  {
    GetIsHeld(raw.props);
    hide Get, GetOr, Held, ParseDt, RemindBefore;
  }

  lemma ParsedLoad(text: string)
    requires exists line <- Unfold(text) :: IsBegin(line)
    ensures ParsedOf(text).Ok? && Size(EventUids(ParsedOf(text).value)) <= LoadAll(Unfold(text))
  {
    hide Unfold, IsBegin, CollectAll, ToEvents, HeldBy, Held, Size, EventUids, LoadAll;
    CollectAllLoad(Unfold(text));
    EventsLoad(CollectAll(NOTHING, Unfold(text)).events);
  }

  // ---------------------------------------------------------------------------
  // What comes of the UIDs.
  // ---------------------------------------------------------------------------

  /** The UIDs that are read back hold at most as many characters as those written, and exactly as many when no
      UID holds a line break, or a backslash before its last character. */
  lemma UidsAreKept(docs: seq<EventDoc>)
    requires Written(docs)
    ensures TextOf(CalendarPieces(docs)).Text?
    ensures var events := ParsedOf(TextOf(CalendarPieces(docs)).text);
            && events.Ok? && Size(EventUids(events.value)) <= Size(DocUids(docs))
            && (Size(EventUids(events.value)) == Size(DocUids(docs)) <==> forall doc <- docs :: IsPlainUid(UidOf(doc)))
  {
    hide TextOf, CalendarPieces, ParsedOf, Unfold, IsBegin, LoadAll, Size, EventUids, DocUids, UidOf, IsPlainUid;
    CalendarLoad(docs);
    ParsedLoad(TextOf(CalendarPieces(docs)).text);
    if forall doc <- docs :: IsPlainUid(UidOf(doc)) {
      PlainUidsComeBack(docs);
    }
  }

  lemma PlainUidsComeBack(docs: seq<EventDoc>)
    requires Written(docs) && forall doc <- docs :: IsPlainUid(UidOf(doc))
    ensures TextOf(CalendarPieces(docs)).Text?
    ensures var events := ParsedOf(TextOf(CalendarPieces(docs)).text);
            events.Ok? && EventUids(events.value) == DocUids(docs)
  {
    hide TextOf, CalendarPieces, ParsedOf, UidOf, HasEscape, TextsFold, TimesPrint, Unescape, OnlyLf, Floor,
      IcsRoundTrip.EndOf, ReminderOf;
    CalendarRoundTrip(docs);
    forall i | 0 <= i < |docs|
      ensures ImportedAll(docs)[i].uid == UidOf(docs[i])
    {
      UnescapeKeeps(UidOf(docs[i]));
    }
  }

  /** Every document comes back as it was exactly when no title or description holds a CR, and no UID a line
      break, or a backslash before its last character. */
  lemma CalendarIsExact(docs: seq<EventDoc>)
    requires Written(docs)
    ensures TextOf(CalendarPieces(docs)).Text?
    ensures ParsedOf(TextOf(CalendarPieces(docs)).text) == Ok(IntendedAll(docs)) <==>
              forall doc <- docs :: KeepsTexts(doc) && '\n' !in UidOf(doc)
  {
    hide TextOf, ParsedOf, CalendarPieces, UidOf, TextsFold, TimesPrint, HasEscape, IntendedAll, Size, EventUids,
      DocUids;
    UidsAreKept(docs);
    IntendedUids(docs);
    if forall doc <- docs :: '\n' !in UidOf(doc) {
      RoundTripIsExact(docs);
    }
  }

  lemma IntendedUids(docs: seq<EventDoc>)
    ensures EventUids(IntendedAll(docs)) == DocUids(docs)
  {
    hide UidOf, Imported;
  }

  /** The export of a document whose UID holds a line break is read, but no event of it has that UID. */
  lemma BrokenUidIsLost(doc: EventDoc)
    requires Written([doc]) && '\n' in UidOf(doc)
    ensures TextOf(CalendarPieces([doc])).Text?
    ensures var events := ParsedOf(TextOf(CalendarPieces([doc])).text);
            events.Ok? && forall event <- events.value :: |event.uid| < |UidOf(doc)|
  {
    hide TextOf, ParsedOf, CalendarPieces, UidOf, TextsFold, TimesPrint, HasEscape, Size;
    UidsAreKept([doc]);
    assert doc in [doc];
    assert DocUids([doc]) == [UidOf(doc)];
    SizeOne(UidOf(doc));
    var events := ParsedOf(TextOf(CalendarPieces([doc])).text).value;
    forall event <- events
      ensures |event.uid| < |UidOf(doc)|
    {
      var i :| 0 <= i < |events| && events[i] == event;
      assert EventUids(events)[i] in EventUids(events);
      SizeHas(EventUids(events), event.uid);
    }
  }
}
