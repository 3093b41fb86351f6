/** Folding and unfolding of iCalendar lines (section 3.1 of RFC 5545). Folding counts octets, and can try to
    cut a character in two. */
module Folding {
  import opened Text
  import opened IcsText
  import opened Octets

  // ---------------------------------------------------------------------------
  // Folding.
  // ---------------------------------------------------------------------------

  const FOLD_AT: nat := 72

  const CRLF: string := "\r\n"

  predicate IsBlank(c: char) {
    c == ' ' || c == '\t'
  }

  /** Step back from octet `pos` over blanks, but not before octet 1. */
  function Cut(octets: string, pos: nat): (end: nat)
    ensures end <= pos
    ensures pos >= 1 ==> end >= 1
    ensures forall j | end < j <= pos && j < |octets| :: IsBlank(octets[j])
    ensures end > 1 && end < |octets| ==> !IsBlank(octets[end])
  {
    if pos > 1 && pos < |octets| && IsBlank(octets[pos]) then Cut(octets, pos - 1) else pos
  }

  /** What folding comes to: segments; a loop without end, when a segment would be empty; or a cut inside a
      character, at which the program panics. */
  datatype Folding = Parts(parts: seq<string>) | Diverges | Panics

  function Before(part: string, rest: Folding): Folding {
    match rest
    case Parts(parts) => Parts([part] + parts)
    case _ => rest
  }

  /** The segments of `rest`, the characters from octet `start` on. */
  function Segments(octets: string, start: nat, rest: string): Folding
    requires start <= |octets|
    decreases |octets| - start
  {
    if |octets| - start <= FOLD_AT - 1 then Parts([rest]) else
      var end := Cut(octets, start + FOLD_AT - 1);
      if end <= start then Diverges else
        match IndexAt(rest, end - start)
        case None => Panics
        case Some(i) => Before(rest[..i], Segments(octets, end, rest[i..]))
  }

  /** The first segment and the continuations of a folded line. */
  function Fold(line: string): (folding: Folding)
    ensures folding.Parts? ==> |folding.parts| > 0
  {
    var octets := Utf8(line);
    if |octets| <= FOLD_AT then Parts([line]) else
      var end := Cut(octets, FOLD_AT);
      match IndexAt(line, end)
      case None => Panics
      case Some(i) => Before(line[..i], Segments(octets, end, line[i..]))
  }

  /** The first segment, and the others. */
  function FoldedAs(line: string): (string, seq<string>)
    requires Fold(line).Parts?
  {
    (Fold(line).parts[0], Fold(line).parts[1..])
  }

  function ContinuationText(segments: seq<string>): string {
    if |segments| == 0 then "" else " " + segments[0] + CRLF + ContinuationText(segments[1..])
  }

  /** A text, or why there is none. */
  datatype Output = Text(text: string) | Hangs | Fails

  function FoldText(line: string): Output {
    match Fold(line)
    case Diverges => Hangs
    case Panics => Fails
    case Parts(parts) => Text(parts[0] + CRLF + ContinuationText(parts[1..]))
  }

  /** `text` followed by the segments still to come. */
  function Continue(text: string, segments: Folding): Output {
    match segments
    case Diverges => Hangs
    case Panics => Fails
    case Parts(rest) => Text(text + ContinuationText(rest))
  }

  lemma ContinueStep(text: string, part: string, rest: Folding)
    ensures Continue(text, Before(part, rest)) == Continue(text + " " + part + CRLF, rest)
  {
    if rest.Parts? {
      assert ([part] + rest.parts)[1..] == rest.parts;
      assert text + (" " + part + CRLF + ContinuationText(rest.parts))
          == (text + " " + part + CRLF) + ContinuationText(rest.parts);
    }
  }

  lemma FirstStep(line: string, i: nat, rest: Folding)
    requires i <= |line| && Fold(line) == Before(line[..i], rest)
    ensures FoldText(line) == Continue(line[..i] + CRLF, rest)
  {
    if rest.Parts? {
      assert ([line[..i]] + rest.parts)[1..] == rest.parts;
    }
  }

  /** Folds by octets. */
  method FoldLine(line: string) returns (out: Output)
    ensures out == FoldText(line)
  {
    hide Utf8, Cut, IndexAt;
    var octets := Utf8(line);
    if |octets| <= FOLD_AT {
      assert line + CRLF + ContinuationText([]) == line + CRLF;
      return Text(line + CRLF);
    }
    var start := Cut(octets, if FOLD_AT < |octets| - 1 then FOLD_AT else |octets| - 1);
    var first := IndexAt(line, start);
    if first.None? {
      return Fails;
    }
    var text, rest := line[..first.value] + CRLF, line[first.value..];
    FirstStep(line, first.value, Segments(octets, start, rest));
    while |octets| - start > FOLD_AT - 1
      invariant 1 <= start <= |octets|
      invariant FoldText(line) == Continue(text, Segments(octets, start, rest))
      decreases |octets| - start
    {
      var end := Cut(octets, start + FOLD_AT - 1);
      if end <= start {
        return Hangs;
      }
      var i := IndexAt(rest, end - start);
      if i.None? {
        return Fails;
      }
      ContinueStep(text, rest[..i.value], Segments(octets, end, rest[i.value..]));
      text := text + " " + rest[..i.value] + CRLF;
      start, rest := end, rest[i.value..];
    }
    ghost var last := [rest];
    assert ContinuationText(last) == " " + rest + CRLF + ContinuationText(last[1..]);
    assert text + ContinuationText(last) == text + " " + rest + CRLF;
    return Text(text + " " + rest + CRLF);
  }

  // When folding terminates, exactly.

  const LONG_RUN: nat := FOLD_AT - 1

  function LeadingBlanks(text: string): (n: nat)
    ensures n <= |text| && forall i | 0 <= i < n :: IsBlank(text[i])
    ensures n < |text| ==> !IsBlank(text[n])
  {
    if |text| == 0 || !IsBlank(text[0]) then 0 else 1 + LeadingBlanks(text[1..])
  }

  /** 71 blanks in a row. */
  predicate HasLongRun(text: string) {
    |text| > 0 && (LeadingBlanks(text) >= LONG_RUN || HasLongRun(text[1..]))
  }

  ghost predicate LongRunAt(line: string, a: nat) {
    a + LONG_RUN <= |line| && forall j | a <= j < a + LONG_RUN :: IsBlank(line[j])
  }

  lemma {:induction false} HasLongRunFrom(line: string, from: nat)
    requires from <= |line|
    ensures HasLongRun(line[from..]) <==> exists a: nat | from <= a :: LongRunAt(line, a)
    decreases |line| - from
  {
    var text := line[from..];
    if |text| > 0 {
      HasLongRunFrom(line, from + 1);
      assert text[1..] == line[from + 1..];
      var n := LeadingBlanks(text);
      assert forall i | 0 <= i < |text| :: text[i] == line[from + i];
      if n >= LONG_RUN {
        assert LongRunAt(line, from);
      } else if n < |text| {
        assert !IsBlank(line[from + n]);
      }
    }
  }

  lemma {:induction false} SegmentsDiverge(octets: string, start: nat, rest: string, a: nat)
    requires 2 <= a && LongRunAt(octets, a) && start < a
    ensures !Segments(octets, start, rest).Parts?
    decreases |octets| - start
  {
    var end := Cut(octets, start + FOLD_AT - 1);
    assert end < a;
    if start < end && IndexAt(rest, end - start).Some? {
      SegmentsDiverge(octets, end, rest[IndexAt(rest, end - start).value..], a);
    }
  }

  lemma {:induction false} SegmentsEnd(octets: string, start: nat, rest: string)
    requires 1 <= start <= |octets|
    requires forall a: nat | 2 <= a :: !LongRunAt(octets, a)
    ensures !Segments(octets, start, rest).Diverges?
    decreases |octets| - start
  {
    if |octets| - start > FOLD_AT - 1 {
      var end := Cut(octets, start + FOLD_AT - 1);
      assert !LongRunAt(octets, start + 1);
      if IndexAt(rest, end - start).Some? {
        SegmentsEnd(octets, end, rest[IndexAt(rest, end - start).value..]);
      }
    }
  }

  /** The octets at which a line is cut, until the cuts make no progress. */
  function CutsFrom(octets: string, start: nat): seq<nat>
    requires start <= |octets|
    decreases |octets| - start
  {
    if |octets| - start <= FOLD_AT - 1 then [] else
      var end := Cut(octets, start + FOLD_AT - 1);
      if end <= start then [] else [end] + CutsFrom(octets, end)
  }

  function Cuts(octets: string): seq<nat> {
    if |octets| <= FOLD_AT then [] else [Cut(octets, FOLD_AT)] + CutsFrom(octets, Cut(octets, FOLD_AT))
  }

  ghost predicate IsSplit(octets: string, cuts: seq<nat>) {
    exists c <- cuts :: c < |octets| && IsTail(octets[c])
  }

  lemma SplitFirst(octets: string, end: nat, cuts: seq<nat>)
    requires end < |octets|
    ensures IsSplit(octets, [end] + cuts) <==> IsTail(octets[end]) || IsSplit(octets, cuts)
  {
    if IsTail(octets[end]) {
      assert end in [end] + cuts;
    }
    if c :| c in cuts && c < |octets| && IsTail(octets[c]) {
      assert c in [end] + cuts;
    }
  }

  lemma NothingIsSplit(octets: string)
    ensures !IsSplit(octets, [])
  {
  }

  lemma {:induction false} SegmentsPanic(octets: string, start: nat, rest: string)
    requires start <= |octets| && Utf8(rest) == octets[start..]
    ensures Segments(octets, start, rest).Panics? <==> IsSplit(octets, CutsFrom(octets, start))
    decreases |octets| - start
  {
    hide Utf8, Cut, IndexAt, IsSplit, IsTail;
    NothingIsSplit(octets);
    if |octets| - start > FOLD_AT - 1 {
      var end := Cut(octets, start + FOLD_AT - 1);
      if start < end {
        IndexAtCuts(rest, end - start);
        SliceTwice(octets, start, end);
        SplitFirst(octets, end, CutsFrom(octets, end));
        var i := IndexAt(rest, end - start);
        if i.Some? {
          SegmentsPanic(octets, end, rest[i.value..]);
        }
      }
    }
  }

  /** Folding ends in a panic exactly when one of the cuts is inside a character. */
  lemma FoldPanics(line: string)
    ensures Fold(line).Panics? <==> IsSplit(Utf8(line), Cuts(Utf8(line)))
  {
    var octets := Utf8(line);
    if |octets| > FOLD_AT {
      var end := Cut(octets, FOLD_AT);
      hide Utf8;
      IndexAtCuts(line, end);
      SplitFirst(octets, end, CutsFrom(octets, end));
      if IndexAt(line, end).Some? {
        SegmentsPanic(octets, end, line[IndexAt(line, end).value..]);
      }
    }
  }

  /** Folding comes to an end exactly when the line has no 71 blanks in a row after its second octet, or it
      panics before it reaches them. */
  lemma FoldTerminates(line: string)
    ensures Fold(line).Diverges? <==>
              !Fold(line).Panics? && |Utf8(line)| >= 2 && HasLongRun(Utf8(line)[2..])
  {
    var octets := Utf8(line);
    hide Utf8;
    if |octets| >= 2 {
      HasLongRunFrom(octets, 2);
      var end := Cut(octets, FOLD_AT);
      var i := if |octets| > FOLD_AT then IndexAt(line, end) else None;
      if a: nat :| 2 <= a && LongRunAt(octets, a) {
        assert end < a;
        if i.Some? {
          SegmentsDiverge(octets, end, line[i.value..], a);
        }
      } else if i.Some? {
        SegmentsEnd(octets, end, line[i.value..]);
      }
    }
  }

  /** A line of one-octet characters is never cut inside one. */
  lemma AsciiNeverPanics(line: string)
    requires IsAscii(line)
    ensures !Fold(line).Panics?
  {
    AsciiOctets(line);
    FoldPanics(line);
  }

  predicate HasNoBlank(octets: string) {
    forall i | 0 <= i < |octets| :: !IsBlank(octets[i])
  }

  lemma {:induction false} PlainCutsFrom(octets: string, start: nat, c: nat)
    requires start <= |octets| && HasNoBlank(octets)
    ensures c in CutsFrom(octets, start) <==> start < c < |octets| && (c - start) % (FOLD_AT - 1) == 0
    decreases |octets| - start
  {
    if |octets| - start > FOLD_AT - 1 {
      var end := start + FOLD_AT - 1;
      PlainCutsFrom(octets, end, c);
      assert CutsFrom(octets, start) == [end] + CutsFrom(octets, end);
      assert (c - start) % (FOLD_AT - 1) == (c - end) % (FOLD_AT - 1);
    }
  }

  /** Without blanks the cuts are at octets 72, 143, 214 and so on, and folding panics exactly when one of
      them is inside a character. */
  lemma BlankFreePanics(line: string)
    requires HasNoBlank(Utf8(line))
    ensures Fold(line).Panics? <==>
              exists c: nat | FOLD_AT <= c < |Utf8(line)| ::
                (c - FOLD_AT) % (FOLD_AT - 1) == 0 && IsTail(Utf8(line)[c])
  {
    var octets := Utf8(line);
    FoldPanics(line);
    hide Utf8;
    forall c: nat
      ensures c in Cuts(octets) <==> FOLD_AT <= c < |octets| && (c - FOLD_AT) % (FOLD_AT - 1) == 0
    {
      if |octets| > FOLD_AT {
        PlainCutsFrom(octets, FOLD_AT, c);
        assert Cuts(octets) == [FOLD_AT] + CutsFrom(octets, FOLD_AT);
      }
    }
  }

  /** A letter of two octets, as the Cyrillic, Greek, Hebrew and Arabic ones. */
  predicate IsTwoOctets(c: char) {
    '\U{80}' <= c < '\U{800}'
  }

  lemma {:induction false} TwoOctetsEach(text: string)
    requires forall i | 0 <= i < |text| :: IsTwoOctets(text[i])
    ensures |Utf8(text)| == 2 * |text|
    ensures forall j | 0 <= j < |Utf8(text)| ::
              !IsBlank(Utf8(text)[j]) && (j % 2 == 1 ==> IsTail(Utf8(text)[j]))
  {
    if |text| > 0 {
      var head, tail := Utf8Char(text[0]), Utf8(text[1..]);
      TwoOctetsEach(text[1..]);
      assert |head| == 2;
      forall j | 0 <= j < |Utf8(text)|
        ensures !IsBlank(Utf8(text)[j]) && (j % 2 == 1 ==> IsTail(Utf8(text)[j]))
      {
        assert j >= 2 ==> Utf8(text)[j] == tail[j - 2];
      }
    }
  }

  lemma OctetsAfter(name: string, text: string)
    requires IsAscii(name) && HasNoBlank(name) && forall i | 0 <= i < |text| :: IsTwoOctets(text[i])
    ensures Utf8(name + text) == name + Utf8(text) && HasNoBlank(Utf8(name + text))
    ensures |Utf8(text)| == 2 * |text|
  {
    Utf8Concat(name, text);
    AsciiOctets(name);
    TwoOctetsEach(text);
    hide Utf8;
    forall i | 0 <= i < |name + Utf8(text)|
      ensures !IsBlank((name + Utf8(text))[i])
    {
      assert i >= |name| ==> (name + Utf8(text))[i] == Utf8(text)[i - |name|];
    }
  }

  /** Enough such letters after any name make the export panic: of the cuts at octets 72 and 143 one is
      inside a letter. A title of 68 letters is enough. */
  lemma LongTextPanics(name: string, text: string)
    requires IsAscii(name) && HasNoBlank(name) && |name| < FOLD_AT
    requires |name| + 2 * |text| > 143 && forall i | 0 <= i < |text| :: IsTwoOctets(text[i])
    ensures FoldText(name + text) == Fails
  {
    OctetsAfter(name, text);
    TwoOctetsEach(text);
    var octets := Utf8(name + text);
    BlankFreePanics(name + text);
    hide Utf8, Fold;
    var c := if |name| % 2 == 0 then 143 else FOLD_AT;
    assert octets[c] == Utf8(text)[c - |name|];
  }

  /** A title of 72 blanks is enough to make the export loop. */
  lemma BlanksDiverge(blanks: string)
    requires |blanks| == 72 && forall i | 0 <= i < 72 :: blanks[i] == ' '
    ensures FoldText("SUMMARY:" + blanks) == Hangs
  {
    var line := "SUMMARY:" + blanks;
    assert IsAscii(line);
    AsciiOctets(line);
    AsciiNeverPanics(line);
    HasLongRunFrom(line, 2);
    assert LongRunAt(line, 8);
    FoldTerminates(line);
  }

  lemma Utf8CharHasNoRun(c: char, tail: string)
    ensures LeadingBlanks(Utf8Char(c) + tail) == if IsBlank(c) then 1 + LeadingBlanks(tail) else 0
    ensures HasLongRun(Utf8Char(c) + tail) <==>
              LeadingBlanks(Utf8Char(c) + tail) >= LONG_RUN || HasLongRun(tail)
  {
    var head := Utf8Char(c);
    if |head| == 1 {
      RunsAfter(c, tail);
    } else {
      assert forall i | 0 <= i < |head| :: !IsBlank(head[i]);
      hide Utf8Char;
      PrefixHasNoRun(head, tail);
      assert (head + tail)[0] == head[0];
    }
  }

  /** Characters of several octets are no blanks: runs are the same in octets. */
  lemma {:induction false} OctetsKeepRuns(text: string)
    ensures LeadingBlanks(Utf8(text)) == LeadingBlanks(text)
    ensures HasLongRun(Utf8(text)) <==> HasLongRun(text)
  {
    hide LeadingBlanks, HasLongRun, IsBlank, Utf8Char;
    if |text| == 0 {
      assert Utf8(text) == text;
    } else {
      OctetsKeepRuns(text[1..]);
      assert text == [text[0]] + text[1..];
      RunsAfter(text[0], text[1..]);
      Utf8CharHasNoRun(text[0], Utf8(text[1..]));
    }
  }

  lemma RunsAfter(c: char, rest: string)
    ensures LeadingBlanks([c] + rest) == if IsBlank(c) then 1 + LeadingBlanks(rest) else 0
    ensures HasLongRun([c] + rest) <==> LeadingBlanks([c] + rest) >= LONG_RUN || HasLongRun(rest)
  {
    assert ([c] + rest)[1..] == rest;
  }

  lemma EscapeCharIsShort(c: char)
    ensures EscapeChar(c) == [c] ||
            (|EscapeChar(c)| == 2 && !IsBlank(c) && !IsBlank(EscapeChar(c)[0]) && !IsBlank(EscapeChar(c)[1]))
  {
  }

  /** Escaping keeps the runs of blanks. */
  lemma {:induction false} EscapeKeepsRuns(text: string)
    ensures LeadingBlanks(Escape(text)) == LeadingBlanks(text)
    ensures HasLongRun(Escape(text)) <==> HasLongRun(text)
  {
    hide LeadingBlanks, HasLongRun, IsBlank, EscapeChar;
    if |text| == 0 {
      assert Escape(text) == text;
    } else {
      var c, e, tail := text[0], EscapeChar(text[0]), Escape(text[1..]);
      EscapeKeepsRuns(text[1..]);
      assert text == [c] + text[1..];
      RunsAfter(c, text[1..]);
      EscapeCharIsShort(c);
      if e == [c] {
        RunsAfter(c, tail);
      } else {
        assert e + tail == [e[0]] + ([e[1]] + tail);
        RunsAfter(e[0], [e[1]] + tail);
        RunsAfter(e[1], tail);
      }
    }
  }

  lemma {:induction false} PrefixHasNoRun(name: string, value: string)
    requires forall i | 0 <= i < |name| :: !IsBlank(name[i])
    ensures HasLongRun(name + value) <==> HasLongRun(value)
  {
    if |name| == 0 {
      assert name + value == value;
    } else {
      PrefixHasNoRun(name[1..], value);
      assert (name + value)[1..] == name[1..] + value;
    }
  }

  // ---------------------------------------------------------------------------
  // Unfolding.
  // ---------------------------------------------------------------------------

  predicate IsContinuation(raw: string) {
    |raw| > 0 && IsBlank(raw[0])
  }

  function UnfoldRaw(raws: seq<string>): seq<string> {
    if |raws| == 0 then [] else
      var lines, raw := UnfoldRaw(raws[..|raws| - 1]), raws[|raws| - 1];
      if IsContinuation(raw) && |lines| > 0
      then lines[|lines| - 1 := lines[|lines| - 1] + raw[1..]]
      else lines + [raw]
  }

  function Unfold(input: string): seq<string> {
    UnfoldRaw(Lines(input, '\r', '\n'))
  }

  method UnfoldLines(input: string) returns (lines: seq<string>)
    ensures lines == Unfold(input)
  {
    lines := [];
    var raws := Lines(input, '\r', '\n');
    for i := 0 to |raws|
      invariant lines == UnfoldRaw(raws[..i])
    {
      var raw := raws[i];
      assert raws[..i + 1][..i] == raws[..i];
      if IsContinuation(raw) && |lines| > 0 {
        lines := lines[|lines| - 1 := lines[|lines| - 1] + raw[1..]];
      } else {
        lines := lines + [raw];
      }
    }
    assert raws[..|raws|] == raws;
  }

  // ---------------------------------------------------------------------------
  // Folding and unfolding are inverse, and folded lines are short.
  // ---------------------------------------------------------------------------

  function Concat(parts: seq<string>): string {
    if |parts| == 0 then "" else parts[0] + Concat(parts[1..])
  }

  lemma {:induction false} SegmentsOf(octets: string, start: nat, rest: string)
    requires start <= |octets| && Utf8(rest) == octets[start..] && Segments(octets, start, rest).Parts?
    ensures Concat(Segments(octets, start, rest).parts) == rest
    ensures forall s <- Segments(octets, start, rest).parts :: |Utf8(s)| <= FOLD_AT - 1
    decreases |octets| - start
  {
    hide Utf8, Cut, IndexAt, Concat;
    if |octets| - start <= FOLD_AT - 1 {
      ConcatOne(rest, []);
      assert rest + "" == rest;
    } else {
      var end := Cut(octets, start + FOLD_AT - 1);
      var i := IndexAt(rest, end - start).value;
      IndexAtCuts(rest, end - start);
      SliceTwice(octets, start, end);
      SegmentsOf(octets, end, rest[i..]);
      ConcatOne(rest[..i], Segments(octets, end, rest[i..]).parts);
      assert rest == rest[..i] + rest[i..];
    }
  }

  lemma ConcatOne(part: string, parts: seq<string>)
    ensures Concat([part] + parts) == part + Concat(parts)
    ensures Concat([part]) == part
    ensures Concat([]) == ""
  {
    assert ([part] + parts)[1..] == parts;
    assert [part] + [] == [part];
    assert part + "" == part;
  }

  /** The physical lines of a folded line, without their line ends. */
  function RawLines(first: string, rest: seq<string>): seq<string> {
    [first] + Marked(rest)
  }

  function Marked(rest: seq<string>): (raws: seq<string>)
    ensures |raws| == |rest|
    ensures forall i | 0 <= i < |rest| :: raws[i] == " " + rest[i]
  {
    seq(|rest|, i requires 0 <= i < |rest| => " " + rest[i])
  }

  lemma FoldedParts(line: string)
    requires Fold(line).Parts?
    ensures var parts := Fold(line).parts;
            && parts[0] + Concat(parts[1..]) == line
            && |Utf8(parts[0])| <= FOLD_AT
            && forall s <- parts[1..] :: |Utf8(s)| <= FOLD_AT - 1
  {
    var octets, parts := Utf8(line), Fold(line).parts;
    if |octets| > FOLD_AT {
      var end := Cut(octets, FOLD_AT);
      var i := IndexAt(line, end).value;
      IndexAtCuts(line, end);
      hide Utf8;
      SegmentsOf(octets, end, line[i..]);
      assert parts[1..] == Segments(octets, end, line[i..]).parts;
      assert line == line[..i] + line[i..];
    } else {
      assert parts[0] + Concat(parts[1..]) == line;
    }
  }

  /** No physical line is longer than 72 octets, 74 with its line end. */
  lemma FoldedLinesAreShort(line: string)
    requires Fold(line).Parts?
    ensures var (first, rest) := FoldedAs(line);
            && first + Concat(rest) == line
            && forall raw <- RawLines(first, rest) :: |Utf8(raw)| <= FOLD_AT
  {
    var (first, rest) := FoldedAs(line);
    var raws := RawLines(first, rest);
    FoldedParts(line);
    hide Fold, Utf8;
    forall raw <- raws
      ensures |Utf8(raw)| <= FOLD_AT
    {
      var i :| 0 <= i < |raws| && raws[i] == raw;
      if i > 0 {
        var part := rest[i - 1];
        assert part in rest;
        Utf8Concat(" ", part);
        AsciiOctets(" ");
      }
    }
  }

  lemma {:induction false} LinesOfContinuation(rest: seq<string>, tail: string)
    requires forall s <- rest :: OneLine(s)
    ensures Lines(ContinuationText(rest) + tail, '\r', '\n') == Marked(rest) + Lines(tail, '\r', '\n')
  {
    hide Lines, IsBlank, ContinuationText, Marked;
    if |rest| == 0 {
      NoContinuation(rest, tail);
    } else {
      assert OneLine(rest[0]);
      assert forall s <- rest[1..] :: s in rest;
      LinesOfContinuation(rest[1..], tail);
      OneContinuation(rest, tail);
      LinesOfTerminated(" " + rest[0], ContinuationText(rest[1..]) + tail, '\r', '\n');
    }
  }

  lemma NoContinuation(rest: seq<string>, tail: string)
    requires |rest| == 0
    ensures ContinuationText(rest) + tail == tail
    ensures Marked(rest) == [] && Marked(rest) + Lines(tail, '\r', '\n') == Lines(tail, '\r', '\n')
  {
    hide Lines;
  }

  lemma OneContinuation(rest: seq<string>, tail: string)
    requires |rest| > 0 && OneLine(rest[0])
    ensures ContinuationText(rest) + tail == (" " + rest[0]) + ['\r', '\n'] + (ContinuationText(rest[1..]) + tail)
    ensures '\n' !in " " + rest[0]
    ensures Marked(rest) + Lines(tail, '\r', '\n') ==
            [" " + rest[0]] + (Marked(rest[1..]) + Lines(tail, '\r', '\n'))
  {
    ContinuationStep(rest);
    MarkedStep(rest);
    hide Lines, ContinuationText, Marked;
    Assoc(" " + rest[0] + ['\r', '\n'], ContinuationText(rest[1..]), tail);
    Assoc([" " + rest[0]], Marked(rest[1..]), Lines(tail, '\r', '\n'));
    BlankInFront(rest[0]);
  }

  lemma BlankInFront(text: string)
    requires OneLine(text)
    ensures '\n' !in " " + text
  {
  }

  lemma ContinuationStep(rest: seq<string>)
    requires |rest| > 0
    ensures ContinuationText(rest) == " " + rest[0] + ['\r', '\n'] + ContinuationText(rest[1..])
  {
  }

  lemma MarkedStep(rest: seq<string>)
    requires |rest| > 0
    ensures Marked(rest) == [" " + rest[0]] + Marked(rest[1..])
  {
  }

  lemma {:induction false} ConcatIsOneLine(parts: seq<string>)
    requires OneLine(Concat(parts))
    ensures forall s <- parts :: OneLine(s)
  {
    if |parts| > 0 {
      ConcatIsOneLine(parts[1..]);
      assert forall c <- parts[0] :: c in Concat(parts);
      assert forall c <- Concat(parts[1..]) :: c in Concat(parts);
      assert forall s <- parts :: s == parts[0] || s in parts[1..];
    }
  }

  lemma LinesOfFolded(line: string, tail: string)
    requires OneLine(line) && Fold(line).Parts?
    ensures var (first, rest) := FoldedAs(line);
            Lines(FoldText(line).text + tail, '\r', '\n') == RawLines(first, rest) + Lines(tail, '\r', '\n')
  {
    hide Lines, Fold;
    var (first, rest) := FoldedAs(line);
    FoldedLinesAreShort(line);
    assert forall c <- first :: c in line;
    assert forall c <- Concat(rest) :: c in line;
    ConcatIsOneLine(rest);
    LinesOfContinuation(rest, tail);
    var more := ContinuationText(rest) + tail;
    assert FoldText(line).text + tail == first + CRLF + more;
    LinesOfTerminated(first, more, '\r', '\n');
  }

  /** `lines` with `more` joined to the last one. */
  function Join(lines: seq<string>, more: string): seq<string>
    requires |lines| > 0
  {
    lines[|lines| - 1 := lines[|lines| - 1] + more]
  }

  lemma JoinTwice(lines: seq<string>, a: string, b: string)
    requires |lines| > 0
    ensures Join(Join(lines, a), b) == Join(lines, a + b)
  {
    assert (lines[|lines| - 1] + a) + b == lines[|lines| - 1] + (a + b);
  }

  lemma UnfoldOne(raws: seq<string>, segment: string)
    requires |UnfoldRaw(raws)| > 0
    ensures UnfoldRaw(raws + [" " + segment]) == Join(UnfoldRaw(raws), segment)
  {
    var all := raws + [" " + segment];
    assert all[..|all| - 1] == raws;
    assert all[|all| - 1][1..] == segment;
  }

  lemma {:induction false} UnfoldContinuation(raws: seq<string>, rest: seq<string>)
    requires |UnfoldRaw(raws)| > 0
    ensures UnfoldRaw(raws + Marked(rest)) == Join(UnfoldRaw(raws), Concat(rest))
  {
    hide UnfoldRaw;
    if |rest| == 0 {
      assert raws + Marked(rest) == raws;
      var lines := UnfoldRaw(raws);
      assert lines[|lines| - 1] + "" == lines[|lines| - 1];
    } else {
      var init, segment := rest[..|rest| - 1], rest[|rest| - 1];
      UnfoldContinuation(raws, init);
      assert raws + Marked(rest) == (raws + Marked(init)) + [" " + segment];
      assert rest == init + [segment];
      hide Marked, Concat;
      ConcatAppend(init, segment);
      UnfoldOne(raws + Marked(init), segment);
      JoinTwice(UnfoldRaw(raws), Concat(init), segment);
    }
  }

  lemma {:induction false} ConcatAppend(parts: seq<string>, part: string)
    ensures Concat(parts + [part]) == Concat(parts) + part
  {
    if |parts| == 0 {
      assert parts + [part] == [part];
      assert Concat([part]) == part + Concat([]);
    } else {
      ConcatAppend(parts[1..], part);
      assert (parts + [part])[1..] == parts[1..] + [part];
    }
  }

  lemma FirstSegment(line: string)
    requires Fold(line).Parts?
    ensures |line| > 0 ==> |FoldedAs(line).0| > 0 && FoldedAs(line).0[0] == line[0]
    ensures |line| == 0 ==> FoldedAs(line).0 == ""
  {
  }

  lemma UnfoldFolded(raws: seq<string>, line: string)
    requires Fold(line).Parts? && !IsContinuation(line)
    ensures var (first, rest) := FoldedAs(line);
            UnfoldRaw(raws + RawLines(first, rest)) == UnfoldRaw(raws) + [line]
  {
    var (first, rest) := FoldedAs(line);
    FoldedLinesAreShort(line);
    FirstSegment(line);
    hide Fold, FoldedAs, RawLines, Marked, Utf8;
    assert !IsContinuation(first);
    hide IsContinuation, UnfoldRaw, Concat;
    StartLine(raws, first);
    UnfoldContinuation(raws + [first], rest);
    RawLinesOf(raws, first, rest);
    assert (UnfoldRaw(raws) + [first])[|UnfoldRaw(raws)| := line] == UnfoldRaw(raws) + [line];
  }

  lemma StartLine(raws: seq<string>, first: string)
    requires !IsContinuation(first)
    ensures UnfoldRaw(raws + [first]) == UnfoldRaw(raws) + [first]
  {
    assert (raws + [first])[..|raws|] == raws;
  }

  lemma RawLinesOf(raws: seq<string>, first: string, rest: seq<string>)
    ensures raws + RawLines(first, rest) == (raws + [first]) + Marked(rest)
  {
  }

  ghost predicate Foldable(line: string) {
    OneLine(line) && !IsContinuation(line) && Fold(line).Parts?
  }

  /** The text of a list of lines, each folded. */
  ghost function FoldAll(lines: seq<string>): string
    requires forall line <- lines :: Foldable(line)
  {
    if |lines| == 0 then "" else
      assert Foldable(lines[0]);
      assert forall line <- lines[1..] :: line in lines;
      FoldText(lines[0]).text + FoldAll(lines[1..])
  }

  /** The physical lines of `lines`. */
  ghost function RawOfAll(lines: seq<string>): seq<string>
    requires forall line <- lines :: Foldable(line)
  {
    if |lines| == 0 then [] else
      assert Foldable(lines[0]);
      assert forall line <- lines[1..] :: line in lines;
      RawOfLine(lines[0]) + RawOfAll(lines[1..])
  }

  function RawOfLine(line: string): seq<string>
    requires Fold(line).Parts?
  {
    RawLines(FoldedAs(line).0, FoldedAs(line).1)
  }

  lemma {:induction false} LinesOfAll(lines: seq<string>)
    requires forall line <- lines :: Foldable(line)
    ensures Lines(FoldAll(lines), '\r', '\n') == RawOfAll(lines)
  {
    if |lines| > 0 {
      hide Lines, Fold, FoldText, RawLines;
      assert Foldable(lines[0]);
      assert forall line <- lines[1..] :: line in lines;
      LinesOfAll(lines[1..]);
      LinesOfFolded(lines[0], FoldAll(lines[1..]));
    }
  }

  lemma {:induction false} UnfoldAfter(raws: seq<string>, lines: seq<string>)
    requires forall line <- lines :: Foldable(line)
    ensures UnfoldRaw(raws + RawOfAll(lines)) == UnfoldRaw(raws) + lines
    decreases |lines|
  {
    hide UnfoldRaw, Fold, RawOfLine, OneLine;
    if |lines| == 0 {
      assert raws + [] == raws;
      assert UnfoldRaw(raws) + [] == UnfoldRaw(raws);
    } else {
      assert Foldable(lines[0]);
      UnfoldLine(raws, lines[0]);
      hide Foldable;
      assert forall line <- lines[1..] :: line in lines;
      var head, more := RawOfLine(lines[0]), RawOfAll(lines[1..]);
      assert raws + (head + more) == (raws + head) + more;
      UnfoldAfter(raws + head, lines[1..]);
      assert UnfoldRaw(raws) + [lines[0]] + lines[1..] == UnfoldRaw(raws) + lines;
    }
  }

  lemma UnfoldLine(raws: seq<string>, line: string)
    requires Foldable(line)
    ensures UnfoldRaw(raws + RawOfLine(line)) == UnfoldRaw(raws) + [line]
  {
    hide UnfoldRaw, Fold, RawLines;
    UnfoldFolded(raws, line);
  }

  /** Unfolding gives back exactly the lines that were folded. */
  lemma FoldRoundTrip(lines: seq<string>)
    requires forall line <- lines :: Foldable(line)
    ensures Unfold(FoldAll(lines)) == lines
  {
    LinesOfAll(lines);
    UnfoldAfter([], lines);
    assert [] + RawOfAll(lines) == RawOfAll(lines);
  }
}
