/** The incremental decoder of server-sent events (a part of section 9.2.6 of the WHATWG HTML Living
    Standard: only `data:` lines are read). Bytes stay bytes; UTF-8 decoding is not modelled. */
module Sse {
  import opened Text

  newtype byte = x: int | 0 <= x < 256

  type Bytes = seq<byte>

  const CR: byte := 13
  const LF: byte := 10
  const SPACE: byte := 32
  /** `data:` */
  const DATA: Bytes := [100, 97, 116, 97, 58]

  const MAX_PENDING_BYTES: nat := 1024 * 1024
  const TOO_LONG := "stream event exceeds 1 MiB without a terminator"

  // ---------------------------------------------------------------------------
  // Finding the end of an event.
  // ---------------------------------------------------------------------------

  const SEPARATORS: seq<Bytes> := [[CR, LF, CR, LF], [LF, LF], [CR, CR]]

  /** Length of the blank-line terminator at the front of `s`, or 0. */
  function SepLen(s: Bytes): nat {
    if StartsWith(s, [CR, LF, CR, LF]) then 4
    else if StartsWith(s, [LF, LF]) then 2
    else if StartsWith(s, [CR, CR]) then 2
    else 0
  }

  function Shift(n: nat, found: Option<(nat, nat)>): Option<(nat, nat)> {
    match found
    case None => None
    case Some((end, len)) => Some((n + end, len))
  }

  /** Index and length of the first terminator. */
  function Find(s: Bytes): (found: Option<(nat, nat)>)
    ensures found.Some? ==> found.value.1 > 0 && found.value.0 + found.value.1 <= |s|
  {
    if |s| == 0 then None
    else if SepLen(s) > 0 then Some((0, SepLen(s)))
    else Shift(1, Find(s[1..]))
  }

  method FindEventEnd(buf: Bytes) returns (found: Option<(nat, nat)>)
    ensures found == Find(buf)
  {
    hide Find, StartsWith;
    assert buf[0..] == buf;
    for i := 0 to |buf|
      invariant Find(buf) == Shift(i, Find(buf[i..]))
    {
      FindHere(buf, i);
      for j := 0 to |SEPARATORS|
        invariant forall k | 0 <= k < j :: !StartsWith(buf[i..], SEPARATORS[k])
      {
        if StartsWith(buf[i..], SEPARATORS[j]) {
          FirstStarts(buf[i..], j);
          return Some((i, |SEPARATORS[j]|));
        }
      }
      NoneStarts(buf[i..]);
    }
    FindNothing();
    return None;
  }

  lemma FindNothing()
    ensures Find([]) == None
  {
  }

  lemma FindHere(buf: Bytes, i: nat)
    requires i < |buf|
    ensures Find(buf[i..]) == if SepLen(buf[i..]) > 0 then Some((0, SepLen(buf[i..]))) else Shift(1, Find(buf[i + 1..]))
  {
    assert buf[i..][1..] == buf[i + 1..];
  }

  lemma FirstStarts(s: Bytes, j: nat)
    requires j < |SEPARATORS| && StartsWith(s, SEPARATORS[j])
    requires forall k | 0 <= k < j :: !StartsWith(s, SEPARATORS[k])
    ensures SepLen(s) == |SEPARATORS[j]|
  {
    hide StartsWith;
    assert j > 0 ==> !StartsWith(s, SEPARATORS[0]);
    assert j > 1 ==> !StartsWith(s, SEPARATORS[1]);
  }

  lemma NoneStarts(s: Bytes)
    requires forall k | 0 <= k < |SEPARATORS| :: !StartsWith(s, SEPARATORS[k])
    ensures SepLen(s) == 0
  {
    hide StartsWith;
    assert !StartsWith(s, SEPARATORS[0]) && !StartsWith(s, SEPARATORS[1]) && !StartsWith(s, SEPARATORS[2]);
  }

  /** A terminator stands at `i`: CR LF twice, LF twice or CR twice. */
  predicate IsSeparatorAt(s: Bytes, i: nat) {
    || (i + 4 <= |s| && s[i] == 13 && s[i + 1] == 10 && s[i + 2] == 13 && s[i + 3] == 10)
    || (i + 2 <= |s| && s[i] == 10 && s[i + 1] == 10)
    || (i + 2 <= |s| && s[i] == 13 && s[i + 1] == 13)
  }

  lemma SepLenIs(s: Bytes)
    ensures SepLen(s) > 0 <==> IsSeparatorAt(s, 0)
    ensures SepLen(s) > 0 ==> SepLen(s) == if |s| > 1 && s[0] == s[1] then 2 else 4
  {
    assert |s| >= 4 ==> s[..4] == [s[0], s[1], s[2], s[3]];
    assert |s| >= 2 ==> s[..2] == [s[0], s[1]];
  }

  /** The first of the three terminators is found, and no other. */
  lemma {:induction false} FindIsFirst(s: Bytes)
    ensures match Find(s)
            case None => forall i: nat :: !IsSeparatorAt(s, i)
            case Some((n, len)) =>
              && IsSeparatorAt(s, n) && (forall i: nat | i < n :: !IsSeparatorAt(s, i))
              && len == if s[n] == s[n + 1] then 2 else 4
  {
    SepLenIs(s);
    if |s| > 0 && SepLen(s) == 0 {
      FindIsFirst(s[1..]);
      hide SepLen;
      forall i: nat | IsSeparatorAt(s, i)
        ensures i > 0 && IsSeparatorAt(s[1..], i - 1)
      {
      }
      if Find(s).Some? {
        assert IsSeparatorAt(s, Find(s).value.0);
      }
    }
  }

  // ---------------------------------------------------------------------------
  // Decoding.
  // ---------------------------------------------------------------------------

  function DropSpace(s: Bytes): Bytes {
    if |s| > 0 && s[0] == SPACE then s[1..] else s
  }

  /** The contents of the `data:` lines. */
  function DataLines(lines: seq<Bytes>): seq<Bytes> {
    if |lines| == 0 then []
    else if StartsWith(lines[0], DATA) then [DropSpace(lines[0][|DATA|..])] + DataLines(lines[1..])
    else DataLines(lines[1..])
  }

  function JoinLf(lines: seq<Bytes>): Bytes {
    if |lines| == 0 then []
    else if |lines| == 1 then lines[0]
    else lines[0] + [LF] + JoinLf(lines[1..])
  }

  /** What one raw event contributes: nothing when it has no data. */
  function EventOf(raw: Bytes): seq<Bytes> {
    var data := DataLines(Lines(raw, CR, LF));
    if data == [] then [] else [JoinLf(data)]
  }

  /** The events in a buffer, and what is left of it. */
  function Decode(buf: Bytes): Decoded
    decreases |buf|
  {
    match Find(buf)
    case None => ([], buf)
    case Some((end, len)) =>
      var (events, rest) := Decode(buf[end + len..]);
      (EventOf(buf[..end]) + events, rest)
  }

  method CollectData(raw: Bytes) returns (data: seq<Bytes>)
    ensures data == DataLines(Lines(raw, CR, LF))
  {
    hide Lines;
    var lines := Lines(raw, CR, LF);
    data := [];
    for i := 0 to |lines|
      invariant DataLines(lines) == data + DataLines(lines[i..])
    {
      assert lines[i..][1..] == lines[i + 1..];
      if StartsWith(lines[i], DATA) {
        data := data + [DropSpace(lines[i][|DATA|..])];
      }
    }
  }

  class SseDecoder {
    var buf: Bytes

    constructor ()
      ensures buf == []
    {
      buf := [];
    }

    /** Feed one chunk of a body. */
    method Feed(chunk: Bytes) returns (result: Result<seq<Bytes>>)
      modifies this
      ensures var (events, rest) := Decode(old(buf) + chunk);
              && buf == rest
              && result == (if |rest| > MAX_PENDING_BYTES then Err(TOO_LONG) else Ok(events))
    {
      hide Decode, Find, Lines;
      buf := buf + chunk;
      var events := [];
      var found := FindEventEnd(buf);
      PrependNothing(Decode(buf));
      while found.Some?
        invariant found == Find(buf)
        invariant Decode(old(buf) + chunk) == Prepend(events, Decode(buf))
        decreases |buf|
      {
        var (end, len) := found.value;
        DecodeStep(buf);
        var raw := buf[..end];
        buf := buf[end + len..];
        PrependTwice(events, EventOf(raw), Decode(buf));
        var data := CollectData(raw);
        if data != [] {
          events := events + [JoinLf(data)];
        } else {
          assert events + [] == events;
        }
        found := FindEventEnd(buf);
      }
      DecodeRest(buf);
      assert events + [] == events;
      if |buf| > MAX_PENDING_BYTES {
        return Err(TOO_LONG);
      }
      return Ok(events);
    }
  }

  type Decoded = (seq<Bytes>, Bytes)

  function Prepend(events: seq<Bytes>, d: Decoded): Decoded {
    (events + d.0, d.1)
  }

  lemma PrependNothing(d: Decoded)
    ensures Prepend([], d) == d
  {
    assert [] + d.0 == d.0;
  }

  lemma PrependTwice(a: seq<Bytes>, b: seq<Bytes>, d: Decoded)
    ensures Prepend(a, Prepend(b, d)) == Prepend(a + b, d)
  {
    assert a + (b + d.0) == (a + b) + d.0;
  }

  lemma DecodeStep(buf: Bytes)
    requires Find(buf).Some?
    ensures var (end, len) := Find(buf).value;
            Decode(buf) == Prepend(EventOf(buf[..end]), Decode(buf[end + len..]))
  {
    hide EventOf, Find;
  }

  lemma DecodeRest(buf: Bytes)
    requires Find(buf).None?
    ensures Decode(buf) == ([], buf)
  {
  }

  // ---------------------------------------------------------------------------
  // Chunks do not matter.
  // ---------------------------------------------------------------------------

  lemma SamePrefix(a: Bytes, b: Bytes, n: nat)
    ensures n <= |a| ==> (a + b)[..n] == a[..n]
  {
  }

  /** No separator is found early in a prefix: more input never moves the first one. */
  lemma {:induction false} FindIsStable(a: Bytes, b: Bytes)
    requires Find(a).Some?
    ensures Find(a + b) == Find(a)
  {
    var s := a + b;
    if SepLen(a) > 0 {
      SamePrefix(a, b, 2);
      SamePrefix(a, b, 4);
      assert s[0] == a[0] && s[1] == a[1];
    } else {
      FindIsStable(a[1..], b);
      assert s[1..] == a[1..] + b;
      SepLenIsStable(a, b);
    }
  }

  lemma SepLenIsStable(a: Bytes, b: Bytes)
    requires |a| > 0 && SepLen(a) == 0 && Find(a[1..]).Some?
    ensures SepLen(a + b) == 0
  {
    var s := a + b;
    SamePrefix(a, b, 2);
    SamePrefix(a, b, 4);
    assert |a| >= 3;
    if |a| == 3 {
      assert a[1..][1..] == [a[2]] && a[1..][1..][1..] == [];
      assert SepLen(a[1..]) == 2;
      assert a[1..][..2] == a[1..];
      assert s[1] == a[1] && s[2] == a[2];
    }
  }

  /** Feeding `a` and then `b` is feeding `a + b`. */
  lemma {:induction false} DecodeConcat(a: Bytes, b: Bytes)
    ensures Decode(a + b) == Prepend(Decode(a).0, Decode(Decode(a).1 + b))
    decreases |a|
  {
    hide Decode, Find, EventOf;
    if Find(a).Some? {
      var (end, len) := Find(a).value;
      FindIsStable(a, b);
      assert (a + b)[..end] == a[..end];
      assert (a + b)[end + len..] == a[end + len..] + b;
      DecodeConcat(a[end + len..], b);
      DecodeStep(a);
      DecodeStep(a + b);
      var (events, rest) := Decode(a[end + len..]);
      PrependTwice(EventOf(a[..end]), events, Decode(rest + b));
    } else {
      DecodeRest(a);
      PrependNothing(Decode(a + b));
    }
  }

  /** A decoder after any number of chunks: the events so far and the buffer; `None` once a feed failed. */
  function FeedAll(buf: Bytes, chunks: seq<Bytes>): Option<(seq<Bytes>, Bytes)>
    decreases |chunks|
  {
    if |chunks| == 0 then Some(([], buf)) else
      var (events, rest) := Decode(buf + chunks[0]);
      if |rest| > MAX_PENDING_BYTES then None else
        match FeedAll(rest, chunks[1..])
        case None => None
        case Some(decoded) => Some(Prepend(events, decoded))
  }

  function ConcatBytes(chunks: seq<Bytes>): Bytes {
    if |chunks| == 0 then [] else chunks[0] + ConcatBytes(chunks[1..])
  }

  /** What is left in the buffer after the first `k` chunks, were there no limit. */
  function LeftAfter(buf: Bytes, chunks: seq<Bytes>, k: nat): Bytes
    requires k <= |chunks|
  {
    Decode(buf + ConcatBytes(chunks[..k])).1
  }

  lemma LeftAfterFirst(buf: Bytes, chunks: seq<Bytes>, k: nat)
    requires 1 <= k <= |chunks|
    ensures LeftAfter(buf, chunks, k) == LeftAfter(Decode(buf + chunks[0]).1, chunks[1..], k - 1)
  {
    hide Decode;
    var more := ConcatBytes(chunks[1..][..k - 1]);
    assert chunks[..k][1..] == chunks[1..][..k - 1];
    assert buf + ConcatBytes(chunks[..k]) == (buf + chunks[0]) + more;
    DecodeConcat(buf + chunks[0], more);
  }

  lemma LeftAfterNone(buf: Bytes, chunks: seq<Bytes>)
    requires Find(buf) == None
    ensures LeftAfter(buf, chunks, 0) == buf
  {
    assert buf + ConcatBytes(chunks[..0]) == buf;
  }

  /** Any split of a stream gives the events and the leftover of feeding it whole. */
  lemma {:induction false} ChunkingIndependent(buf: Bytes, chunks: seq<Bytes>)
    requires Find(buf) == None
    ensures FeedAll(buf, chunks).Some? ==> FeedAll(buf, chunks).value == Decode(buf + ConcatBytes(chunks))
    decreases |chunks|
  {
    hide Decode, Find;
    if |chunks| == 0 {
      assert buf + [] == buf;
      DecodeRest(buf);
    } else {
      var fed, more := buf + chunks[0], ConcatBytes(chunks[1..]);
      LeftoverIsQuiet(fed);
      DecodeConcat(fed, more);
      assert buf + ConcatBytes(chunks) == fed + more;
      var rest := Decode(fed).1;
      ChunkingIndependent(rest, chunks[1..]);
      assert FeedAll(buf, chunks).Some? ==> FeedAll(rest, chunks[1..]).Some?;
    }
  }

  /** A split stream is decoded without error exactly when no prefix of its chunks leaves more than
      the limit. */
  lemma {:induction false} FeedAllSucceeds(buf: Bytes, chunks: seq<Bytes>)
    requires Find(buf) == None
    ensures FeedAll(buf, chunks).Some? <==>
            forall k | 1 <= k <= |chunks| :: |LeftAfter(buf, chunks, k)| <= MAX_PENDING_BYTES
    decreases |chunks|
  {
    if |chunks| > 0 {
      var rest := Decode(buf + chunks[0]).1;
      LeftoverIsQuiet(buf + chunks[0]);
      hide Decode, LeftAfter;
      FeedAllSucceeds(rest, chunks[1..]);
      LeftAfterNone(rest, chunks[1..]);
      forall k | 1 <= k <= |chunks|
        ensures LeftAfter(buf, chunks, k) == LeftAfter(rest, chunks[1..], k - 1)
      {
        LeftAfterFirst(buf, chunks, k);
      }
      assert LeftAfter(buf, chunks, 1) == rest;
      forall k | 1 <= k <= |chunks[1..]|
        ensures LeftAfter(rest, chunks[1..], k) == LeftAfter(buf, chunks, k + 1)
      {
        LeftAfterFirst(buf, chunks, k + 1);
      }
    }
  }

  lemma {:induction false} LeftoverIsQuiet(buf: Bytes)
    ensures Find(Decode(buf).1) == None
    decreases |buf|
  {
    hide Decode, Find, EventOf;
    if Find(buf).Some? {
      var (end, len) := Find(buf).value;
      DecodeStep(buf);
      LeftoverIsQuiet(buf[end + len..]);
    } else {
      DecodeRest(buf);
    }
  }

  // ---------------------------------------------------------------------------
  // Printed payloads come back.
  // ---------------------------------------------------------------------------

  predicate IsEol(eol: Bytes) {
    eol in [[LF], [CR, LF], [CR]]
  }

  predicate IsLine(line: Bytes) {
    CR !in line && LF !in line
  }

  /** A line of an event: data, with or without the space that is dropped, or any other line, like a comment or the
      name of the event. */
  datatype Item = Data(text: Bytes, spaced: bool) | Other(line: Bytes)

  function RawLine(item: Item): Bytes {
    match item
    case Data(text, spaced) => DATA + (if spaced then [SPACE] else []) + text
    case Other(line) => line
  }

  predicate IsItem(item: Item) {
    match item
    case Data(text, spaced) => IsLine(text) && (!spaced && |text| > 0 ==> text[0] != SPACE)
    case Other(line) => IsLine(line) && |line| > 0 && !(DATA <= line)
  }

  function RawLines(items: seq<Item>): (lines: seq<Bytes>)
    ensures |lines| == |items|
    ensures forall i | 0 <= i < |items| :: lines[i] == RawLine(items[i])
  {
    seq(|items|, i requires 0 <= i < |items| => RawLine(items[i]))
  }

  function DataOf(items: seq<Item>): seq<Bytes> {
    if |items| == 0 then []
    else (if items[0].Data? then [items[0].text] else []) + DataOf(items[1..])
  }

  /** An event as it is sent, and the payload that its data lines carry, line by line, if it has any. */
  datatype Message = Message(items: seq<Item>, payload: Option<Bytes>)

  predicate IsMessage(m: Message) {
    && |m.items| > 0 && (forall item <- m.items :: IsItem(item))
    && match m.payload
       case None => DataOf(m.items) == []
       case Some(payload) => CR !in payload && DataOf(m.items) == Split(payload, LF)
  }

  function RawOf(lines: seq<Bytes>, eol: Bytes): Bytes
    requires |lines| > 0
  {
    if |lines| == 1 then lines[0] else lines[0] + eol + RawOf(lines[1..], eol)
  }

  /** The lines of an event, each with its end, and a blank line. */
  function Print(lines: seq<Bytes>, eol: Bytes): Bytes {
    if |lines| == 0 then eol else lines[0] + eol + Print(lines[1..], eol)
  }

  function PrintAll(messages: seq<Message>, eol: Bytes): Bytes {
    if |messages| == 0 then [] else Print(RawLines(messages[0].items), eol) + PrintAll(messages[1..], eol)
  }

  function PayloadsOf(messages: seq<Message>): seq<Bytes> {
    if |messages| == 0 then [] else
      (match messages[0].payload case Some(payload) => [payload] case None => []) + PayloadsOf(messages[1..])
  }

  lemma JoinOne(line: Bytes)
    ensures JoinLf([line]) == line
  {
  }

  lemma JoinCons(line: Bytes, more: seq<Bytes>)
    requires |more| > 0
    ensures JoinLf([line] + more) == line + [LF] + JoinLf(more)
  {
    assert ([line] + more)[1..] == more;
  }

  lemma {:induction false} SplitJoins(s: Bytes)
    ensures JoinLf(Split(s, LF)) == s
    ensures |Split(s, LF)| == 1 <==> LF !in s
    ensures |Split(s, LF)| > 0
    decreases |s|
  {
    hide JoinLf, IndexOf;
    var n := IndexOf(s, LF);
    if n < |s| {
      SplitJoins(s[n + 1..]);
      JoinCons(s[..n], Split(s[n + 1..], LF));
      assert s[..n] + [LF] + s[n + 1..] == s;
    } else {
      assert s[..n] == s;
      JoinOne(s);
    }
  }

  lemma NoSepAt(s: Bytes)
    requires |s| > 0 && s[0] != CR && s[0] != LF
    ensures SepLen(s) == 0
  {
    assert |s| >= 2 ==> s[..2][0] == s[0];
    assert |s| >= 4 ==> s[..4][0] == s[0];
  }

  /** A line holds no separator. */
  lemma {:induction false} FindSkips(line: Bytes, rest: Bytes)
    requires IsLine(line)
    ensures Find(line + rest) == Shift(|line|, Find(rest))
  {
    var s := line + rest;
    if |line| == 0 {
      assert s == rest;
    } else {
      assert s[0] == line[0] && s[1..] == line[1..] + rest;
      FindSkips(line[1..], rest);
      NoSepAt(s);
    }
  }

  lemma FindSkipsEol(eol: Bytes, rest: Bytes)
    requires IsEol(eol) && |rest| > 0 && rest[0] != CR && rest[0] != LF
    ensures Find(eol + rest) == Shift(|eol|, Find(rest))
  {
    var s := eol + rest;
    assert s[|eol|] == rest[0];
    assert s[|eol|..] == rest;
    if |eol| == 2 {
      assert |s| >= 4 ==> s[..4][2] == rest[0];
      assert s[..2][1] == LF;
      assert SepLen(s) == 0;
      assert s[1..][..2][1] == rest[0];
      assert SepLen(s[1..]) == 0;
      assert s[1..][1..] == rest;
    } else {
      assert s[..2][1] == rest[0];
      assert |s| >= 4 ==> s[..4][1] == rest[0];
      assert SepLen(s) == 0;
      assert s[1..] == rest;
    }
  }

  lemma FindEnds(eol: Bytes, rest: Bytes)
    requires IsEol(eol)
    ensures Find(eol + eol + rest) == Some((0, 2 * |eol|))
  {
    var s := eol + eol + rest;
    assert s[..2 * |eol|] == eol + eol;
    assert eol == [CR, LF] ==> s[..4] == [CR, LF, CR, LF];
    assert eol == [LF] ==> s[0] == LF;
    assert eol == [CR] ==> s[0] == CR && s[1] == CR;
  }

  predicate AreLines(lines: seq<Bytes>) {
    |lines| > 0 && forall i | 0 <= i < |lines| :: |lines[i]| > 0 && IsLine(lines[i])
  }

  lemma RawStarts(lines: seq<Bytes>, eol: Bytes, rest: Bytes)
    requires AreLines(lines)
    ensures |RawOf(lines, eol) + rest| > 0
    ensures (RawOf(lines, eol) + rest)[0] != CR && (RawOf(lines, eol) + rest)[0] != LF
  {
    assert (RawOf(lines, eol) + rest)[0] == lines[0][0] && lines[0][0] in lines[0];
  }

  lemma {:induction false} PrintIsRaw(lines: seq<Bytes>, eol: Bytes)
    requires |lines| > 0
    ensures Print(lines, eol) == RawOf(lines, eol) + eol + eol
  {
    if |lines| == 1 {
      assert Print(lines[1..], eol) == eol;
    } else {
      PrintIsRaw(lines[1..], eol);
    }
  }

  /** The first separator after a printed event is its own. */
  lemma {:induction false} FindPrinted(lines: seq<Bytes>, eol: Bytes, rest: Bytes)
    requires AreLines(lines) && IsEol(eol)
    ensures Find(RawOf(lines, eol) + (eol + eol + rest)) == Some((|RawOf(lines, eol)|, 2 * |eol|))
  {
    hide Find;
    var end := eol + eol + rest;
    if |lines| == 1 {
      FindSkips(lines[0], end);
      FindEnds(eol, rest);
    } else {
      var more := RawOf(lines[1..], eol);
      RawStarts(lines[1..], eol, end);
      FindPrinted(lines[1..], eol, rest);
      FindSkipsEol(eol, more + end);
      FindSkips(lines[0], eol + (more + end));
      assert lines[0] + eol + more + end == lines[0] + (eol + (more + end));
    }
  }

  /** The lines of a printed event are read back when they end in LF. */
  lemma {:induction false} LinesOfRaw(lines: seq<Bytes>, eol: Bytes)
    requires AreLines(lines) && eol in [[LF], [CR, LF]]
    ensures Lines(RawOf(lines, eol), CR, LF) == lines
  {
    hide Lines;
    if |lines| == 1 {
      OneLine(lines[0]);
      assert lines == [lines[0]];
    } else {
      LinesOfRaw(lines[1..], eol);
      LinesOfTerminated(lines[0], RawOf(lines[1..], eol), CR, LF);
      LinesOfEnded(lines[0], RawOf(lines[1..], eol), CR, LF);
      assert lines == [lines[0]] + lines[1..];
    }
  }

  lemma OneLine(line: Bytes)
    requires LF !in line && |line| > 0
    ensures Lines(line, CR, LF) == [line]
  {
  }

  lemma ItemIsLine(item: Item)
    requires IsItem(item)
    ensures |RawLine(item)| > 0 && IsLine(RawLine(item))
    ensures item.Data? ==>
              StartsWith(RawLine(item), DATA) && DropSpace(RawLine(item)[|DATA|..]) == item.text
    ensures item.Other? ==> !StartsWith(RawLine(item), DATA)
  {
    if item.Data? {
      var tail := (if item.spaced then [SPACE] else []) + item.text;
      assert RawLine(item) == [100, 97, 116, 97, 58] + tail;
      assert RawLine(item)[..5] == DATA && RawLine(item)[5..] == tail;
    }
  }

  lemma ItemsAreLines(items: seq<Item>)
    requires |items| > 0 && forall item <- items :: IsItem(item)
    ensures AreLines(RawLines(items))
  {
    hide IsItem, RawLine, IsLine;
    forall i | 0 <= i < |items|
      ensures |RawLine(items[i])| > 0 && IsLine(RawLine(items[i]))
    {
      assert items[i] in items;
      ItemIsLine(items[i]);
    }
  }

  /** The data lines are read wherever they stand among the others. */
  lemma {:induction false} DataIsRead(items: seq<Item>)
    requires forall item <- items :: IsItem(item)
    ensures DataLines(RawLines(items)) == DataOf(items)
  {
    if |items| > 0 {
      assert items[0] in items;
      ItemIsLine(items[0]);
      hide IsItem, RawLine, StartsWith, DropSpace;
      assert forall item <- items[1..] :: item in items;
      DataIsRead(items[1..]);
      assert RawLines(items)[1..] == RawLines(items[1..]);
      assert [] + DataOf(items[1..]) == DataOf(items[1..]);
    }
  }

  lemma EventIsRead(m: Message, eol: Bytes)
    requires IsMessage(m) && eol in [[LF], [CR, LF]]
    ensures EventOf(RawOf(RawLines(m.items), eol)) == PayloadsOf([m])
  {
    hide Lines, RawOf, AreLines, DataLines, RawLines, PayloadsOf, DataOf;
    ItemsAreLines(m.items);
    DataIsRead(m.items);
    LinesOfRaw(RawLines(m.items), eol);
    PayloadIsJoined(m);
  }

  /** Decoding one printed event and what follows it. */
  lemma DecodePrinted(m: Message, eol: Bytes, rest: Bytes)
    requires IsMessage(m) && eol in [[LF], [CR, LF]]
    ensures Decode(Print(RawLines(m.items), eol) + rest) == Prepend(PayloadsOf([m]), Decode(rest))
  {
    hide Find, Print, RawOf, AreLines, RawLines, PayloadsOf, EventOf, Decode, DataOf, Split;
    var lines := RawLines(m.items);
    ItemsAreLines(m.items);
    EventIsRead(m, eol);
    PrintIsRaw(lines, eol);
    FindPrinted(lines, eol, rest);
    Regroup(RawOf(lines, eol), eol, rest);
    DecodeStep(Print(lines, eol) + rest);
  }

  lemma Regroup(raw: Bytes, eol: Bytes, rest: Bytes)
    ensures var s := raw + eol + eol + rest;
            && s == raw + (eol + eol + rest) && s[..|raw|] == raw && s[|raw| + 2 * |eol|..] == rest
  {
  }

  lemma PayloadIsJoined(m: Message)
    requires IsMessage(m)
    ensures PayloadsOf([m]) == if DataOf(m.items) == [] then [] else [JoinLf(DataOf(m.items))]
  {
    assert [m][1..] == [];
    if m.payload.Some? {
      SplitJoins(m.payload.value);
    }
  }

  lemma PayloadsHead(messages: seq<Message>)
    requires |messages| > 0
    ensures PayloadsOf(messages) == PayloadsOf([messages[0]]) + PayloadsOf(messages[1..])
  {
    assert [messages[0]][1..] == [];
  }

  lemma {:induction false} DecodeStream(messages: seq<Message>, eol: Bytes)
    requires eol in [[LF], [CR, LF]] && forall m <- messages :: IsMessage(m)
    ensures Decode(PrintAll(messages, eol)) == (PayloadsOf(messages), [])
  {
    hide Find, Print, EventOf, Decode, IsMessage;
    if |messages| > 0 {
      assert messages[0] in messages && forall m <- messages[1..] :: m in messages;
      DecodeStream(messages[1..], eol);
      DecodePrinted(messages[0], eol, PrintAll(messages[1..], eol));
      PayloadsHead(messages);
      hide PayloadsOf;
    } else {
      DecodeNothing();
    }
  }

  /** A proper prefix of a printed event holds no separator. */
  lemma PartialIsQuiet(lines: seq<Bytes>, eol: Bytes, n: nat)
    requires AreLines(lines) && IsEol(eol) && n < |Print(lines, eol)|
    ensures Find(Print(lines, eol)[..n]) == None
  {
    hide Find, RawOf, Print;
    PrintIsRaw(lines, eol);
    FindPrinted(lines, eol, []);
    var e := Print(lines, eol);
    var raw := RawOf(lines, eol);
    assert e == raw + (eol + eol + []);
    if Find(e[..n]).Some? {
      assert e == e[..n] + e[n..];
      FindIsStable(e[..n], e[n..]);
    }
  }

  function SizeOf(m: Message, eol: Bytes): nat {
    |Print(RawLines(m.items), eol)|
  }

  /** Whatever prefix of a stream has arrived, less than one of its events is left in the buffer. */
  lemma {:induction false} LeftoverIsPartial(messages: seq<Message>, eol: Bytes, n: nat)
    requires eol in [[LF], [CR, LF]] && forall m <- messages :: IsMessage(m)
    requires n <= |PrintAll(messages, eol)|
    requires forall m <- messages :: SizeOf(m, eol) <= MAX_PENDING_BYTES + 1
    ensures |Decode(PrintAll(messages, eol)[..n]).1| <= MAX_PENDING_BYTES
  {
    hide Find, Print, Decode, AreLines;
    var all := PrintAll(messages, eol);
    if |messages| == 0 {
      assert all[..n] == [];
      DecodeNothing();
    } else {
      assert messages[0] in messages && forall m <- messages[1..] :: m in messages;
      var e := Print(RawLines(messages[0].items), eol);
      var more := PrintAll(messages[1..], eol);
      if n < |e| {
        ItemsAreLines(messages[0].items);
        PartialIsQuiet(RawLines(messages[0].items), eol, n);
        assert all[..n] == e[..n];
        DecodeRest(e[..n]);
        assert SizeOf(messages[0], eol) == |e|;
      } else {
        assert all[..n] == e + more[..n - |e|];
        DecodePrinted(messages[0], eol, more[..n - |e|]);
        LeftoverIsPartial(messages[1..], eol, n - |e|);
      }
    }
  }

  lemma DecodeNothing()
    ensures Decode([]) == ([], [])
  {
  }

  lemma {:induction false} ConcatPrefix(chunks: seq<Bytes>, k: nat)
    requires k <= |chunks|
    ensures ConcatBytes(chunks[..k]) <= ConcatBytes(chunks)
  {
    if k > 0 {
      ConcatPrefix(chunks[1..], k - 1);
      assert chunks[..k][1..] == chunks[1..][..k - 1];
    }
  }

  /** Printed events, their data lines anywhere among other lines, fed in any chunks: the payloads come out whole, in
      order, with nothing left, and events without data give nothing. No feed fails when each printed event is at
      most one byte over the limit. */
  lemma PayloadsDelivered(messages: seq<Message>, eol: Bytes, chunks: seq<Bytes>)
    requires eol in [[LF], [CR, LF]] && forall m <- messages :: IsMessage(m)
    requires ConcatBytes(chunks) == PrintAll(messages, eol)
    ensures FeedAll([], chunks) == None || FeedAll([], chunks) == Some((PayloadsOf(messages), []))
    ensures (forall m <- messages :: SizeOf(m, eol) <= MAX_PENDING_BYTES + 1) ==> FeedAll([], chunks).Some?
  {
    hide Decode, PrintAll, FeedAll, IsMessage, SizeOf, PayloadsOf;
    assert Find([]) == None;
    ChunkingIndependent([], chunks);
    assert [] + ConcatBytes(chunks) == ConcatBytes(chunks);
    DecodeStream(messages, eol);
    if forall m <- messages :: SizeOf(m, eol) <= MAX_PENDING_BYTES + 1 {
      forall k | 1 <= k <= |chunks|
        ensures |LeftAfter([], chunks, k)| <= MAX_PENDING_BYTES
      {
        ConcatPrefix(chunks, k);
        var part := ConcatBytes(chunks[..k]);
        assert [] + part == part == PrintAll(messages, eol)[..|part|];
        LeftoverIsPartial(messages, eol, |part|);
      }
      FeedAllSucceeds([], chunks);
    }
  }

  /** The limit is sharp: a longer event cut before its last byte is refused. */
  lemma LongEventIsRefused(m: Message, eol: Bytes)
    requires IsMessage(m) && IsEol(eol) && SizeOf(m, eol) > MAX_PENDING_BYTES + 1
    ensures var e := Print(RawLines(m.items), eol);
            FeedAll([], [e[..|e| - 1], e[|e| - 1..]]) == None
  {
    hide Decode, Print, Find, AreLines;
    var lines := RawLines(m.items);
    var e := Print(lines, eol);
    ItemsAreLines(m.items);
    PartialIsQuiet(lines, eol, |e| - 1);
    DecodeRest(e[..|e| - 1]);
    assert [] + e[..|e| - 1] == e[..|e| - 1];
  }

  // Any payload without a CR can be sent, and what becomes of it between lone CR line ends.

  /** One event with `payload` as its data, one line for each line of it. */
  function Plainly(payload: Bytes): Message {
    var lines := Split(payload, LF);
    Message(seq(|lines|, i requires 0 <= i < |lines| => Data(lines[i], true)), Some(payload))
  }

  lemma {:induction false} SplitIsLines(s: Bytes)
    requires CR !in s
    ensures forall line | line in Split(s, LF) :: IsLine(line)
    decreases |s|
  {
    var n := IndexOf(s, LF);
    if n < |s| {
      SplitIsLines(s[n + 1..]);
      assert Split(s, LF) == [s[..n]] + Split(s[n + 1..], LF);
    } else {
      assert s[..n] == s;
    }
  }

  lemma {:induction false} AllAreData(items: seq<Item>, lines: seq<Bytes>)
    requires |items| == |lines| && forall i | 0 <= i < |items| :: items[i] == Data(lines[i], true)
    ensures DataOf(items) == lines
  {
    if |items| > 0 {
      AllAreData(items[1..], lines[1..]);
      assert lines == [lines[0]] + lines[1..];
    }
  }

  lemma PlainlyIsMessage(payload: Bytes)
    requires CR !in payload
    ensures IsMessage(Plainly(payload))
  {
    SplitIsLines(payload);
    SplitJoins(payload);
    hide Split;
    AllAreData(Plainly(payload).items, Split(payload, LF));
    assert forall i | 0 <= i < |Split(payload, LF)| :: Split(payload, LF)[i] in Split(payload, LF);
  }

  /** Lone CR line ends: a blank line between them ends an event, but they do not split its lines, so
      exactly the payloads of one line survive. */
  lemma LoneCrKeepsSingleLines(payload: Bytes)
    requires CR !in payload
    ensures Decode(Print(RawLines(Plainly(payload).items), [CR])) == ([payload], []) <==> LF !in payload
  {
    hide Find, Lines, Print, RawOf, Decode, AreLines, RawLines, Split;
    PlainlyIsMessage(payload);
    SplitJoins(payload);
    var items := Plainly(payload).items;
    var lines := RawLines(items);
    var raw := RawOf(lines, [CR]);
    ItemsAreLines(items);
    PrintIsRaw(lines, [CR]);
    FindPrinted(lines, [CR], []);
    var e := Print(lines, [CR]);
    assert e == raw + ([CR] + [CR] + []);
    assert e[..|raw|] == raw && e[|raw| + 2..] == [];
    DecodeStep(e);
    DecodeNothing();
    RawHasNoLf(lines);
    DataOfOne(items, payload);
    assert Decode(e) == Prepend(EventOf(raw), ([], []));
    assert Decode(e).0 == EventOf(raw);
  }

  lemma {:induction false} RawHasNoLf(lines: seq<Bytes>)
    requires AreLines(lines)
    ensures LF !in RawOf(lines, [CR])
  {
    if |lines| > 1 {
      RawHasNoLf(lines[1..]);
    }
  }

  lemma Longer(text: Bytes, eol: Bytes, more: Bytes)
    ensures RawLine(Data(text, true)) + eol + more == RawLine(Data(text + eol + more, true))
  {
  }

  /** A raw event between lone CRs is one `data:` line. */
  lemma RawBody(items: seq<Item>) returns (body: Bytes)
    requires |items| > 0 && forall item <- items :: item.Data? && item.spaced
    ensures RawOf(RawLines(items), [CR]) == RawLine(Data(body, true))
    ensures |items| == 1 ==> body == items[0].text
    ensures |items| > 1 ==> CR in body
  {
    assert items[0] in items;
    if |items| == 1 {
      return items[0].text;
    }
    ghost var more := RawOf(RawLines(items)[1..], [CR]);
    body := items[0].text + [CR] + more;
    Longer(items[0].text, [CR], more);
    hide RawOf;
    assert body[|items[0].text|] == CR;
  }

  lemma DataOfOne(items: seq<Item>, payload: Bytes)
    requires CR !in payload && items == Plainly(payload).items && |items| > 0
    requires LF !in RawOf(RawLines(items), [CR])
    ensures EventOf(RawOf(RawLines(items), [CR])) == [payload] <==> |items| == 1
  {
    hide Lines, RawOf, Split;
    SplitJoins(payload);
    var raw := RawOf(RawLines(items), [CR]);
    var body := RawBody(items);
    OneLine(raw);
    BodyIsRead(body);
    assert DataLines([raw]) == [body];
    JoinOne(body);
    if |items| == 1 {
      assert Split(payload, LF) == [items[0].text];
      JoinOne(items[0].text);
    }
  }

  lemma BodyIsRead(body: Bytes)
    ensures StartsWith(RawLine(Data(body, true)), DATA) && DropSpace(RawLine(Data(body, true))[|DATA|..]) == body
  {
    assert RawLine(Data(body, true)) == DATA + ([SPACE] + body);
    assert RawLine(Data(body, true))[..5] == DATA && RawLine(Data(body, true))[5..] == [SPACE] + body;
  }
}
