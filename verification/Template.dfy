/** Placeholders in the parameters of an automation rule. A JSON pointer lookup into the event payload is a
    parameter, `lookup`. */
module Template {
  import opened Json
  import opened Text

  type Lookup = string -> Option<Value>

  const OPEN := "{{/"
  const CLOSE := "}}"

  /** The text a placeholder in a longer string turns into. */
  function Shown(found: Option<Value>): string {
    match found
    case None => ""
    case Some(Str(s)) => s
    case Some(v) => Print(v)
  }

  /** Where the next placeholder opens, and where its closing braces are. */
  function Next(rest: string): (at: Option<(nat, nat)>)
    ensures at.Some? ==> at.value.0 + 3 <= at.value.1 && at.value.1 + 2 <= |rest|
  {
    match FindText(rest, OPEN)
    case None => None
    case Some(start) =>
      match FindText(rest[start..], CLOSE)
      case None => None
      case Some(len) =>
        CloseIsLater(rest, start, len);
        Some((start, start + len))
  }

  /** Every placeholder of `rest` replaced. */
  function Interpolate(lookup: Lookup, rest: string): string
    decreases |rest|
  {
    match Next(rest)
    case None => rest
    case Some((start, end)) =>
      rest[..start] + Shown(lookup(rest[start + 2..end])) + Interpolate(lookup, rest[end + 2..])
  }

  /** The end of a placeholder is not inside its opening. */
  lemma CloseIsLater(rest: string, start: nat, len: nat)
    requires FindText(rest, OPEN) == Some(start) && FindText(rest[start..], CLOSE) == Some(len)
    ensures len >= 3
  {
    var s := rest[start..];
    assert s[0] == rest[start..start + 3][0] == '{';
    assert s[1] == rest[start..start + 3][1] == '{';
    assert s[2] == rest[start..start + 3][2] == '/';
    assert s[len] == s[len..len + 2][0] == '}';
  }

  /** The pointer of a string that is one placeholder and nothing else. */
  function WholePointer(s: string): Option<string> {
    if |s| >= 4 && s[..2] == "{{" && EndsWith(s, CLOSE) then
      var ptr := s[2..|s| - 2];
      if StartsWith(ptr, "/") && !Contains(ptr, CLOSE) && !Contains(ptr, "{{") then Some(ptr) else None
    else None
  }

  function RenderStr(lookup: Lookup, s: string): Value {
    match WholePointer(s)
    case Some(ptr) => (match lookup(ptr) case Some(v) => v case None => Null)
    case None => Str(Interpolate(lookup, s))
  }

  function Render(lookup: Lookup, template: Value): Value
    decreases template, 0
  {
    match template
    case Str(s) => RenderStr(lookup, s)
    case Arr(items) => Arr(RenderItems(lookup, items))
    case Obj(members) => Obj(RenderMembers(lookup, members))
    case _ => template
  }

  function RenderItems(lookup: Lookup, items: seq<Value>): seq<Value>
    decreases items, 1
  {
    if |items| == 0 then [] else [Render(lookup, items[0])] + RenderItems(lookup, items[1..])
  }

  function RenderMember(lookup: Lookup, member: (string, Value)): (string, Value)
    decreases member, 1
  {
    (member.0, Render(lookup, member.1))
  }

  function RenderMembers(lookup: Lookup, members: seq<(string, Value)>): seq<(string, Value)>
    decreases members, 2
  {
    if |members| == 0 then [] else [RenderMember(lookup, members[0])] + RenderMembers(lookup, members[1..])
  }

  predicate HasPlaceholders(template: Value)
    decreases template
  {
    match template
    case Str(s) => Contains(s, OPEN)
    case Arr(items) => exists i :: 0 <= i < |items| && HasPlaceholders(items[i])
    case Obj(members) => exists i :: 0 <= i < |members| && HasPlaceholders(members[i].1)
    case _ => false
  }

  method InterpolateText(lookup: Lookup, s: string) returns (out: string)
    ensures out == Interpolate(lookup, s)
  {
    hide FindText, Interpolate, Shown, Next;
    out := "";
    var rest := s;
    assert out + Interpolate(lookup, rest) == Interpolate(lookup, s);
    while true
      invariant out + Interpolate(lookup, rest) == Interpolate(lookup, s)
      decreases |rest|
    {
      NextIs(rest);
      InterpolateStep(lookup, rest);
      var start := FindText(rest, OPEN);
      if start.None? {
        break;
      }
      var len := FindText(rest[start.value..], CLOSE);
      if len.None? {
        break;
      }
      var end := start.value + len.value;
      assert Next(rest) == Some((start.value, end));
      var text, shown := rest[..start.value], Shown(lookup(rest[start.value + 2..end]));
      Assoc(out, text, shown, Interpolate(lookup, rest[end + 2..]));
      out := out + text + shown;
      rest := rest[end + 2..];
    }
    out := out + rest;
  }

  method RenderText(lookup: Lookup, s: string) returns (v: Value)
    ensures v == RenderStr(lookup, s)
  {
    hide WholePointer, Interpolate;
    var whole := WholePointer(s);
    if whole.Some? {
      var found := lookup(whole.value);
      return if found.Some? then found.value else Null;
    }
    var out := InterpolateText(lookup, s);
    return Str(out);
  }

  lemma Assoc(a: string, b: string, c: string, d: string)
    ensures a + (b + c + d) == ((a + b) + c) + d
  {
  }

  lemma NextIs(rest: string)
    ensures var start := FindText(rest, OPEN);
            if start.None? then Next(rest).None? else
              var len := FindText(rest[start.value..], CLOSE);
              if len.None? then Next(rest).None? else Next(rest) == Some((start.value, start.value + len.value))
  {
    hide FindText;
  }

  /** One turn of the loop. */
  lemma InterpolateStep(lookup: Lookup, rest: string)
    ensures Next(rest).None? ==> Interpolate(lookup, rest) == rest
    ensures Next(rest).Some? ==>
              var (start, end) := Next(rest).value;
              Interpolate(lookup, rest) ==
              rest[..start] + Shown(lookup(rest[start + 2..end])) + Interpolate(lookup, rest[end + 2..])
  {
    hide Next, Shown;
  }

  // ---------------------------------------------------------------------------
  // Skipping the rewrite is sound.
  // ---------------------------------------------------------------------------

  lemma WholeHasOpening(s: string)
    requires WholePointer(s).Some?
    ensures Contains(s, OPEN)
  {
    var ptr := s[2..|s| - 2];
    assert s[0] == s[..2][0] == '{' && s[1] == s[..2][1] == '{';
    assert s[2] == ptr[0] == ptr[..1][0] == '/';
    assert s[..3] == OPEN;
  }

  /** A string with no opening is rendered as itself. */
  lemma NoOpening(lookup: Lookup, s: string)
    requires !Contains(s, OPEN)
    ensures RenderStr(lookup, s) == Str(s)
  {
    hide WholePointer;
    if WholePointer(s).Some? {
      WholeHasOpening(s);
    }
  }

  /** A template without placeholders is left as it is, so the dispatcher may skip the rewrite. */
  lemma {:induction false} SkipIsSound(lookup: Lookup, template: Value)
    requires !HasPlaceholders(template)
    ensures Render(lookup, template) == template
    decreases template, 0
  {
    match template {
      case Str(s) => NoOpening(lookup, s);
      case Arr(items) => SkipItems(lookup, items);
      case Obj(members) => SkipMembers(lookup, members);
      case _ =>
    }
  }

  lemma {:induction false} SkipItems(lookup: Lookup, items: seq<Value>)
    requires forall i | 0 <= i < |items| :: !HasPlaceholders(items[i])
    ensures RenderItems(lookup, items) == items
    decreases items, 1
  {
    if |items| > 0 {
      SkipIsSound(lookup, items[0]);
      SkipItems(lookup, items[1..]);
    }
  }

  lemma {:induction false} SkipMembers(lookup: Lookup, members: seq<(string, Value)>)
    requires forall i | 0 <= i < |members| :: !HasPlaceholders(members[i].1)
    ensures RenderMembers(lookup, members) == members
    decreases members, 2
  {
    if |members| > 0 {
      SkipMember(lookup, members[0]);
      SkipMembers(lookup, members[1..]);
    }
  }

  lemma {:induction false} SkipMember(lookup: Lookup, member: (string, Value))
    requires !HasPlaceholders(member.1)
    ensures RenderMember(lookup, member) == member
    decreases member, 1
  {
    SkipIsSound(lookup, member.1);
  }

  // ---------------------------------------------------------------------------
  // A string put together from texts and placeholders.
  // ---------------------------------------------------------------------------

  datatype Piece = Lit(text: string) | Ptr(pointer: string)

  /** Texts are not empty and hold neither a closing brace nor an opening; pointers start with a slash and
      hold no closing brace. */
  predicate IsPiece(p: Piece) {
    match p
    case Lit(text) => |text| > 0 && '}' !in text && !Contains(text, OPEN)
    case Ptr(pointer) => |pointer| > 0 && pointer[0] == '/' && '}' !in pointer
  }

  /** Pieces of a kind, with no two texts side by side. */
  predicate ArePieces(pieces: seq<Piece>) {
    && (forall i | 0 <= i < |pieces| :: IsPiece(pieces[i]))
    && (forall i | 0 < i < |pieces| :: !(pieces[i - 1].Lit? && pieces[i].Lit?))
  }

  function WriteOne(p: Piece): string {
    match p
    case Lit(text) => text
    case Ptr(pointer) => "{{" + pointer + CLOSE
  }

  function Write(pieces: seq<Piece>): string {
    if |pieces| == 0 then "" else WriteOne(pieces[0]) + Write(pieces[1..])
  }

  function MeaningOne(lookup: Lookup, p: Piece): string {
    match p
    case Lit(text) => text
    case Ptr(pointer) =>
      match lookup(pointer)
      case None => ""
      case Some(v) => if v.Str? then v.s else Print(v)
  }

  lemma ShownIsMeant(lookup: Lookup, pointer: string)
    ensures MeaningOne(lookup, Ptr(pointer)) == Shown(lookup(pointer))
  {
  }

  /** What the pieces stand for. */
  function Meaning(lookup: Lookup, pieces: seq<Piece>): string {
    if |pieces| == 0 then "" else MeaningOne(lookup, pieces[0]) + Meaning(lookup, pieces[1..])
  }

  lemma WritePointer(pointer: string, more: string)
    ensures WriteOne(Ptr(pointer)) + more == "{{" + pointer + (CLOSE + more)
  {
  }

  /** The first opening after a text without one is where the text ends. */
  lemma {:induction false} FindOpen(text: string, s: string)
    requires !Contains(text, OPEN) && StartsWith(s, OPEN)
    ensures FindText(text + s, OPEN) == Some(|text|)
  {
    var all := text + s;
    if |text| == 0 {
      assert all == s;
    } else {
      assert s[..3][0] == s[0] == '{' && s[..3][1] == s[1] == '{';
      NotYet(text, s);
      assert all[1..] == text[1..] + s;
      FindOpen(text[1..], s);
    }
  }

  lemma NotYet(text: string, s: string)
    requires |text| > 0 && !StartsWith(text, OPEN) && |s| >= 2 && s[0] == '{' && s[1] == '{'
    ensures !StartsWith(text + s, OPEN)
  {
    var all := text + s;
    if |text| >= 3 {
      assert all[..3] == text[..3];
    } else {
      assert all[2] == '{';
      assert |all| >= 3 ==> all[..3][2] == all[2];
    }
  }

  lemma {:induction false} FindClose(text: string, more: string)
    requires '}' !in text
    ensures FindText(text + (CLOSE + more), CLOSE) == Some(|text|)
  {
    var all := text + (CLOSE + more);
    if |text| == 0 {
      assert all[..2] == CLOSE;
    } else {
      assert all[0] == text[0];
      assert all[..2][0] == all[0];
      assert all[1..] == text[1..] + (CLOSE + more);
      FindClose(text[1..], more);
    }
  }

  /** The next placeholder of a text followed by a written pointer is that pointer. */
  lemma NextPointer(text: string, pointer: string, more: string)
    requires !Contains(text, OPEN) && IsPiece(Ptr(pointer))
    ensures var s := text + ("{{" + pointer + (CLOSE + more));
            && Next(s) == Some((|text|, |text| + 2 + |pointer|))
            && s[..|text|] == text
            && s[|text| + 2..|text| + 2 + |pointer|] == pointer
            && s[|text| + 2 + |pointer| + 2..] == more
  {
    hide FindText, Contains;
    var tail := "{{" + pointer + (CLOSE + more);
    var s := text + tail;
    assert tail[..3] == OPEN;
    FindOpen(text, tail);
    assert s[|text|..] == tail;
    FindClose("{{" + pointer, more);
    assert s[|text| + 2..|text| + 2 + |pointer|] == tail[2..2 + |pointer|] == pointer;
    assert s[|text| + 4 + |pointer|..] == tail[4 + |pointer|..] == more;
  }

  /** Interpolating what was written gives what it means. */
  lemma {:induction false} InterpolateWritten(lookup: Lookup, pieces: seq<Piece>)
    requires ArePieces(pieces)
    ensures Interpolate(lookup, Write(pieces)) == Meaning(lookup, pieces)
    decreases |pieces|
  {
    hide Next, Contains, Shown, Interpolate;
    if |pieces| == 0 {
      EmptyHasNone();
      NoNext("");
      InterpolateStep(lookup, "");
    } else if pieces[0].Ptr? {
      var more := Write(pieces[1..]);
      InterpolateWritten(lookup, pieces[1..]);
      PointerFirst(lookup, "", pieces[0].pointer, more);
      WritePointer(pieces[0].pointer, more);
      assert Write(pieces) == "" + Write(pieces);
      ShownIsMeant(lookup, pieces[0].pointer);
      assert Meaning(lookup, pieces) == "" + (Shown(lookup(pieces[0].pointer)) + Meaning(lookup, pieces[1..]));
    } else if |pieces| == 1 {
      NoNext(pieces[0].text);
      InterpolateStep(lookup, pieces[0].text);
      assert Write(pieces[1..]) == "" && Meaning(lookup, pieces[1..]) == "";
      assert Write(pieces) == pieces[0].text == Meaning(lookup, pieces);
    } else {
      TwoPieces(lookup, pieces);
      InterpolateWritten(lookup, pieces[2..]);
      PointerFirst(lookup, pieces[0].text, pieces[1].pointer, Write(pieces[2..]));
    }
  }

  lemma EmptyHasNone()
    ensures !Contains("", OPEN)
  {
  }

  lemma TwoPieces(lookup: Lookup, pieces: seq<Piece>)
    requires |pieces| >= 2 && pieces[0].Lit? && pieces[1].Ptr?
    ensures Write(pieces) == pieces[0].text + ("{{" + pieces[1].pointer + (CLOSE + Write(pieces[2..])))
    ensures Meaning(lookup, pieces) ==
            pieces[0].text + (Shown(lookup(pieces[1].pointer)) + Meaning(lookup, pieces[2..]))
  {
    hide Shown;
    assert pieces[1..][1..] == pieces[2..];
    WritePointer(pieces[1].pointer, Write(pieces[2..]));
    ShownIsMeant(lookup, pieces[1].pointer);
    assert Meaning(lookup, pieces[1..]) == Shown(lookup(pieces[1].pointer)) + Meaning(lookup, pieces[2..]);
  }

  lemma NoNext(text: string)
    requires !Contains(text, OPEN)
    ensures Next(text) == None
  {
  }

  lemma PointerFirst(lookup: Lookup, text: string, pointer: string, more: string)
    requires text == "" || IsPiece(Lit(text))
    requires IsPiece(Ptr(pointer))
    ensures Interpolate(lookup, text + ("{{" + pointer + (CLOSE + more))) ==
            text + (Shown(lookup(pointer)) + Interpolate(lookup, more))
  {
    hide Interpolate, Next, Shown;
    NextPointer(text, pointer, more);
    InterpolateStep(lookup, text + ("{{" + pointer + (CLOSE + more)));
  }

  lemma TextIsNotWhole(text: string, rest: string)
    requires IsPiece(Lit(text)) && (rest == "" || (|rest| >= 2 && rest[0] == '{' && rest[1] == '{'))
    ensures WholePointer(text + rest).None?
  {
    hide Contains;
    var s := text + rest;
    NoOpeningStart(text);
    if rest == "" {
      assert s == text;
    } else {
      NotYet(text, rest);
    }
    if WholePointer(s).Some? {
      WholeStarts(s);
    }
  }

  lemma NoOpeningStart(text: string)
    requires !Contains(text, OPEN)
    ensures !StartsWith(text, OPEN)
  {
  }

  lemma WholeStarts(s: string)
    requires WholePointer(s).Some?
    ensures StartsWith(s, OPEN)
  {
    hide Contains;
    var ptr := s[2..|s| - 2];
    assert s[0] == s[..2][0] == '{' && s[1] == s[..2][1] == '{';
    assert s[2] == ptr[0] == ptr[..1][0] == '/';
  }

  lemma PointerAndMoreIsNotWhole(pointer: string, more: string)
    requires IsPiece(Ptr(pointer)) && (|more| >= 2 || (|more| == 1 && more[0] != '}'))
    ensures WholePointer("{{" + pointer + (CLOSE + more)).None?
  {
    var s := "{{" + pointer + (CLOSE + more);
    if |more| == 1 {
      assert s[|s| - 1] == more[0];
      assert s[|s| - 2..][1] == s[|s| - 1];
    } else {
      var ptr := s[2..|s| - 2];
      assert ptr == pointer + (CLOSE + more[..|more| - 2]);
      FindClose(pointer, more[..|more| - 2]);
    }
  }

  lemma WrittenLength(pieces: seq<Piece>)
    requires ArePieces(pieces) && |pieces| > 0
    ensures |Write(pieces)| >= 2 || (|Write(pieces)| == 1 && Write(pieces)[0] != '}')
    ensures pieces[0].Ptr? ==> |Write(pieces)| >= 2 && Write(pieces)[0] == '{' && Write(pieces)[1] == '{'
  {
    hide Contains;
    if pieces[0].Lit? && |pieces[0].text| == 1 && |Write(pieces)| == 1 {
      assert Write(pieces)[0] == pieces[0].text[0];
    }
  }

  lemma RestArePieces(pieces: seq<Piece>)
    requires ArePieces(pieces) && |pieces| > 0
    ensures ArePieces(pieces[1..])
    ensures |pieces| > 1 && pieces[0].Lit? ==> pieces[1].Ptr?
  {
    hide IsPiece;
    assert |pieces| > 1 ==> !(pieces[1 - 1].Lit? && pieces[1].Lit?);
  }

  /** A string written from texts and pointers, unless it is one pointer alone, is rendered as the texts and
      the values of the pointers, in order. */
  lemma WrittenIsRendered(lookup: Lookup, pieces: seq<Piece>)
    requires ArePieces(pieces) && !(|pieces| == 1 && pieces[0].Ptr?)
    ensures RenderStr(lookup, Write(pieces)) == Str(Meaning(lookup, pieces))
  {
    InterpolateWritten(lookup, pieces);
    hide Interpolate, Meaning, WholePointer, Contains;
    if |pieces| > 0 {
      RestArePieces(pieces);
      var more := Write(pieces[1..]);
      if |pieces| > 1 {
        WrittenLength(pieces[1..]);
      }
      if pieces[0].Lit? {
        TextIsNotWhole(pieces[0].text, more);
      } else {
        PointerAndMoreIsNotWhole(pieces[0].pointer, more);
        WritePointer(pieces[0].pointer, more);
      }
    } else {
      EmptyIsNotWhole();
    }
  }

  lemma EmptyIsNotWhole()
    ensures WholePointer("").None?
  {
  }

  /** One pointer alone keeps the type of its value; a pointer that holds an opening brace pair is shown as
      text instead. */
  lemma LonePointer(lookup: Lookup, pointer: string)
    requires IsPiece(Ptr(pointer))
    ensures RenderStr(lookup, "{{" + pointer + CLOSE) ==
            if Contains(pointer, "{{") then Str(Meaning(lookup, [Ptr(pointer)]))
            else match lookup(pointer) case Some(v) => v case None => Null
  {
    hide Shown;
    var s := "{{" + pointer + CLOSE;
    InterpolateWritten(lookup, [Ptr(pointer)]);
    assert Write([Ptr(pointer)]) == s;
    ShownIsMeant(lookup, pointer);
    assert Meaning(lookup, [Ptr(pointer)]) == Shown(lookup(pointer)) + "" == Shown(lookup(pointer));
    hide Interpolate, Meaning, Write;
    assert s[..2] == "{{" && s[|s| - 2..] == CLOSE && s[2..|s| - 2] == pointer;
    NoClose(pointer);
    assert pointer[..1] == "/";
  }

  lemma {:induction false} NoClose(text: string)
    requires '}' !in text
    ensures !Contains(text, CLOSE)
  {
    if |text| > 0 {
      NoClose(text[1..]);
      assert |text| >= 2 ==> text[..2][0] == text[0];
    }
  }

  // ---------------------------------------------------------------------------
  // Every string of a template is rendered where it stands.
  // ---------------------------------------------------------------------------

  lemma {:induction false} ItemsRendered(lookup: Lookup, items: seq<Value>)
    ensures |RenderItems(lookup, items)| == |items|
    ensures forall i | 0 <= i < |items| :: RenderItems(lookup, items)[i] == Render(lookup, items[i])
    decreases |items|
  {
    hide Render;
    if |items| > 0 {
      ItemsRendered(lookup, items[1..]);
    }
  }

  lemma {:induction false} MembersRendered(lookup: Lookup, members: seq<(string, Value)>)
    ensures |RenderMembers(lookup, members)| == |members|
    ensures forall i | 0 <= i < |members| ::
              RenderMembers(lookup, members)[i] == (members[i].0, Render(lookup, members[i].1))
    decreases |members|
  {
    hide Render;
    if |members| > 0 {
      MembersRendered(lookup, members[1..]);
    }
  }

  /** At every place of a template: a string is rendered, an array keeps its length, an object its keys, and
      anything else stays. */
  lemma {:induction false} RenderedInPlace(lookup: Lookup, template: Value, path: seq<nat>)
    requires At(template, path).Some?
    ensures var after := At(Render(lookup, template), path);
            && after.Some?
            && match At(template, path).value
               case Str(s) => after.value == RenderStr(lookup, s)
               case Arr(items) => after.value.Arr? && |after.value.items| == |items|
               case Obj(members) =>
                 && after.value.Obj? && |after.value.members| == |members|
                 && forall i | 0 <= i < |members| :: after.value.members[i].0 == members[i].0
               case other => after.value == other
    decreases |path|
  {
    hide RenderStr;
    match template {
      case Arr(items) =>
        ItemsRendered(lookup, items);
        if |path| > 0 {
          RenderedInPlace(lookup, items[path[0]], path[1..]);
        }
      case Obj(members) =>
        MembersRendered(lookup, members);
        if |path| > 0 {
          RenderedInPlace(lookup, members[path[0]].1, path[1..]);
        }
      case _ =>
    }
  }
}
