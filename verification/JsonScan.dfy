/** Finding the first balanced JSON object in a model's reply. */
module JsonScan {
  import opened Json
  import opened Text

  datatype Mode = Code | InString | Escaped

  /** How many characters, from the front of `s`, until the object that is `depth` braces deep is closed. */
  function ScanEnd(s: string, depth: nat, mode: Mode): (end: Option<nat>)
    ensures end.Some? ==> 0 < end.value <= |s| && s[end.value - 1] == '}'
  {
    if |s| == 0 then None
    else if s[0] == '}' && mode.Code? && depth <= 1 then Some(1)
    else
      match ScanEnd(s[1..], DepthAfter(s[0], depth, mode), ModeAfter(s[0], mode))
      case None => None
      case Some(n) => Some(n + 1)
  }

  function ModeAfter(c: char, mode: Mode): Mode {
    match mode
    case Escaped => InString
    case InString => if c == '\\' then Escaped else if c == '"' then Code else InString
    case Code => if c == '"' then InString else Code
  }

  function DepthAfter(c: char, depth: nat, mode: Mode): nat {
    if !mode.Code? then depth
    else if c == '{' then depth + 1
    else if c == '}' && depth > 0 then depth - 1
    else depth
  }

  function FirstObject(text: string): Option<string> {
    var start := IndexOf(text, '{');
    if start == |text| then None else
      match ScanEnd(text[start..], 0, Code)
      case None => None
      case Some(n) => Some(text[start..start + n])
  }

  function Shift(n: nat, end: Option<nat>): Option<nat> {
    match end
    case None => None
    case Some(k) => Some(n + k)
  }

  method FirstBalancedObject(text: string) returns (found: Option<string>)
    ensures found == FirstObject(text)
  {
    hide ScanEnd, Shift;
    var start := IndexOf(text, '{');
    if start == |text| {
      return None;
    }
    ShiftZero(ScanEnd(text[start..], 0, Code));
    var depth: nat := 0;
    var inString, escaped := false, false;
    for i := start to |text|
      invariant escaped ==> inString
      invariant ScanEnd(text[start..], 0, Code) ==
                Shift(i - start, ScanEnd(text[i..], depth, ModeOf(inString, escaped)))
    {
      ScanHere(text, i, depth, ModeOf(inString, escaped));
      ShiftOne(i - start, ScanEnd(text[i + 1..], DepthAfter(text[i], depth, ModeOf(inString, escaped)),
        ModeAfter(text[i], ModeOf(inString, escaped))));
      if inString {
        if escaped {
          escaped := false;
        } else if text[i] == '\\' {
          escaped := true;
        } else if text[i] == '"' {
          inString := false;
        }
      } else if text[i] == '"' {
        inString := true;
      } else if text[i] == '{' {
        depth := depth + 1;
      } else if text[i] == '}' {
        depth := if depth > 0 then depth - 1 else 0;
        if depth == 0 {
          assert Shift(i - start, Some(1)) == Some(i - start + 1) by {
            ShiftSome(i - start, 1);
          }
          return Some(text[start..i + 1]);
        }
      }
    }
    ScanNothing(depth, ModeOf(inString, escaped));
    ShiftNone(|text| - start);
    return None;
  }

  lemma ShiftZero(end: Option<nat>)
    ensures Shift(0, end) == end
  {
  }

  lemma ShiftOne(n: nat, end: Option<nat>)
    ensures Shift(n, Shift(1, end)) == Shift(n + 1, end)
  {
  }

  lemma ShiftSome(n: nat, end: nat)
    ensures Shift(n, Some(end)) == Some(n + end)
  {
  }

  lemma ShiftNone(n: nat)
    ensures Shift(n, None) == None
  {
  }

  lemma ScanHere(text: string, i: nat, depth: nat, mode: Mode)
    requires i < |text|
    ensures ScanEnd(text[i..], depth, mode) ==
            if text[i] == '}' && mode.Code? && depth <= 1 then Some(1)
            else Shift(1, ScanEnd(text[i + 1..], DepthAfter(text[i], depth, mode), ModeAfter(text[i], mode)))
  {
    assert text[i..][1..] == text[i + 1..];
  }

  lemma ScanNothing(depth: nat, mode: Mode)
    ensures ScanEnd([], depth, mode) == None
  {
  }

  function ModeOf(inString: bool, escaped: bool): Mode {
    if escaped then Escaped else if inString then InString else Code
  }

  // ---------------------------------------------------------------------------
  // A printed value is passed over; a printed object is found.
  // ---------------------------------------------------------------------------

  lemma Assoc(a: string, b: string, c: string)
    ensures a + b + c == a + (b + c)
  {
  }

  lemma ScanChar(c: char, rest: string, depth: nat, mode: Mode)
    requires !(c == '}' && mode.Code? && depth <= 1)
    ensures ScanEnd([c] + rest, depth, mode) == Shift(1, ScanEnd(rest, DepthAfter(c, depth, mode), ModeAfter(c, mode)))
  {
    assert ([c] + rest)[1..] == rest;
  }

  /** Characters that are no quote and no brace. */
  predicate IsNeutral(s: string) {
    forall i | 0 <= i < |s| :: s[i] != '"' && s[i] != '{' && s[i] != '}'
  }

  lemma {:induction false} ScanNeutral(s: string, rest: string, depth: nat)
    requires IsNeutral(s)
    ensures ScanEnd(s + rest, depth, Code) == Shift(|s|, ScanEnd(rest, depth, Code))
  {
    if |s| == 0 {
      assert s + rest == rest;
    } else {
      assert s + rest == [s[0]] + (s[1..] + rest);
      ScanChar(s[0], s[1..] + rest, depth, Code);
      ScanNeutral(s[1..], rest, depth);
    }
  }

  /** Characters inside a string that do not end it. */
  lemma {:induction false} ScanPlain(s: string, rest: string, depth: nat)
    requires forall i | 0 <= i < |s| :: s[i] != '"' && s[i] != '\\'
    ensures ScanEnd(s + rest, depth, InString) == Shift(|s|, ScanEnd(rest, depth, InString))
  {
    if |s| == 0 {
      assert s + rest == rest;
    } else {
      assert s + rest == [s[0]] + (s[1..] + rest);
      ScanChar(s[0], s[1..] + rest, depth, InString);
      ScanPlain(s[1..], rest, depth);
    }
  }

  lemma ScanEscapeChar(c: char, rest: string, depth: nat)
    ensures ScanEnd(EscapeChar(c) + rest, depth, InString) == Shift(|EscapeChar(c)|, ScanEnd(rest, depth, InString))
  {
    hide ScanEnd;
    var e := EscapeChar(c);
    if |e| == 1 {
      ScanPlain(e, rest, depth);
    } else {
      assert e[0] == '\\';
      assert e + rest == ['\\'] + ([e[1]] + (e[2..] + rest));
      ScanChar('\\', [e[1]] + (e[2..] + rest), depth, InString);
      ScanChar(e[1], e[2..] + rest, depth, Escaped);
      ScanPlain(e[2..], rest, depth);
    }
  }

  lemma {:induction false} ScanEscaped(s: string, rest: string, depth: nat)
    ensures ScanEnd(EscapeString(s) + rest, depth, InString) == Shift(|EscapeString(s)|, ScanEnd(rest, depth, InString))
  {
    hide ScanEnd, EscapeChar;
    if |s| == 0 {
      assert EscapeString(s) + rest == rest;
    } else {
      var first, more := EscapeChar(s[0]), EscapeString(s[1..]);
      Assoc(first, more, rest);
      ScanEscapeChar(s[0], more + rest, depth);
      ScanEscaped(s[1..], rest, depth);
    }
  }

  /** A quoted string, whatever it holds, is passed over. */
  lemma ScanQuote(s: string, rest: string, depth: nat)
    ensures ScanEnd(Quote(s) + rest, depth, Code) == Shift(|Quote(s)|, ScanEnd(rest, depth, Code))
  {
    hide ScanEnd, EscapeString;
    var e := EscapeString(s);
    assert Quote(s) + rest == ['"'] + (e + (['"'] + rest));
    ScanChar('"', e + (['"'] + rest), depth, Code);
    ScanEscaped(s, ['"'] + rest, depth);
    ScanChar('"', rest, depth, InString);
  }

  lemma Wrapped(open: char, inner: string, close: char, rest: string)
    ensures [open] + inner + [close] + rest == [open] + (inner + ([close] + rest))
  {
  }

  lemma ShiftThrice(a: nat, b: nat, c: nat, end: Option<nat>)
    ensures Shift(a, Shift(b, Shift(c, end))) == Shift(a + b + c, end)
  {
  }

  lemma Followed(first: string, mark: char, second: string, rest: string)
    ensures first + [mark] + second + rest == first + ([mark] + (second + rest))
  {
  }

  lemma ScanLeaf(v: Value, rest: string, depth: nat)
    requires WellFormed(v) && (v.Null? || v.Bool? || v.Num?)
    ensures ScanEnd(Print(v) + rest, depth, Code) == Shift(|Print(v)|, ScanEnd(rest, depth, Code))
  {
    hide ScanEnd;
    assert IsNeutral(Print(v));
    ScanNeutral(Print(v), rest, depth);
  }

  lemma {:induction false} ScanArray(items: seq<Value>, rest: string, depth: nat)
    requires depth > 0 && forall i | 0 <= i < |items| :: WellFormed(items[i])
    ensures var text := "[" + PrintItems(items) + "]";
            ScanEnd(text + rest, depth, Code) == Shift(|text|, ScanEnd(rest, depth, Code))
    decreases items, 2
  {
    hide ScanEnd, PrintItems, WellFormed;
    var inner := PrintItems(items);
    Wrapped('[', inner, ']', rest);
    ScanChar('[', inner + ([']'] + rest), depth, Code);
    ScanItems(items, [']'] + rest, depth);
    ScanChar(']', rest, depth, Code);
  }

  lemma {:induction false} ScanObject(members: seq<(string, Value)>, rest: string, depth: nat)
    requires depth > 0 && forall i | 0 <= i < |members| :: WellFormed(members[i].1)
    ensures var text := "{" + PrintMembers(members) + "}";
            ScanEnd(text + rest, depth, Code) == Shift(|text|, ScanEnd(rest, depth, Code))
    decreases members, 3
  {
    hide ScanEnd, PrintMembers, WellFormed;
    var inner := PrintMembers(members);
    Wrapped('{', inner, '}', rest);
    ScanChar('{', inner + (['}'] + rest), depth, Code);
    ScanMembers(members, ['}'] + rest, depth + 1);
    ScanChar('}', rest, depth + 1, Code);
  }

  /** A printed value inside an object is passed over. */
  lemma {:induction false} ScanValue(v: Value, rest: string, depth: nat)
    requires WellFormed(v) && depth > 0
    ensures ScanEnd(Print(v) + rest, depth, Code) == Shift(|Print(v)|, ScanEnd(rest, depth, Code))
    decreases v, 0
  {
    hide ScanEnd, Quote, PrintItems, PrintMembers, Shift;
    match v {
      case Str(s) => ScanQuote(s, rest, depth);
      case Arr(items) => ScanArray(items, rest, depth);
      case Obj(members) => ScanObject(members, rest, depth);
      case _ => ScanLeaf(v, rest, depth);
    }
  }

  lemma {:induction false} ScanItems(items: seq<Value>, rest: string, depth: nat)
    requires depth > 0 && forall i | 0 <= i < |items| :: WellFormed(items[i])
    ensures ScanEnd(PrintItems(items) + rest, depth, Code) == Shift(|PrintItems(items)|, ScanEnd(rest, depth, Code))
    decreases items, 1
  {
    hide ScanEnd, Print, WellFormed, Shift;
    ShiftZero(ScanEnd(rest, depth, Code));
    if |items| == 0 {
      assert PrintItems(items) + rest == rest;
    } else if |items| == 1 {
      ScanValue(items[0], rest, depth);
    } else {
      var first, more := Print(items[0]), PrintItems(items[1..]);
      Followed(first, ',', more, rest);
      ScanValue(items[0], [','] + (more + rest), depth);
      ScanChar(',', more + rest, depth, Code);
      ScanItems(items[1..], rest, depth);
      ShiftThrice(|first|, 1, |more|, ScanEnd(rest, depth, Code));
    }
  }

  lemma {:induction false} ScanMember(member: (string, Value), rest: string, depth: nat)
    requires depth > 0 && WellFormed(member.1)
    ensures ScanEnd(PrintMember(member) + rest, depth, Code) == Shift(|PrintMember(member)|, ScanEnd(rest, depth, Code))
    decreases member, 1
  {
    hide ScanEnd, Print, Quote, WellFormed;
    var key, value := Quote(member.0), Print(member.1);
    Followed(key, ':', value, rest);
    ScanQuote(member.0, [':'] + (value + rest), depth);
    ScanChar(':', value + rest, depth, Code);
    ScanValue(member.1, rest, depth);
  }

  lemma {:induction false} ScanMembers(members: seq<(string, Value)>, rest: string, depth: nat)
    requires depth > 0 && forall i | 0 <= i < |members| :: WellFormed(members[i].1)
    ensures ScanEnd(PrintMembers(members) + rest, depth, Code) ==
            Shift(|PrintMembers(members)|, ScanEnd(rest, depth, Code))
    decreases members, 2
  {
    hide ScanEnd, PrintMember, WellFormed, Shift;
    ShiftZero(ScanEnd(rest, depth, Code));
    if |members| == 0 {
      assert PrintMembers(members) + rest == rest;
    } else if |members| == 1 {
      ScanMember(members[0], rest, depth);
    } else {
      var first, more := PrintMember(members[0]), PrintMembers(members[1..]);
      Followed(first, ',', more, rest);
      ScanMember(members[0], [','] + (more + rest), depth);
      ScanChar(',', more + rest, depth, Code);
      ScanMembers(members[1..], rest, depth);
      ShiftThrice(|first|, 1, |more|, ScanEnd(rest, depth, Code));
    }
  }

  /** An object printed in the middle of any text is found, whole and alone, when no brace opens before it. */
  lemma PrintedObjectIsFound(prefix: string, v: Value, suffix: string)
    requires v.Obj? && WellFormed(v) && '{' !in prefix
    ensures FirstObject(prefix + Print(v) + suffix) == Some(Print(v))
  {
    hide ScanEnd, PrintMembers;
    var inner := PrintMembers(v.members);
    var text := prefix + Print(v) + suffix;
    assert Print(v) == ['{'] + inner + ['}'];
    assert text == prefix + ['{'] + (inner + ['}'] + suffix);
    IndexOfAfter(prefix, '{', inner + ['}'] + suffix);
    assert text[|prefix|..] == ['{'] + (inner + (['}'] + suffix));
    ScanChar('{', inner + (['}'] + suffix), 0, Code);
    ScanMembers(v.members, ['}'] + suffix, 1);
    ScanClose(suffix);
    assert text[|prefix|..|prefix| + |Print(v)|] == Print(v);
  }

  lemma ScanClose(rest: string)
    ensures ScanEnd(['}'] + rest, 1, Code) == Some(1)
  {
  }
}
