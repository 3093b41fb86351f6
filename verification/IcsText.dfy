/** Escaping of iCalendar text (section 3.3.11 of RFC 5545). */
module IcsText {
  import opened Text

  // ---------------------------------------------------------------------------
  // Escaping.
  // ---------------------------------------------------------------------------

  function EscapeChar(c: char): string {
    if c == '\\' then "\\\\"
    else if c == ';' then "\\;"
    else if c == ',' then "\\,"
    else if c == '\n' || c == '\r' then "\\n"
    else [c]
  }

  function Escape(text: string): string {
    if |text| == 0 then "" else EscapeChar(text[0]) + Escape(text[1..])
  }

  function Unescape(text: string): string {
    if |text| == 0 then ""
    else if text[0] != '\\' then [text[0]] + Unescape(text[1..])
    else if |text| == 1 then "\\"
    else (if text[1] == 'n' || text[1] == 'N' then "\n" else [text[1]]) + Unescape(text[2..])
  }

  method EscapeText(text: string) returns (out: string)
    ensures out == Escape(text)
  {
    out := "";
    for i := 0 to |text|
      invariant out + Escape(text[i..]) == Escape(text)
    {
      var ch := text[i];
      assert Escape(text[i..]) == EscapeChar(ch) + Escape(text[i + 1..]) by {
        assert text[i..][1..] == text[i + 1..];
      }
      assert out + Escape(text[i..]) == (out + EscapeChar(ch)) + Escape(text[i + 1..]);
      if ch == '\\' {
        out := out + "\\\\";
      } else if ch == ';' {
        out := out + "\\;";
      } else if ch == ',' {
        out := out + "\\,";
      } else if ch == '\n' || ch == '\r' {
        out := out + "\\n";
      } else {
        out := out + [ch];
      }
    }
  }

  method UnescapeText(text: string) returns (out: string)
    ensures out == Unescape(text)
  {
    out := "";
    var i := 0;
    while i < |text|
      invariant i <= |text|
      invariant out + Unescape(text[i..]) == Unescape(text)
    {
      var ch := text[i];
      UnescapeStep(out, text, i);
      i := i + 1;
      if ch == '\\' {
        if i == |text| {
          out := out + "\\";
        } else {
          out := out + if text[i] == 'n' || text[i] == 'N' then "\n" else [text[i]];
          i := i + 1;
        }
      } else {
        out := out + [ch];
      }
    }
  }

  lemma UnescapeStep(out: string, text: string, i: nat)
    requires i < |text|
    ensures out + Unescape(text[i..]) ==
      if text[i] != '\\' then (out + [text[i]]) + Unescape(text[i + 1..])
      else if i + 1 == |text| then (out + "\\") + Unescape(text[i + 1..])
      else (out + if text[i + 1] == 'n' || text[i + 1] == 'N' then "\n" else [text[i + 1]]) + Unescape(text[i + 2..])
  {
    assert text[i..][1..] == text[i + 1..];
    if i + 1 < |text| {
      assert text[i..][2..] == text[i + 2..];
    }
  }

  /** Carriage returns become line feeds. */
  function OnlyLf(text: string): string {
    seq(|text|, i requires 0 <= i < |text| => if text[i] == '\r' then '\n' else text[i])
  }

  lemma UnescapeHead(c: char, tail: string)
    ensures Unescape(EscapeChar(c) + tail) == [if c == '\r' then '\n' else c] + Unescape(tail)
  {
    var text := EscapeChar(c) + tail;
    if |EscapeChar(c)| == 2 {
      assert text[2..] == tail;
    } else {
      assert text[1..] == tail;
    }
  }

  /** Escaping puts any text on one line and loses nothing but the difference between CR and LF. */
  lemma {:induction false} EscapeRoundTrip(text: string)
    ensures Unescape(Escape(text)) == OnlyLf(text)
    ensures OnlyLf(text) == text <==> '\r' !in text
  {
    if |text| > 0 {
      hide Unescape, EscapeChar, OnlyLf;
      EscapeRoundTrip(text[1..]);
      UnescapeHead(text[0], Escape(text[1..]));
      OnlyLfHead(text);
    }
    OnlyLfKeeps(text);
  }

  lemma OnlyLfHead(text: string)
    requires |text| > 0
    ensures OnlyLf(text) == [if text[0] == '\r' then '\n' else text[0]] + OnlyLf(text[1..])
  {
  }

  lemma OnlyLfKeeps(text: string)
    ensures OnlyLf(text) == text <==> '\r' !in text
  {
  }

  lemma {:induction false} EscapeIsOneLine(text: string)
    ensures OneLine(Escape(text)) && '\r' !in Escape(text)
  {
    if |text| > 0 {
      EscapeIsOneLine(text[1..]);
    }
  }

  /** A CR alone does not end a line. */
  ghost predicate OneLine(text: string) {
    '\n' !in text
  }

  lemma {:induction false} UnescapePlain(text: string)
    requires '\\' !in text
    ensures Unescape(text) == text
  {
    if |text| > 0 {
      assert text[0] in text;
      UnescapePlain(text[1..]);
    }
  }

  lemma {:induction false} UnescapeIsShort(text: string)
    ensures |Unescape(text)| <= |text|
  {
    if |text| > 0 {
      UnescapeIsShort(text[1..]);
      if |text| > 1 {
        UnescapeIsShort(text[2..]);
      }
    }
  }

  /** A backslash with something after it. */
  predicate HasEscape(text: string) {
    |text| > 0 && '\\' in text[..|text| - 1]
  }

  /** A text is its own unescaped form exactly when no backslash stands before its last character. */
  lemma {:induction false} UnescapeKeeps(text: string)
    ensures Unescape(text) == text <==> !HasEscape(text)
  {
    if |text| > 1 {
      var tail := text[1..];
      UnescapeKeeps(tail);
      UnescapeIsShort(text[2..]);
      assert text[..|text| - 1] == [text[0]] + tail[..|tail| - 1];
      assert text == [text[0]] + tail;
    }
  }

  // ---------------------------------------------------------------------------
  // What the escapes are.
  // ---------------------------------------------------------------------------

  /** A character of a written text: one that stands for itself, or one after a backslash. */
  datatype Token = Bare(c: char) | Quoted(c: char)

  predicate AreTokens(tokens: seq<Token>) {
    forall i | 0 <= i < |tokens| :: tokens[i].Bare? ==> tokens[i].c != '\\'
  }

  function Written(tokens: seq<Token>): string {
    if |tokens| == 0 then ""
    else (if tokens[0].Bare? then [tokens[0].c] else ['\\', tokens[0].c]) + Written(tokens[1..])
  }

  function CharOf(token: Token): char {
    if token.Quoted? && token.c in "nN" then '\n' else token.c
  }

  function Meant(tokens: seq<Token>): (text: string)
    ensures |text| == |tokens|
  {
    seq(|tokens|, i requires 0 <= i < |tokens| => CharOf(tokens[i]))
  }

  /** A backslash quotes the character after it; `\\n` and `\\N` are line breaks; a last backslash stands for
      itself. */
  lemma {:induction false} TokensAreRead(tokens: seq<Token>)
    requires AreTokens(tokens)
    ensures Unescape(Written(tokens)) == Meant(tokens)
    ensures Unescape(Written(tokens) + "\\") == Meant(tokens) + "\\"
  {
    if |tokens| == 0 {
      assert Written(tokens) + "\\" == "\\";
    } else {
      TokensAreRead(tokens[1..]);
      var head := if tokens[0].Bare? then [tokens[0].c] else ['\\', tokens[0].c];
      var text := Written(tokens[1..]);
      TokenFirst(tokens[0], text);
      TokenFirst(tokens[0], text + "\\");
      assert Written(tokens) + "\\" == head + (text + "\\");
      assert Meant(tokens) == [CharOf(tokens[0])] + Meant(tokens[1..]);
      assert Meant(tokens) + "\\" == [CharOf(tokens[0])] + (Meant(tokens[1..]) + "\\");
    }
  }

  lemma TokenFirst(token: Token, text: string)
    requires token.Bare? ==> token.c != '\\'
    ensures Unescape((if token.Bare? then [token.c] else ['\\', token.c]) + text) ==
            [CharOf(token)] + Unescape(text)
  {
    var s := (if token.Bare? then [token.c] else ['\\', token.c]) + text;
    if token.Bare? {
      assert s[1..] == text;
    } else {
      assert s[2..] == text;
    }
  }

  /** An escaped text is written with every backslash, semicolon, comma and line break quoted, and nothing else. */
  lemma {:induction false} EscapeQuotes(text: string) returns (tokens: seq<Token>)
    ensures AreTokens(tokens) && |tokens| == |text| && Escape(text) == Written(tokens)
    ensures forall i | 0 <= i < |text| ::
              tokens[i] == if text[i] in "\\;," then Quoted(text[i])
                           else if text[i] in "\r\n" then Quoted('n')
                           else Bare(text[i])
  {
    if |text| == 0 {
      return [];
    }
    var rest := EscapeQuotes(text[1..]);
    var c := text[0];
    tokens := [if c in "\\;," then Quoted(c) else if c in "\r\n" then Quoted('n') else Bare(c)] + rest;
    assert tokens[1..] == rest;
  }
}
