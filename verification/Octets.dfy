/** The UTF-8 octets of a text (section 3 of RFC 3629), and where it may be cut. */
module Octets {
  import opened Text

  predicate IsAscii(text: string) {
    forall i | 0 <= i < |text| :: text[i] < '\U{80}'
  }

  /** The octets of a text, each shown as the character of that number. */
  function Utf8(text: string): string {
    if |text| == 0 then "" else Utf8Char(text[0]) + Utf8(text[1..])
  }

  function Utf8Char(c: char): (octets: string)
    ensures 1 <= |octets| <= 4
    ensures c < '\U{80}' ==> octets == [c]
    ensures c >= '\U{80}' ==> |octets| > 1 && octets[0] >= '\U{C0}'
    ensures forall k | 1 <= k < |octets| :: IsTail(octets[k])
  {
    var n := c as int;
    if n < 0x80 then [c]
    else if n < 0x800 then [Octet(0xC0 + n / 0x40), Tail(n)]
    else if n < 0x1_0000 then [Octet(0xE0 + n / 0x1000), Tail(n / 0x40), Tail(n)]
    else [Octet(0xF0 + n / 0x4_0000), Tail(n / 0x1000), Tail(n / 0x40), Tail(n)]
  }

  /** The octets of a character, by the ranges and the bits of section 3 of RFC 3629. */
  lemma Utf8CharIs(c: char)
    ensures var (octets, n) := (Utf8Char(c), c as int);
            match |octets|
            case 1 => n < 0x80 && octets[0] == c
            case 2 =>
              && 0x80 <= n < 0x800 && '\U{C0}' <= octets[0] < '\U{E0}'
              && n == (octets[0] as int - 0xC0) * 64 + (octets[1] as int - 0x80)
            case 3 =>
              && 0x800 <= n < 0x1_0000 && '\U{E0}' <= octets[0] < '\U{F0}'
              && n == (octets[0] as int - 0xE0) * 4096 + (octets[1] as int - 0x80) * 64 + (octets[2] as int - 0x80)
            case _ =>
              && |octets| == 4 && 0x1_0000 <= n && '\U{F0}' <= octets[0]
              && n == (octets[0] as int - 0xF0) * 262_144 + (octets[1] as int - 0x80) * 4096
                      + (octets[2] as int - 0x80) * 64 + (octets[3] as int - 0x80)
  {
    BitsOf(c as int);
  }

  lemma BitsOf(n: nat)
    ensures n == n / 64 * 64 + n % 64
    ensures n / 64 == n / 4096 * 64 + n / 64 % 64
    ensures n / 4096 == n / 262_144 * 64 + n / 4096 % 64
  {
  }

  function Octet(n: nat): char
    requires n < 0x100
  {
    n as char
  }

  function Tail(n: nat): char {
    Octet(0x80 + n % 0x40)
  }

  /** An octet inside a character: a text must not be cut before it. */
  predicate IsTail(octet: char) {
    '\U{80}' <= octet < '\U{C0}'
  }

  /** How many characters the first `n` octets of a text are, or `None` when they end inside one. */
  function IndexAt(text: string, n: nat): (i: Option<nat>)
    ensures i.Some? ==> i.value <= |text| && (n > 0 ==> i.value > 0)
  {
    if n == 0 then Some(0)
    else if |text| == 0 || n < |Utf8Char(text[0])| then None
    else
      match IndexAt(text[1..], n - |Utf8Char(text[0])|)
      case None => None
      case Some(i) => Some(i + 1)
  }

  lemma Utf8Head(text: string)
    requires |text| > 0
    ensures Utf8(text) == Utf8Char(text[0]) + Utf8(text[1..])
  {
  }

  lemma {:induction false} IndexAtCuts(text: string, n: nat)
    requires n <= |Utf8(text)|
    ensures IndexAt(text, n).None? <==> n < |Utf8(text)| && IsTail(Utf8(text)[n])
    ensures IndexAt(text, n).Some? ==>
              var i := IndexAt(text, n).value;
              Utf8(text[..i]) == Utf8(text)[..n] && Utf8(text[i..]) == Utf8(text)[n..]
  {
    if n == 0 {
      assert text[..0] == [] && text[0..] == text;
      assert |text| > 0 ==> Utf8(text)[0] == Utf8Char(text[0])[0];
    } else {
      var head, tail := Utf8Char(text[0]), text[1..];
      Utf8Head(text);
      hide Utf8Char, Utf8, IsTail;
      if |head| <= n {
        IndexAtCuts(tail, n - |head|);
        assert n < |Utf8(text)| ==> Utf8(text)[n] == Utf8(tail)[n - |head|];
        if IndexAt(tail, n - |head|).Some? {
          IndexAfter(text, IndexAt(tail, n - |head|).value, n);
        }
      } else {
        IndexInside(text[0], n);
        assert Utf8(text)[n] == head[n];
      }
    }
  }

  lemma IndexInside(c: char, n: nat)
    requires 0 < n < |Utf8Char(c)|
    ensures IsTail(Utf8Char(c)[n])
  {
  }

  lemma IndexAfter(text: string, i: nat, n: nat)
    requires |text| > 0 && i < |text| && |Utf8Char(text[0])| <= n <= |Utf8(text)|
    requires var (tail, m) := (text[1..], n - |Utf8Char(text[0])|);
             m <= |Utf8(tail)| && Utf8(tail[..i]) == Utf8(tail)[..m] && Utf8(tail[i..]) == Utf8(tail)[m..]
    ensures Utf8(text[..i + 1]) == Utf8(text)[..n] && Utf8(text[i + 1..]) == Utf8(text)[n..]
  {
    Utf8Head(text);
    Utf8Head(text[..i + 1]);
    hide Utf8Char, Utf8;
    TailSlices(text, i);
    SliceConcat(Utf8Char(text[0]), Utf8(text[1..]), n);
  }

  lemma TailSlices<T>(s: seq<T>, i: nat)
    requires i < |s|
    ensures s[..i + 1][1..] == s[1..][..i] && s[i + 1..] == s[1..][i..] && s[..i + 1][0] == s[0]
  {
  }

  lemma SliceConcat<T>(a: seq<T>, b: seq<T>, n: nat)
    requires |a| <= n <= |a| + |b|
    ensures (a + b)[..n] == a + b[..n - |a|] && (a + b)[n..] == b[n - |a|..]
  {
  }

  lemma SliceTwice<T>(s: seq<T>, start: nat, end: nat)
    requires start <= end <= |s|
    ensures s[start..][end - start..] == s[end..]
    ensures end < |s| ==> s[start..][end - start] == s[end]
  {
  }

  lemma {:induction false} AsciiOctets(text: string)
    requires IsAscii(text)
    ensures Utf8(text) == text
  {
    if |text| > 0 {
      AsciiOctets(text[1..]);
    }
  }

  lemma HeadAndTail<T>(a: seq<T>, b: seq<T>)
    requires |a| > 0
    ensures (a + b)[0] == a[0] && (a + b)[1..] == a[1..] + b
  {
  }

  lemma Assoc<T>(a: seq<T>, b: seq<T>, c: seq<T>)
    ensures (a + b) + c == a + (b + c)
  {
  }

  lemma {:induction false} Utf8Concat(a: string, b: string)
    ensures Utf8(a + b) == Utf8(a) + Utf8(b)
  {
    if |a| == 0 {
      assert a + b == b;
    } else {
      hide *;
      Utf8Head(a);
      Utf8Head(a + b);
      HeadAndTail(a, b);
      Utf8Concat(a[1..], b);
      Assoc(Utf8Char(a[0]), Utf8(a[1..]), Utf8(b));
    }
  }
}
