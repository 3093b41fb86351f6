/** The parts of Rust's string library that the modelled code calls, with decimal printing. */
module Text {

  datatype Option<+T> = None | Some(value: T)

  datatype Result<+T> = Ok(value: T) | Err(error: string)

  // ---------------------------------------------------------------------------
  // Searching and splitting.
  // ---------------------------------------------------------------------------

  /** Index of the first `x`, or the length of `s`. */
  function IndexOf<T(==)>(s: seq<T>, x: T): (n: nat)
    ensures n <= |s|
    ensures n < |s| ==> s[n] == x
    ensures x !in s[..n]
  {
    if |s| == 0 || s[0] == x then 0 else
      var n := 1 + IndexOf(s[1..], x);
      assert s[..n] == [s[0]] + s[1..][..n - 1];
      n
  }

  lemma {:induction false} IndexOfAfter<T>(a: seq<T>, x: T, b: seq<T>)
    requires x !in a
    ensures IndexOf(a + [x] + b, x) == |a|
  {
    var s := a + [x] + b;
    if |a| > 0 {
      assert s[0] == a[0];
      IndexOfAfter(a[1..], x, b);
      assert s[1..] == a[1..] + [x] + b;
    }
  }

  /** Rust's `split` on one character or byte: always at least one piece, and none holds it. */
  function Split<T(==)>(s: seq<T>, sep: T): (pieces: seq<seq<T>>)
    ensures |pieces| > 0
  {
    var n := IndexOf(s, sep);
    if n == |s| then [s] else [s[..n]] + Split(s[n + 1..], sep)
  }

  function SplitOnce(s: string, sep: char): Option<(string, string)> {
    var n := IndexOf(s, sep);
    if n == |s| then None else Some((s[..n], s[n + 1..]))
  }

  /** Rust's `str::lines`, on characters or bytes: a line ends at `lf`, together with one `cr` before
      it; a last line without `lf` keeps its `cr`. */
  function Lines<T(==)>(s: seq<T>, cr: T, lf: T): seq<seq<T>> {
    if |s| == 0 then [] else
      var n := IndexOf(s, lf);
      if n == |s| then [s] else [StripCr(s[..n], cr)] + Lines(s[n + 1..], cr, lf)
  }

  function StripCr<T(==)>(line: seq<T>, cr: T): seq<T> {
    if |line| > 0 && line[|line| - 1] == cr then line[..|line| - 1] else line
  }

  /** A line that ends in `cr` and `lf` loses these two, and no other `cr`. */
  lemma {:induction false} LinesOfTerminated<T>(line: seq<T>, rest: seq<T>, cr: T, lf: T)
    requires lf !in line && cr != lf
    ensures Lines(line + [cr, lf] + rest, cr, lf) == [line] + Lines(rest, cr, lf)
  {
    var s := line + [cr] + [lf] + rest;
    assert line + [cr, lf] + rest == s;
    IndexOfAfter(line + [cr], lf, rest);
    assert s[..|line| + 1] == line + [cr];
    assert StripCr(line + [cr], cr) == line;
    assert s[|line| + 2..] == rest;
  }

  lemma {:induction false} LinesOfEnded<T>(line: seq<T>, rest: seq<T>, cr: T, lf: T)
    requires lf !in line && cr !in line
    ensures Lines(line + [lf] + rest, cr, lf) == [line] + Lines(rest, cr, lf)
  {
    var t := line + [lf] + rest;
    IndexOfAfter(line, lf, rest);
    assert t[..|line|] == line;
    assert t[|line| + 1..] == rest;
  }

  /** Unicode `White_Space`, which `str::trim` strips. */
  predicate IsWhite(c: char) {
    c in {' ', '\t', '\n', '\r', '\U{0B}', '\U{0C}', '\U{85}', '\U{A0}', '\U{1680}',
          '\U{2028}', '\U{2029}', '\U{202F}', '\U{205F}', '\U{3000}'}
    || '\U{2000}' <= c <= '\U{200A}'
  }

  function TrimStart(s: string): string {
    if |s| > 0 && IsWhite(s[0]) then TrimStart(s[1..]) else s
  }

  function TrimEnd(s: string): string {
    if |s| > 0 && IsWhite(s[|s| - 1]) then TrimEnd(s[..|s| - 1]) else s
  }

  function Trim(s: string): string {
    TrimEnd(TrimStart(s))
  }

  function UpperChar(c: char): char {
    if 'a' <= c <= 'z' then ((c as int) - 32) as char else c
  }

  function Upper(s: string): string {
    seq(|s|, i requires 0 <= i < |s| => UpperChar(s[i]))
  }

  predicate EqIgnoreCase(a: string, b: string) {
    Upper(a) == Upper(b)
  }

  predicate StartsWith<T(==)>(s: seq<T>, prefix: seq<T>) {
    |prefix| <= |s| && s[..|prefix|] == prefix
  }

  /** Rust's `str::find` of a string. */
  function FindText(s: string, part: string): (at: Option<nat>)
    ensures at.Some? ==> at.value + |part| <= |s| && s[at.value..at.value + |part|] == part
    decreases |s|
  {
    if StartsWith(s, part) then Some(0)
    else if |s| == 0 then None
    else
      match FindText(s[1..], part)
      case None => None
      case Some(n) =>
        assert s[n + 1..n + 1 + |part|] == s[1..][n..n + |part|];
        Some(n + 1)
  }

  predicate Contains(s: string, part: string) {
    FindText(s, part).Some?
  }

  /** `part` stands in `s` at `i`. */
  predicate IsAt(s: string, part: string, i: nat) {
    i + |part| <= |s| && s[i..i + |part|] == part
  }

  /** The first place where `part` stands is found, if there is one. */
  lemma {:induction false} FindIsFirst(s: string, part: string)
    ensures match FindText(s, part)
            case None => forall i: nat :: !IsAt(s, part, i)
            case Some(n) => IsAt(s, part, n) && forall i: nat | i < n :: !IsAt(s, part, i)
    decreases |s|
  {
    if !StartsWith(s, part) && |s| > 0 {
      FindIsFirst(s[1..], part);
      forall i: nat | IsAt(s, part, i)
        ensures i > 0 && IsAt(s[1..], part, i - 1)
      {
        if i > 0 {
          assert s[1..][i - 1..i - 1 + |part|] == s[i..i + |part|];
        }
      }
      if FindText(s, part).Some? {
        var n := FindText(s, part).value;
        assert IsAt(s, part, n);
      }
    }
  }

  predicate EndsWith(s: string, suffix: string) {
    |suffix| <= |s| && s[|s| - |suffix|..] == suffix
  }

  // ---------------------------------------------------------------------------
  // Decimal numbers.
  // ---------------------------------------------------------------------------

  predicate IsDigit(c: char) {
    '0' <= c <= '9'
  }

  predicate AllDigits(s: string) {
    forall i | 0 <= i < |s| :: IsDigit(s[i])
  }

  /** Everything but the ASCII digits dropped. */
  function DigitsOf(s: string): (digits: string)
    ensures AllDigits(digits)
    ensures AllDigits(s) ==> digits == s
  {
    if |s| == 0 then "" else
      (if IsDigit(s[0]) then [s[0]] else []) + DigitsOf(s[1..])
  }

  lemma {:induction false} DigitsOfConcat(a: string, b: string)
    ensures DigitsOf(a + b) == DigitsOf(a) + DigitsOf(b)
  {
    hide AllDigits;
    if |a| == 0 {
      assert a + b == b;
    } else {
      DigitsOfConcat(a[1..], b);
      var s := a + b;
      assert s[0] == a[0];
      assert s[1..] == a[1..] + b;
      var head := if IsDigit(a[0]) then [a[0]] else [];
      var da, db := DigitsOf(a[1..]), DigitsOf(b);
      assert DigitsOf(a) == head + da && DigitsOf(s) == head + (da + db);
      assert head + (da + db) == (head + da) + db;
    }
  }

  function NatOf(digits: string): nat
    requires AllDigits(digits)
  {
    if |digits| == 0 then 0
    else 10 * NatOf(digits[..|digits| - 1]) + (digits[|digits| - 1] as int - '0' as int)
  }

  const I64_MAX: int := 0x7FFF_FFFF_FFFF_FFFF

  predicate IsI64(n: int) {
    -I64_MAX - 1 <= n <= I64_MAX
  }

  /** Rust's `str::parse::<i64>`. */
  function ParseI64(s: string): Option<int> {
    var (sign, digits) :=
      if |s| > 0 && s[0] == '-' then (-1, s[1..])
      else if |s| > 0 && s[0] == '+' then (1, s[1..])
      else (1, s);
    if |digits| == 0 || !AllDigits(digits) || !IsI64(sign * NatOf(digits)) then None
    else Some(sign * NatOf(digits))
  }

  function Digit(n: int): char
    requires 0 <= n < 10
  {
    ('0' as int + n) as char
  }

  /** `format!("{n}")` for a number that is not negative. */
  function Decimal(n: nat): (s: string)
    ensures |s| > 0 && AllDigits(s)
    ensures NatOf(s) == n
    ensures forall k: nat {:trigger Power10(k)} :: k > 0 && n < Power10(k) ==> |s| <= k
  {
    if n < 10 then [Digit(n)] else
      var high := Decimal(n / 10);
      var s := high + [Digit(n % 10)];
      assert s[..|s| - 1] == high;
      assert forall k: nat {:trigger Power10(k)} :: k > 0 && n < Power10(k) ==> |s| <= k by {
        forall k: nat {:trigger Power10(k)} | k > 0 && n < Power10(k)
          ensures |s| <= k
        {
          assert Power10(1) == 10;
          assert k > 1;
          assert n / 10 < Power10(k - 1);
        }
      }
      s
  }

  function Power10(k: nat): nat {
    if k == 0 then 1 else 10 * Power10(k - 1)
  }

  function Zeros(k: nat): (s: string)
    ensures |s| == k && AllDigits(s)
  {
    if k == 0 then "" else ['0'] + Zeros(k - 1)
  }

  /** `format!("{n:0width}")`: the sign, if any, counts towards the width. */
  function Padded(n: int, width: nat): (s: string)
  {
    if n < 0 then
      var digits := Decimal(-n);
      ['-'] + Zeros(if |digits| + 1 < width then width - 1 - |digits| else 0) + digits
    else
      var digits := Decimal(n);
      Zeros(if |digits| < width then width - |digits| else 0) + digits
  }

  lemma {:induction false} NatOfZeros(k: nat, digits: string)
    requires AllDigits(digits)
    ensures AllDigits(Zeros(k) + digits) && NatOf(Zeros(k) + digits) == NatOf(digits)
    decreases |digits|, k
  {
    var s := Zeros(k) + digits;
    if |digits| > 0 {
      NatOfZeros(k, digits[..|digits| - 1]);
      assert s[..|s| - 1] == Zeros(k) + digits[..|digits| - 1];
    } else if k > 0 {
      NatOfZeros(k - 1, "");
      ZerosEnd(k);
      assert s == Zeros(k);
      assert s[..k - 1] == Zeros(k - 1) == Zeros(k - 1) + "";
    }
  }

  lemma {:induction false} ZerosEnd(k: nat)
    requires k > 0
    ensures Zeros(k)[k - 1] == '0' && Zeros(k)[..k - 1] == Zeros(k - 1)
  {
    if k > 1 {
      ZerosEnd(k - 1);
    }
  }

  /** A number that fits its width is printed in exactly that many digits, and read back. */
  lemma PaddedFits(n: nat, width: nat)
    requires width > 0 && n < Power10(width)
    ensures var s := Padded(n, width);
            |s| == width && AllDigits(s) && NatOf(s) == n
  {
    hide Decimal, Power10, NatOf, Zeros, AllDigits;
    NatOfZeros(width - |Decimal(n)|, Decimal(n));
  }

  // ---------------------------------------------------------------------------
  // Numbers inside a text.
  // ---------------------------------------------------------------------------

  /** The numbers written in a text, left to right. */
  function Numbers(text: string): seq<nat>
    decreases |text|
  {
    if |text| == 0 then []
    else if IsDigit(text[0]) then [NatOf(text[..DigitsAt(text)])] + Numbers(text[DigitsAt(text)..])
    else Numbers(text[1..])
  }

  /** How many digits stand at the front. */
  function DigitsAt(text: string): (n: nat)
    ensures n <= |text| && AllDigits(text[..n])
    ensures |text| > 0 && IsDigit(text[0]) ==> n > 0
    ensures n < |text| ==> !IsDigit(text[n])
  {
    if |text| == 0 || !IsDigit(text[0]) then 0 else
      var n := 1 + DigitsAt(text[1..]);
      assert text[..n] == [text[0]] + text[1..][..n - 1];
      n
  }

  predicate HasNoDigit(text: string) {
    forall c <- text :: !IsDigit(c)
  }

  lemma {:induction false} NumbersAfter(word: string, text: string)
    requires HasNoDigit(word)
    ensures Numbers(word + text) == Numbers(text)
  {
    var s := word + text;
    if |word| == 0 {
      assert s == text;
    } else {
      assert word[0] in word && s[0] == word[0];
      assert s[1..] == word[1..] + text;
      assert forall c <- word[1..] :: c in word;
      NumbersAfter(word[1..], text);
    }
  }

  lemma {:induction false} DigitsAtEnd(digits: string, text: string)
    requires AllDigits(digits) && |text| > 0 && !IsDigit(text[0])
    ensures DigitsAt(digits + text) == |digits|
  {
    var s := digits + text;
    if |digits| == 0 {
      assert s == text;
    } else {
      assert s[0] == digits[0] && s[1..] == digits[1..] + text;
      DigitsAtEnd(digits[1..], text);
    }
  }

  lemma NumberFirst(n: nat, text: string)
    requires |text| > 0 && !IsDigit(text[0])
    ensures Numbers(Decimal(n) + text) == [n] + Numbers(text)
  {
    var digits := Decimal(n);
    DigitsAtEnd(digits, text);
    hide Decimal, NatOf, DigitsAt, AllDigits;
    assert (digits + text)[..|digits|] == digits && (digits + text)[|digits|..] == text;
    assert IsDigit((digits + text)[0]) by {
      DecimalStarts(n);
    }
  }

  lemma DecimalStarts(n: nat)
    ensures IsDigit(Decimal(n)[0])
  {
    hide Decimal;
  }

  /** Two numbers after words without digits. */
  lemma TwoNumbers(a: string, m: nat, b: string, n: nat, c: string)
    requires HasNoDigit(a) && HasNoDigit(b) && HasNoDigit(c) && |b| > 0 && |c| > 0
    ensures Numbers(a + Decimal(m) + b + Decimal(n) + c) == [m, n]
  {
    hide Decimal, Numbers, HasNoDigit;
    FourRest(a, Decimal(m), b, Decimal(n), c);
    StartsWithoutDigit(b, Decimal(n) + c);
    StartsWithoutDigit(c, "");
    assert c + "" == c;
    NumbersAfter(a, Decimal(m) + (b + (Decimal(n) + c)));
    NumberFirst(m, b + (Decimal(n) + c));
    NumbersAfter(b, Decimal(n) + c);
    NumberFirst(n, c);
    NumbersAfter(c, "");
    NoNumbers();
  }

  lemma FourRest(a: string, b: string, c: string, d: string, e: string)
    ensures a + b + c + d + e == a + (b + (c + (d + e)))
  {
  }

  lemma StartsWithoutDigit(word: string, text: string)
    requires HasNoDigit(word) && |word| > 0
    ensures !IsDigit((word + text)[0])
  {
    assert word[0] in word;
  }

  lemma NoNumbers()
    ensures Numbers("") == []
  {
  }
}
