/** The occurrences of an event inside an import window. */
module Occurrences {
  import opened Civil
  import opened Text
  import opened Rrule

  const MAX_IMPORT_DOCS: nat := 500

  /** The first part that is a readable COUNT. */
  function CountTotal(parts: seq<string>): Option<int> {
    if |parts| == 0 then None else
      match CountOfPart(parts[0])
      case Some(n) => Some(n)
      case None => CountTotal(parts[1..])
  }

  function CountOfPart(part: string): Option<int> {
    match SplitOnce(part, '=')
    case None => None
    case Some((key, value)) => if EqIgnoreCase(key, "COUNT") then ParseI64(value) else None
  }

  /** COUNT includes the first occurrence, which is not a member of the tail. */
  function CountRemaining(rrule: string): Option<int> {
    match CountTotal(Split(rrule, ';'))
    case None => None
    case Some(n) => Some(if n - 1 < 0 then 0 else n - 1)
  }

  /** The starts that are not before `from`. */
  function Retain(starts: seq<int>, from: int): seq<int> {
    if |starts| == 0 then [] else
      (if starts[0] >= from then [starts[0]] else []) + Retain(starts[1..], from)
  }

  /** The start itself, when it lies in the window. */
  function FirstIn(start: int, from: int, to: int): seq<int> {
    if from <= start <= to then [start] else []
  }

  /** As many as COUNT still allows; without COUNT, more than there are. */
  function Wanted(rrule: string, length: nat): nat {
    match CountRemaining(rrule)
    case None => length + 1
    case Some(left) => if left < 0 then 0 else left
  }

  /** Every occurrence after the start up to `to`, as many as COUNT allows, with no other cap. */
  ghost predicate Tail(all: seq<int>, start: int, rrule: string, to: int) {
    FirstMembers(all, Members(ParseRule(rrule), start, to), Wanted(rrule, |all|))
  }

  /** What the documentation promises: all occurrences in the window, the first one included. */
  function Documented(all: seq<int>, start: int, from: int, to: int): seq<int> {
    Retain(FirstIn(start, from, to) + all, from)
  }

  /** The members up to `last`, one instant after the other. */
  lemma {:induction false} Listed(members: iset<int>, start: int, last: int) returns (all: seq<int>)
    requires forall x <- members :: start < x <= last
    ensures Increasing(all) && (forall x <- all :: x in members) && (forall x <- members :: x in all)
    decreases last - start
  {
    if last <= start {
      return [];
    }
    var before := iset x | x in members && x < last;
    var shorter := Listed(before, start, last - 1);
    assert forall i | 0 <= i < |shorter| :: shorter[i] in shorter;
    all := if last in members then shorter + [last] else shorter;
    forall x <- members
      ensures x in all
    {
      if x < last {
        assert x in before && x in shorter;
      }
    }
  }

  /** There is such a list for every rule, and by `FirstMembersUnique` only one for each length. */
  lemma {:induction false} TailExists(start: int, rrule: string, to: int) returns (all: seq<int>)
    ensures Tail(all, start, rrule, to)
  {
    var members := Members(ParseRule(rrule), start, to);
    all := Listed(members, start, to);
    var n := Wanted(rrule, |all|);
    if n < |all| {
      var cut := all[..n];
      assert forall i | 0 <= i < n :: cut[i] == all[i] && all[i] in all && cut[i] in cut;
      forall x <- members | x !in cut
        ensures forall y <- cut :: y < x
      {
        var i :| 0 <= i < |all| && all[i] == x;
        assert i >= n;
      }
      all := cut;
    }
  }

  lemma TailIsCut(out: seq<int>, all: seq<int>, start: int, rrule: string, to: int, cap: nat)
    requires cap > 0
    requires Tail(all, start, rrule, to)
    requires FirstMembers(out, Members(ParseRule(rrule), start, to), Quota(CountRemaining(rrule), cap))
    ensures out == if |all| <= cap then all else all[..cap]
  {
    var members := Members(ParseRule(rrule), start, to);
    var n := Quota(CountRemaining(rrule), cap);
    var cut := if |all| <= cap then all else all[..cap];
    if |all| > cap {
      assert forall j | 0 <= j < cap :: cut[j] == all[j] && all[j] in all && cut[j] in cut;
      assert n == cap;
      forall x <- members | x !in cut
        ensures forall y <- cut :: y < x
      {
        if x in all {
          var i :| 0 <= i < |all| && all[i] == x;
        }
      }
    }
    FirstMembersUnique(out, cut, members, n);
  }

  /** An event without a rule has the empty rule, which recurs never. */
  method Occurrences(start: int, rrule: Option<string>, from: int, to: int) returns (starts: seq<int>)
    ensures var rule := if rrule.Some? then rrule.value else "";
            forall all | Tail(all, start, rule, to) ::
              starts == Documented(if |all| <= MAX_IMPORT_DOCS then all else all[..MAX_IMPORT_DOCS], start, from, to)
  {
    ghost var rule := if rrule.Some? then rrule.value else "";
    if start > to {
      forall all | Tail(all, start, rule, to)
        ensures all == []
      {
        NoneBeyond(all, start, rule, to);
      }
      return [];
    }
    if rrule.None? {
      forall all | Tail(all, start, rule, to)
        ensures all == []
      {
        NoneWithoutRule(all, start, to);
      }
      assert FirstIn(start, from, to) + [] == FirstIn(start, from, to);
      RetainAll(FirstIn(start, from, to), from);
      return if start >= from then [start] else [];
    }
    if start >= from && start <= to {
      starts := [start];
    } else {
      starts := [];
    }
    var tail, _ := ExpandRrule(start, rrule.value, to, CountRemaining(rrule.value), MAX_IMPORT_DOCS);
    forall all | Tail(all, start, rule, to)
      ensures tail == if |all| <= MAX_IMPORT_DOCS then all else all[..MAX_IMPORT_DOCS]
    {
      TailIsCut(tail, all, start, rule, to, MAX_IMPORT_DOCS);
    }
    starts := Retain(starts + tail, from);
  }

  lemma NoneBeyond(all: seq<int>, start: int, rrule: string, to: int)
    requires start > to && Tail(all, start, rrule, to)
    ensures all == []
  {
    FirstMembersUnique(all, [], Members(ParseRule(rrule), start, to), Wanted(rrule, |all|));
  }

  lemma NoneWithoutRule(all: seq<int>, start: int, to: int)
    requires Tail(all, start, "", to)
    ensures all == []
  {
    assert Split("", ';') == [""];
    assert ParseRule("") == ApplyPart(ApplyParts([]), "");
    assert ParseRule("").freq == "";
    FirstMembersUnique(all, [], Members(ParseRule(""), start, to), Wanted("", |all|));
  }

  // ---------------------------------------------------------------------------
  // The cap counts occurrences before the window, so it can cut off those inside.
  // ---------------------------------------------------------------------------

  lemma {:induction false} RetainConcat(a: seq<int>, b: seq<int>, from: int)
    ensures Retain(a + b, from) == Retain(a, from) + Retain(b, from)
  {
    if |a| == 0 {
      assert a + b == b;
    } else {
      RetainConcat(a[1..], b, from);
      var s := a + b;
      assert s[0] == a[0] && s[1..] == a[1..] + b;
      var head := if a[0] >= from then [a[0]] else [];
      var ra, rb := Retain(a[1..], from), Retain(b, from);
      assert Retain(a, from) == head + ra && Retain(s, from) == head + (ra + rb);
      assert head + (ra + rb) == (head + ra) + rb;
    }
  }

  lemma {:induction false} RetainNothing(s: seq<int>, from: int)
    ensures Retain(s, from) == [] <==> forall x <- s :: x < from
  {
    if |s| > 0 {
      RetainNothing(s[1..], from);
      assert s[0] in s;
      assert forall x <- s[1..] :: x in s;
      assert forall x <- s :: x == s[0] || x in s[1..];
    }
  }

  lemma LastIsLargest(all: seq<int>, n: nat)
    requires Increasing(all) && n < |all|
    ensures all[|all| - 1] in all[n..] && forall x <- all[n..] :: x <= all[|all| - 1]
  {
    assert all[n..][|all| - n - 1] == all[|all| - 1];
  }

  lemma {:induction false} RetainIs(s: seq<int>, from: int)
    requires Increasing(s)
    ensures Increasing(Retain(s, from)) && forall x :: x in Retain(s, from) <==> x in s && from <= x
  {
    if |s| > 0 {
      assert forall x <- s[1..] :: x in s && s[0] < x by {
        forall x <- s[1..]
          ensures x in s && s[0] < x
        {
          var i :| 0 <= i < |s[1..]| && s[1..][i] == x;
          assert s[i + 1] == x;
        }
      }
      RetainIs(s[1..], from);
      assert s == [s[0]] + s[1..];
      var rest := Retain(s[1..], from);
      assert Retain(s, from) == (if s[0] >= from then [s[0]] else []) + rest;
      forall j | 0 <= j < |rest|
        ensures s[0] < rest[j]
      {
        assert rest[j] in rest;
      }
    }
  }

  /** The promise, instant by instant: the start, and every later occurrence, that lies in the window; in order. */
  lemma DocumentedAre(all: seq<int>, start: int, rrule: string, from: int, to: int, x: int)
    requires Tail(all, start, rrule, to)
    ensures x in Documented(all, start, from, to) <==> from <= x <= to && (x == start || x in all)
    ensures Increasing(Documented(all, start, from, to))
  {
    var first := FirstIn(start, from, to);
    assert forall y <- all :: start < y <= to;
    forall i, j | 0 <= i < j < |first + all|
      ensures (first + all)[i] < (first + all)[j]
    {
      assert j >= |first| ==> (first + all)[j] in all;
    }
    RetainIs(first + all, from);
  }

  /** The promise is kept exactly when the rule has at most 500 occurrences after the start up to the
      end of the window, or when all of them are over before the window begins. */
  lemma OccurrencesComplete(all: seq<int>, start: int, rrule: string, from: int, to: int)
    requires Tail(all, start, rrule, to)
    ensures var cut := if |all| <= MAX_IMPORT_DOCS then all else all[..MAX_IMPORT_DOCS];
            Documented(cut, start, from, to) == Documented(all, start, from, to)
            <==> |all| <= MAX_IMPORT_DOCS || all[|all| - 1] < from
  {
    if |all| > MAX_IMPORT_DOCS {
      assert Increasing(all);
      hide Retain, Tail, FirstIn;
      var cut, lost := all[..MAX_IMPORT_DOCS], all[MAX_IMPORT_DOCS..];
      var first := FirstIn(start, from, to);
      assert first + all == (first + cut) + lost;
      RetainConcat(first + cut, lost, from);
      RetainNothing(lost, from);
      LastIsLargest(all, MAX_IMPORT_DOCS);
    }
  }

  /** The occurrences of a plain daily event, counted: one for each whole interval in the window. */
  lemma DailyTail(start: int, to: int) returns (all: seq<int>)
    requires start <= to
    ensures |all| == (to - start) / MS_PER_DAY
    ensures forall i | 0 <= i < |all| :: all[i] == start + (i + 1) * MS_PER_DAY
    ensures Tail(all, start, "FREQ=DAILY", to)
  {
    hide ParseRule, CountRemaining;
    all := seq((to - start) / MS_PER_DAY, (i: nat) => start + (i + 1) * MS_PER_DAY);
    DailyRule();
    var members := Members(ParseRule("FREQ=DAILY"), start, to);
    forall x <- all
      ensures x in members
    {
      var i :| 0 <= i < |all| && all[i] == x;
      assert x == NthDay(start, 1, i + 1);
    }
    forall x <- members
      ensures x in all
    {
      var k: nat :| x == NthDay(start, 1, k);
      assert 1 <= k <= |all|;
      assert all[k - 1] == x;
    }
  }

  lemma DailyPart()
    ensures SplitOnce("FREQ=DAILY", '=') == Some(("FREQ", "DAILY"))
    ensures Split("FREQ=DAILY", ';') == ["FREQ=DAILY"]
  {
    hide IndexOf;
    var s := "FREQ=DAILY";
    assert s == "FREQ" + ['='] + "DAILY";
    IndexOfAfter("FREQ", '=', "DAILY");
    assert s[..4] == "FREQ" && s[5..] == "DAILY";
  }

  lemma DailyNames()
    ensures Upper(Trim("FREQ")) == "FREQ" && Upper(Trim("DAILY")) == "DAILY"
    ensures !EqIgnoreCase("FREQ", "COUNT")
  {
    assert Trim("FREQ") == "FREQ" && Trim("DAILY") == "DAILY";
    assert Upper("FREQ") == "FREQ" && Upper("COUNT") == "COUNT" && Upper("DAILY") == "DAILY";
  }

  lemma DailyRule()
    ensures ParseRule("FREQ=DAILY") == Rule("DAILY", 1, None, [])
    ensures CountRemaining("FREQ=DAILY") == None
  {
    hide Split, SplitOnce, Upper, Trim, EqIgnoreCase, ParseByday, ParseInterval, ParseI64;
    var s := "FREQ=DAILY";
    DailyPart();
    DailyNames();
    assert ApplyParts([s]) == ApplyPart(ApplyParts([]), s) by {
      assert [s][..0] == [];
    }
    assert CountTotal([s]) == None;
  }

  /** A daily event that began 1000 days ago: every day of a 90-day window is an occurrence, and none
      is returned. */
  lemma OldDailyEventIsLost(start: int, from: int, to: int) returns (all: seq<int>)
    requires from == start + 1000 * MS_PER_DAY && to == from + 90 * MS_PER_DAY
    ensures Tail(all, start, "FREQ=DAILY", to)
    ensures |Documented(all, start, from, to)| == 91
    ensures |all| > MAX_IMPORT_DOCS && Documented(all[..MAX_IMPORT_DOCS], start, from, to) == []
  {
    hide Tail, Documented;
    all := DailyTail(start, to);
    assert (to - start) / MS_PER_DAY == 1090;
    LastPartOf(all, start, from);
    NotFirst(all, start, from, to);
    NotFirst(all[..MAX_IMPORT_DOCS], start, from, to);
  }

  lemma LastPartOf(all: seq<int>, start: int, from: int)
    requires |all| == 1090 && start == from - 1000 * MS_PER_DAY
    requires forall i | 0 <= i < |all| :: all[i] == start + (i + 1) * MS_PER_DAY
    ensures |Retain(all, from)| == 91 && Retain(all[..MAX_IMPORT_DOCS], from) == []
  {
    hide Retain;
    var past, inside := all[..999], all[999..];
    assert all == past + inside;
    RetainConcat(past, inside, from);
    RetainNothing(past, from);
    RetainAll(inside, from);
    RetainNothing(all[..MAX_IMPORT_DOCS], from);
  }

  lemma NotFirst(all: seq<int>, start: int, from: int, to: int)
    requires start < from
    ensures Documented(all, start, from, to) == Retain(all, from)
  {
    assert [] + all == all;
  }

  lemma {:induction false} RetainAll(s: seq<int>, from: int)
    requires forall x <- s :: from <= x
    ensures Retain(s, from) == s
  {
    if |s| > 0 {
      assert s[0] in s;
      assert forall x <- s[1..] :: x in s;
      RetainAll(s[1..], from);
    }
  }
}
