/** The transcript of a goal: what the model has said and what it was told. It is the record of the goal's trace,
    and the result of each call can be read back from it. */
module Transcript {
  import opened GoalTrace
  import opened Text

  const TRANSCRIPT_MAX_CHARS: nat := 262_144
  const OBSERVATION_MAX: nat := 8192

  datatype Role = User | Assistant

  datatype Turn = Turn(role: Role, content: string)

  function TotalChars(turns: seq<Turn>): nat {
    if |turns| == 0 then 0 else TotalChars(turns[..|turns| - 1]) + |turns[|turns| - 1].content|
  }

  /** The transcript is within its budget. */
  predicate Fits(turns: seq<Turn>) {
    TotalChars(turns) <= TRANSCRIPT_MAX_CHARS
  }

  const CUT_MARK := "\U{2026}[truncated]"

  function TruncateChars(s: string, max: nat): (short: string)
    ensures |short| <= max + |CUT_MARK|
  {
    if |s| <= max then s else s[..max] + CUT_MARK
  }

  // ---------------------------------------------------------------------------
  // Quotas, as the document shows them.
  // ---------------------------------------------------------------------------

  function Used(d: Doc, tool: string): nat {
    if tool in d.toolCounts then d.toolCounts[tool] else 0
  }

  predicate IsUsedUp(d: Doc, spec: ToolSpec) {
    spec.maxPerGoal > 0 && Used(d, spec.name) >= spec.maxPerGoal
  }

  predicate IsCooling(d: Doc, spec: ToolSpec, at: int) {
    spec.cooldownMs > 0 && spec.name in d.toolLastMs && at - d.toolLastMs[spec.name] < spec.cooldownMs
  }

  /** The quota of `spec` leaves room for a call at that time. */
  predicate Allows(d: Doc, spec: ToolSpec, at: int) {
    !IsUsedUp(d, spec) && !IsCooling(d, spec, at)
  }

  function UsedUpText(spec: ToolSpec, used: nat): string {
    "tool '" + spec.name + "' quota exceeded: max " + Decimal(spec.maxPerGoal) +
    " calls per goal (used " + Decimal(used) + ")"
  }

  function CoolingText(spec: ToolSpec, remaining: nat): string {
    "tool '" + spec.name + "' is on cooldown: " + Decimal(remaining) +
    "ms remaining (cooldown " + Decimal(spec.cooldownMs) + "ms)"
  }

  function QuotaText(d: Doc, spec: ToolSpec, at: int): string
    requires !Allows(d, spec, at)
  {
    if IsUsedUp(d, spec) then UsedUpText(spec, Used(d, spec.name))
    else CoolingText(spec, spec.cooldownMs - (at - d.toolLastMs[spec.name]))
  }

  /** A quota looks at the counts and times only. */
  lemma QuotaIsKept(before: Doc, after: Doc, spec: ToolSpec, at: int)
    requires before.toolCounts == after.toolCounts && before.toolLastMs == after.toolLastMs
    ensures Allows(before, spec, at) <==> Allows(after, spec, at)
    ensures !Allows(before, spec, at) ==> QuotaText(before, spec, at) == QuotaText(after, spec, at)
  {
    hide UsedUpText, CoolingText;
  }

  // ---------------------------------------------------------------------------
  // What the model is told about a call.
  // ---------------------------------------------------------------------------

  function ToolResult(name: string, outcome: Result<string>): string {
    var (status, body) := if outcome.Ok? then ("ok", outcome.value) else ("error", outcome.error);
    "[TOOL RESULT name=" + name + " status=" + status + "]\n" + body
  }

  function Observation(name: string, outcome: Result<string>): (text: string)
    ensures |text| <= OBSERVATION_MAX + |CUT_MARK|
  {
    TruncateChars(ToolResult(name, outcome), OBSERVATION_MAX)
  }

  function UnknownText(name: string): string {
    "unknown tool \"" + name + "\": not in the operator's tool catalog"
  }

  function Refusal(name: string, why: string): Turn {
    Turn(User, ToolResult(name, Err(why)))
  }

  function Latest<T>(tried: seq<T>): T
    requires |tried| > 0
  {
    tried[|tried| - 1]
  }

  // ---------------------------------------------------------------------------
  // A reader of what it is told.
  // ---------------------------------------------------------------------------

  datatype Told = Told(tool: string, ok: bool, text: string)

  const BEFORE_NAME := "[TOOL RESULT name="

  /** The first line names the tool and says whether the call succeeded; the rest is the text. */
  function ReadResult(content: string): Option<Told> {
    var n := IndexOf(content, '\n');
    if n == |content| then None else ReadLines(content[..n], content[n + 1..])
  }

  function ReadLines(line: string, text: string): Option<Told> {
    if !StartsWith(line, BEFORE_NAME) then None
    else if EndsWith(line[18..], " status=ok]") then Some(Told(line[18..|line| - 11], true, text))
    else if EndsWith(line[18..], " status=error]") then Some(Told(line[18..|line| - 14], false, text))
    else None
  }

  /** The length of the first line and its end. */
  function HeadSize(name: string, ok: bool): nat {
    |name| + if ok then 30 else 33
  }

  function Body(outcome: Result<string>): string {
    if outcome.Ok? then outcome.value else outcome.error
  }

  /** The text as far as it goes into the rest of an observation. */
  function Shortened(text: string, room: nat): string {
    if |text| <= room then text else text[..room] + "\U{2026}[truncated]"
  }

  /** The turn tells the model what came of a call of `name`: its first line carries the name and whether the
      outcome is `Ok`, the rest is the outcome's text, cut where an observation has 8192 characters. A name with
      a line break in it, or too long for the first line to fit, is not read. */
  ghost predicate Tells(turn: Turn, name: string, outcome: Result<string>) {
    var (read, size) := (ReadResult(turn.content), HeadSize(name, outcome.Ok?));
    && turn.role == User
    && if '\n' in name || size > 8192 then read.None? || read.value.tool != name
       else read == Some(Told(name, outcome.Ok?, Shortened(Body(outcome), 8192 - size)))
  }

  /** The turn tells the model why a call of `name` was not made. */
  ghost predicate TellsRefusal(turn: Turn, name: string, why: string) {
    && turn.role == User
    && if '\n' in name then ReadResult(turn.content).None? || ReadResult(turn.content).value.tool != name
       else ReadResult(turn.content) == Some(Told(name, false, why))
  }

  function Head(name: string, ok: bool): (line: string)
    ensures |line| + 1 == HeadSize(name, ok)
  {
    BEFORE_NAME + name + (if ok then " status=ok]" else " status=error]")
  }

  lemma HeadOfResult(name: string, outcome: Result<string>)
    ensures ToolResult(name, outcome) == Head(name, outcome.Ok?) + ['\n'] + Body(outcome)
  {
    var end := if outcome.Ok? then "ok" else "error";
    assert BEFORE_NAME + name + " status=" + end + "]\n" == Head(name, outcome.Ok?) + ['\n'];
  }

  lemma HeadIsOneLine(name: string, ok: bool)
    requires '\n' !in name
    ensures '\n' !in Head(name, ok)
  {
  }

  lemma HeadIsRead(name: string, ok: bool, text: string)
    ensures ReadLines(Head(name, ok), text) == Some(Told(name, ok, text))
  {
    var end := if ok then " status=ok]" else " status=error]";
    Sliced(BEFORE_NAME, name, end);
    if !ok {
      EndsOtherwise(name + end);
    }
    assert |BEFORE_NAME| == 18 && |end| == if ok then 11 else 14;
    hide StartsWith, EndsWith;
  }

  lemma Sliced(a: string, b: string, c: string)
    ensures var s := a + b + c;
            StartsWith(s, a) && s[|a|..] == b + c && EndsWith(b + c, c) && s[|a|..|s| - |c|] == b
  {
  }

  lemma EndsOtherwise(line: string)
    requires EndsWith(line, " status=error]")
    ensures !EndsWith(line, " status=ok]")
  {
    assert line[|line| - 14..][12] == line[|line| - 2] == 'r';
    assert |line| >= 11 && line[|line| - 11..][9] == line[|line| - 2];
  }

  lemma ResultIsRead(name: string, ok: bool, text: string)
    requires '\n' !in name
    ensures ReadResult(Head(name, ok) + ['\n'] + text) == Some(Told(name, ok, text))
  {
    HeadIsOneLine(name, ok);
    HeadIsRead(name, ok, text);
    hide Head, ReadLines;
    var head, content := Head(name, ok), Head(name, ok) + ['\n'] + text;
    IndexOfAfter(head, '\n', text);
    assert content[..|head|] == head && content[|head| + 1..] == text;
  }

  lemma ReadNameIsOneLine(content: string)
    ensures ReadResult(content).Some? ==> '\n' !in ReadResult(content).value.tool
    ensures '\n' !in content ==> ReadResult(content).None?
  {
    var n := IndexOf(content, '\n');
    var line := content[..n];
    assert forall i | 18 <= i <= |line| :: forall c <- line[18..i] :: c in line;
  }

  /** An observation is read back, exactly unless its name has a line break in it or is too long. */
  lemma ObservationTells(name: string, outcome: Result<string>)
    ensures Tells(Turn(User, Observation(name, outcome)), name, outcome)
  {
    hide ReadResult, ToolResult, Head;
    var (head, text) := (Head(name, outcome.Ok?), Body(outcome));
    var size, content := HeadSize(name, outcome.Ok?), Observation(name, outcome);
    HeadOfResult(name, outcome);
    ReadNameIsOneLine(content);
    if '\n' !in name {
      HeadIsOneLine(name, outcome.Ok?);
      if size > 8192 {
        assert (head + ['\n'] + text)[..8192] == head[..8192];
      } else {
        var short := Shortened(text, 8192 - size);
        assert content == head + ['\n'] + short;
        ResultIsRead(name, outcome.Ok?, short);
      }
    }
  }

  lemma RefusalTells(name: string, why: string)
    ensures TellsRefusal(Refusal(name, why), name, why)
  {
    hide ReadResult, ToolResult, Head;
    HeadOfResult(name, Err(why));
    ReadNameIsOneLine(Refusal(name, why).content);
    if '\n' !in name {
      ResultIsRead(name, false, why);
    }
  }

  // ---------------------------------------------------------------------------
  // A trace leaves a transcript.
  // ---------------------------------------------------------------------------

  /** The turn that an event adds to the transcript, when the document was `d` before it. */
  function TurnsIn(d: Doc, e: Event): seq<Turn> {
    match e
    case Degrade(_, shown) => [Turn(User, shown)]
    case Said(_, text, _) => [Turn(Assistant, text)]
    case Unknown(tool, _) => [Refusal(tool, UnknownText(tool))]
    case OverQuota(tool, _, quota, at) =>
      if Allows(d, quota, at) then [] else [Refusal(tool, QuotaText(d, quota, at))]
    case Dispatch(tool, _, _, _, tried) =>
      if |tried| == 0 then [] else [Turn(User, Observation(tool, Latest(tried)))]
    case _ => []
  }

  function TurnsOf(t: Trace): seq<Turn> {
    if |t| == 0 then [] else
      var before := t[..|t| - 1];
      TurnsOf(before) + TurnsIn(Replay(before), t[|t| - 1])
  }

  lemma TurnsAppend(t: Trace, e: Event)
    ensures TurnsOf(t + [e]) == TurnsOf(t) + TurnsIn(Replay(t), e)
  {
    hide TurnsIn, Replay;
    assert (t + [e])[..|t|] == t;
  }

  lemma {:induction false} TurnsGrow(t: Trace, n: nat)
    requires n <= |t|
    ensures TurnsOf(t[..n]) <= TurnsOf(t)
  {
    hide TurnsIn, Replay;
    if n == |t| {
      assert t[..n] == t;
    } else {
      TurnsGrow(t[..|t| - 1], n);
      assert t[..|t| - 1][..n] == t[..n];
    }
  }

  /** Where the turn of the event at `i` is. */
  function PlaceOf(t: Trace, i: nat): nat
    requires i < |t|
  {
    |TurnsOf(t[..i])|
  }

  lemma TurnIsAt(t: Trace, i: nat)
    requires i < |t| && |TurnsIn(Replay(t[..i]), t[i])| == 1
    ensures PlaceOf(t, i) < |TurnsOf(t)| && TurnsOf(t)[PlaceOf(t, i)] == TurnsIn(Replay(t[..i]), t[i])[0]
    ensures i + 1 < |t| ==> PlaceOf(t, i + 1) == PlaceOf(t, i) + 1
  {
    hide TurnsIn, Replay;
    TurnsAppend(t[..i], t[i]);
    assert t[..i] + [t[i]] == t[..i + 1];
    TurnsGrow(t, i + 1);
  }

  lemma AllowsIsWithin(t: Trace, spec: ToolSpec, at: int)
    ensures Allows(Replay(t), spec, at) <==> WithinQuota(t, spec, at)
  {
    hide Replay, CountOf, LastAt;
    ReplayCounts(t, spec.name);
  }

  /** What the turn of an event says: a reply as the model gave it, a result or refusal so that the model can
      read it. */
  ghost predicate Says(d: Doc, e: Event, turn: Turn) {
    match e
    case Said(_, text, _) => turn == Turn(Assistant, text)
    case Dispatch(tool, _, _, _, tried) => |tried| > 0 && Tells(turn, tool, tried[|tried| - 1])
    case OverQuota(tool, _, quota, at) =>
      !Allows(d, quota, at) && TellsRefusal(turn, tool, QuotaText(d, quota, at))
    case Unknown(tool, _) => TellsRefusal(turn, tool, UnknownText(tool))
    case _ => false
  }

  /** The turn that answers a call. */
  ghost predicate Answered(before: seq<Turn>, after: seq<Turn>, d: Doc, e: Event) {
    |after| == |before| + 1 && Says(d, e, after[|before|])
  }

  lemma AnsweredIsKept(before: seq<Turn>, after: seq<Turn>, d: Doc, e: Event, other: Doc)
    requires Answered(before, after, d, e)
    requires d.toolCounts == other.toolCounts && d.toolLastMs == other.toolLastMs
    ensures Answered(before, after, other, e)
  {
    hide Allows, QuotaText, Tells, TellsRefusal, UnknownText;
    if e.OverQuota? {
      QuotaIsKept(d, other, e.quota, e.at);
    }
  }

  lemma AnswerSays(d: Doc, e: Event)
    requires e.Said? || (e.Dispatch? && |e.tried| > 0) || (e.OverQuota? && !Allows(d, e.quota, e.at)) || e.Unknown?
    ensures |TurnsIn(d, e)| == 1 && Says(d, e, TurnsIn(d, e)[0])
  {
    hide Allows, QuotaText, Observation, Refusal, Tells, TellsRefusal, UnknownText;
    match e {
      case Dispatch(tool, _, _, _, tried) => ObservationTells(tool, tried[|tried| - 1]);
      case OverQuota(tool, _, quota, at) => RefusalTells(tool, QuotaText(d, quota, at));
      case Unknown(tool, _) => RefusalTells(tool, UnknownText(tool));
      case _ =>
    }
  }

  lemma TurnSays(maxSteps: nat, t: Trace, e: Event)
    requires Follows(maxSteps, t, e) && (e.Said? || e.Dispatch? || e.OverQuota? || e.Unknown?)
    ensures var turns := TurnsIn(Replay(t), e); |turns| == 1 && Says(Replay(t), e, turns[0])
  {
    hide Replay, WithinQuota, Allows, TurnsIn, Says, MayDispatch, IsNow, Degraded, MayAsk, JustCalled;
    if e.OverQuota? {
      AllowsIsWithin(t, e.quota, e.at);
    }
    AnswerSays(Replay(t), e);
  }

  /** Every reply, result and refusal of a lawful life is in the transcript, one turn for each, in the order of
      the trace. */
  lemma TranscriptTells(maxSteps: nat, t: Trace, i: nat)
    requires Lawful(maxSteps, t) && i < |t| && (t[i].Said? || t[i].Dispatch? || t[i].OverQuota? || t[i].Unknown?)
    ensures PlaceOf(t, i) < |TurnsOf(t)| && (i + 1 < |t| ==> PlaceOf(t, i + 1) == PlaceOf(t, i) + 1)
    ensures Says(Replay(t[..i]), t[i], TurnsOf(t)[PlaceOf(t, i)])
  {
    hide *;
    LawfulAt(maxSteps, t, i);
    TurnSays(maxSteps, t[..i], t[i]);
    TurnIsAt(t, i);
  }

  // ---------------------------------------------------------------------------
  // The transcript of a goal at work.
  // ---------------------------------------------------------------------------

  /** A turn that did not fit may stand here without its event; the goal then fails. */
  predicate CutsOff(t: Trace) {
    |t| > 0 && (t[|t| - 1].Said? || t[|t| - 1].Approve? || t[|t| - 1].Failed?)
  }

  /** After the opening, the transcript is the record of the trace, with at most one turn that did not fit. */
  ghost predicate IsRecord(opening: seq<Turn>, transcript: seq<Turn>, t: Trace, unsaid: seq<Turn>) {
    && transcript == opening + TurnsOf(t) + unsaid
    && |unsaid| <= 1 && (unsaid != [] ==> CutsOff(t))
  }

  lemma RecordWith(opening: seq<Turn>, before: seq<Turn>, t: Trace, e: Event)
    requires IsRecord(opening, before, t, [])
    ensures IsRecord(opening, before + TurnsIn(Replay(t), e), t + [e], [])
  {
    hide TurnsIn, Replay, TurnsOf;
    TurnsAppend(t, e);
    var turns := TurnsIn(Replay(t), e);
    assert opening + TurnsOf(t) + [] + turns == opening + (TurnsOf(t) + turns) + [];
  }

  predicate IsQuiet(e: Event) {
    e.ModelFailed? || e.Observed? || e.Halt? || e.Approve? || e.Decline? || e.Finish? || e.Limit? || e.Failed?
  }

  lemma RecordQuiet(opening: seq<Turn>, transcript: seq<Turn>, t: Trace, e: Event, unsaid: seq<Turn>)
    requires IsRecord(opening, transcript, t, unsaid) && IsQuiet(e) && (unsaid == [] || e.Failed?)
    ensures IsRecord(opening, transcript, t + [e], unsaid)
  {
    hide TurnsOf, Replay;
    TurnsAppend(t, e);
    assert TurnsOf(t) + [] == TurnsOf(t);
  }

  lemma RecordUnsaid(opening: seq<Turn>, before: seq<Turn>, t: Trace, turn: Turn)
    requires IsRecord(opening, before, t, []) && CutsOff(t)
    ensures IsRecord(opening, before + [turn], t, [turn])
  {
    hide TurnsOf, CutsOff;
    assert opening + TurnsOf(t) + [] + [turn] == opening + TurnsOf(t) + [turn];
  }

  lemma FreshRecord(opening: seq<Turn>)
    ensures IsRecord(opening, opening, [], [])
  {
    assert opening + [] + [] == opening;
  }

  lemma ReadyIsWhole(t: Trace)
    requires Ready(t) || StatusOf(t).NeedsConfirmation? || t == []
    ensures !CutsOff(t)
  {
  }

  // ---------------------------------------------------------------------------
  // The numbers in the reason of a refusal.
  // ---------------------------------------------------------------------------

  /** What the reason of a refusal says: it names the tool, and then two numbers. */
  ghost predicate Reason(text: string, tool: string, first: nat, second: nat) {
    exists tail :: text == "tool '" + tool + ("'" + tail) && Numbers(tail) == [first, second]
  }

  /** A refusal by the quota shows the limit and the calls made, or the rest of the cooldown and its length. The
      rest is exact: until it is over the quota stays closed, and then, with no call in between, it is open. */
  lemma ReasonIsRead(d: Doc, spec: ToolSpec, at: int) returns (first: nat, second: nat)
    requires !Allows(d, spec, at)
    ensures Reason(QuotaText(d, spec, at), spec.name, first, second)
    ensures var used := if spec.name in d.toolCounts then d.toolCounts[spec.name] else 0;
            && (0 < spec.maxPerGoal <= used ==> first == spec.maxPerGoal && second == used)
            && (!(0 < spec.maxPerGoal <= used) ==>
                  && second == spec.cooldownMs
                  && forall later | at <= later :: Allows(d, spec, later) <==> at + first <= later)
  {
    hide Reason, UsedUpText, CoolingText;
    if IsUsedUp(d, spec) {
      first, second := spec.maxPerGoal, Used(d, spec.name);
      UsedUpIsRead(spec, second);
    } else {
      first, second := spec.cooldownMs - (at - d.toolLastMs[spec.name]), spec.cooldownMs;
      CoolingIsRead(spec, first);
    }
  }

  lemma UsedUpIsRead(spec: ToolSpec, used: nat)
    ensures Reason(UsedUpText(spec, used), spec.name, spec.maxPerGoal, used)
  {
    hide Numbers, Decimal;
    var a, b, c := " quota exceeded: max ", " calls per goal (used ", ")";
    TwoNumbers(a, spec.maxPerGoal, b, used, c);
    UsedUpIs(spec, used, "tool '" + spec.name);
    hide UsedUpText;
  }

  lemma CoolingIsRead(spec: ToolSpec, remaining: nat)
    ensures Reason(CoolingText(spec, remaining), spec.name, remaining, spec.cooldownMs)
  {
    hide Numbers, Decimal;
    var a, b, c := " is on cooldown: ", "ms remaining (cooldown ", "ms)";
    TwoNumbers(a, remaining, b, spec.cooldownMs, c);
    CoolingIs(spec, remaining, "tool '" + spec.name);
    hide CoolingText;
  }

  lemma UsedUpIs(spec: ToolSpec, used: nat, start: string)
    requires start == "tool '" + spec.name
    ensures UsedUpText(spec, used) == start + ("'" + (" quota exceeded: max " + Decimal(spec.maxPerGoal) +
                                               " calls per goal (used " + Decimal(used) + ")"))
  {
    hide Decimal;
    assert "' quota exceeded: max " == "'" + " quota exceeded: max ";
    Regrouped(start, "'", " quota exceeded: max ", Decimal(spec.maxPerGoal), " calls per goal (used ", Decimal(used),
              ")");
  }

  lemma CoolingIs(spec: ToolSpec, remaining: nat, start: string)
    requires start == "tool '" + spec.name
    ensures CoolingText(spec, remaining) == start + ("'" + (" is on cooldown: " + Decimal(remaining) +
                                                     "ms remaining (cooldown " + Decimal(spec.cooldownMs) + "ms)"))
  {
    hide Decimal;
    assert "' is on cooldown: " == "'" + " is on cooldown: ";
    Regrouped(start, "'", " is on cooldown: ", Decimal(remaining), "ms remaining (cooldown ",
              Decimal(spec.cooldownMs), "ms)");
  }

  lemma Regrouped(start: string, quote: string, a: string, m: string, b: string, n: string, c: string)
    ensures start + (quote + a) + m + b + n + c == start + (quote + (a + m + b + n + c))
  {
  }
}
