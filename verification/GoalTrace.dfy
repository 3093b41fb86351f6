/** The life of one agent goal as a trace of what happened to it, and what a lawful life guarantees.
    The engine (module `Engine`) is proved to make only lawful traces and to keep the goal document a
    function of its trace. */
module GoalTrace {
  import opened Text

  type Params = string

  datatype ToolSpec =
    ToolSpec(name: string, requiresConfirmation: bool, timeoutMs: nat, cooldownMs: nat, maxPerGoal: nat)

  type Catalog = seq<ToolSpec>

  /** The first tool of that name. */
  function Get(catalog: Catalog, name: string): (spec: Option<ToolSpec>)
    ensures spec.Some? ==> spec.value in catalog && spec.value.name == name
    ensures spec.None? ==> forall other | other in catalog :: other.name != name
  {
    if |catalog| == 0 then None
    else if catalog[0].name == name then Some(catalog[0])
    else Get(catalog[1..], name)
  }

  datatype Reply = Final(answer: string) | ToolCall(tool: string, params: Params)

  /** What can happen to a goal. A dispatched call carries the spec found in the catalog loaded for that
      run, the time stored for its cooldown and each outcome the kernel gave; a refused one the spec that
      limits it and the time of the check. `native` says whether native tools were offered, `text` is all that
      the model answered, and `shown` the text that stands in for native tools. */
  datatype Event =
    | Degrade(error: string, shown: string)
    | Said(native: bool, text: string, reply: Reply)
    | ModelFailed(error: string)
    | Unknown(tool: string, params: Params)
    | OverQuota(tool: string, params: Params, quota: ToolSpec, at: int)
    | Dispatch(tool: string, params: Params, spec: Option<ToolSpec>, at: int, tried: seq<Result<string>>)
    | Observed(ok: bool)
    | Halt(tool: string, params: Params, marked: ToolSpec)
    | Approve
    | Decline
    | Finish(answer: string)
    | Limit
    | Failed(error: string)

  type Trace = seq<Event>

  // ---------------------------------------------------------------------------
  // What a trace says.
  // ---------------------------------------------------------------------------

  datatype Status = Running | Completed | NeedsConfirmation | Declined | MaxSteps | Error

  function Last(t: Trace): Option<Event> {
    if |t| == 0 then None else Some(t[|t| - 1])
  }

  /** The operator has just approved this halted call. */
  predicate JustApproved(t: Trace, tool: string, params: Params) {
    |t| >= 2 && t[|t| - 1].Approve? && t[|t| - 2].Halt? && t[|t| - 2].tool == tool && t[|t| - 2].params == params
  }

  /** The model made this call. */
  predicate IsCall(e: Event, tool: string, params: Params) {
    e.Said? && e.reply == ToolCall(tool, params)
  }

  /** The model has just made this call. */
  predicate JustCalled(t: Trace, tool: string, params: Params) {
    |t| > 0 && IsCall(t[|t| - 1], tool, params)
  }

  /** The provider has rejected native tools. */
  predicate Degraded(t: Trace) {
    |t| > 0 && (Degraded(t[..|t| - 1]) || t[|t| - 1].Degrade?)
  }

  /** An approved call was refused by its quota: the one return that leaves a goal running. */
  predicate Stranded(t: Trace) {
    |t| >= 2 && t[|t| - 1].OverQuota? && t[|t| - 2].Approve?
  }

  function StatusOf(t: Trace): Status {
    match Last(t)
    case Some(Halt(_, _, _)) => NeedsConfirmation
    case Some(Finish(_)) => Completed
    case Some(Limit) => MaxSteps
    case Some(ModelFailed(_)) => Error
    case Some(Failed(_)) => Error
    case Some(Decline) => Declined
    case _ => Running
  }

  function StepKind(e: Event): Option<string> {
    match e
    case Unknown(_, _) => Some("unknown_tool")
    case OverQuota(_, _, _, _) => Some("tool_error")
    case Observed(ok) => Some(if ok then "tool_ok" else "tool_error")
    case Halt(_, _, _) => Some("halt_confirm")
    case Finish(_) => Some("final")
    case Limit => Some("max_steps")
    case ModelFailed(_) => Some("error")
    case Failed(_) => Some("error")
    case Decline => Some("declined")
    case _ => None
  }

  datatype StepRec = StepRec(n: nat, kind: string)

  /** The step log: numbered from 1 without a gap. */
  function StepsOf(t: Trace): (steps: seq<StepRec>)
    ensures forall i | 0 <= i < |steps| :: steps[i].n == i + 1
  {
    if |t| == 0 then [] else
      var before := StepsOf(t[..|t| - 1]);
      match StepKind(t[|t| - 1])
      case None => before
      case Some(kind) => before + [StepRec(|before| + 1, kind)]
  }

  /** A dispatch that its quota counts: the tool was in the catalog. */
  predicate Counted(e: Event, tool: string) {
    e.Dispatch? && e.tool == tool && e.spec.Some?
  }

  function CountOf(t: Trace, tool: string): nat {
    if |t| == 0 then 0 else CountOf(t[..|t| - 1], tool) + if Counted(t[|t| - 1], tool) then 1 else 0
  }

  function LastAt(t: Trace, tool: string): Option<int> {
    if |t| == 0 then None
    else if Counted(t[|t| - 1], tool) then Some(t[|t| - 1].at)
    else LastAt(t[..|t| - 1], tool)
  }

  // ---------------------------------------------------------------------------
  // What a trace says of the outside world: the requests made to the kernel and what the model answered.
  // ---------------------------------------------------------------------------

  predicate IsDeviceTarget(tool: string) {
    |tool| >= 4 && tool[..4] == "dev-" && '.' in tool
  }

  predicate IsRetryable(error: string) {
    || Contains(error, "unknown target") || Contains(error, "not registered")
    || Contains(error, "timed out") || Contains(error, "no live connection")
  }

  /** The kernel is asked once more for a device that may come back. */
  predicate ShouldRetry(tool: string, outcome: Result<string>) {
    outcome.Err? && IsDeviceTarget(tool) && IsRetryable(outcome.error)
  }

  ghost predicate Holds(error: string, message: string) {
    exists i: nat :: IsAt(error, message, i)
  }

  /** Which failures ask for a retry: those of a `dev-` tool with a dot in its name whose error says, anywhere in
      it, one of four things. */
  lemma RetryIsExact(tool: string, outcome: Result<string>)
    ensures ShouldRetry(tool, outcome) <==>
            && outcome.Err? && |tool| >= 4 && tool[..4] == "dev-" && '.' in tool
            && (|| Holds(outcome.error, "unknown target") || Holds(outcome.error, "not registered")
                || Holds(outcome.error, "timed out") || Holds(outcome.error, "no live connection"))
  {
    hide FindText;
    if outcome.Err? {
      FindIsFirst(outcome.error, "unknown target");
      FindIsFirst(outcome.error, "not registered");
      FindIsFirst(outcome.error, "timed out");
      FindIsFirst(outcome.error, "no live connection");
    }
  }

  /** One request, or two when the first outcome asks for a retry. */
  predicate WellTried(tool: string, tried: seq<Result<string>>) {
    0 < |tried| <= 2 && (|tried| == 2 <==> ShouldRetry(tool, tried[0]))
  }

  /** One call of the kernel. */
  datatype Request = Request(tool: string, params: Params, outcome: Result<string>)

  function Requests(tool: string, params: Params, tried: seq<Result<string>>): (requests: seq<Request>)
    ensures |requests| == |tried|
  {
    seq(|tried|, k requires 0 <= k < |tried| => Request(tool, params, tried[k]))
  }

  function RequestsIn(e: Event): seq<Request> {
    if e.Dispatch? then Requests(e.tool, e.params, e.tried) else []
  }

  /** Every request of a life, in order. */
  function RequestsOf(t: Trace): seq<Request> {
    if |t| == 0 then [] else RequestsOf(t[..|t| - 1]) + RequestsIn(t[|t| - 1])
  }

  /** One question to the model. */
  datatype Question = Question(native: bool, outcome: Result<(string, Reply)>)

  function QuestionsIn(e: Event): seq<Question> {
    match e
    case Degrade(error, _) => [Question(true, Err(error))]
    case Said(native, text, reply) => [Question(native, Ok((text, reply)))]
    case ModelFailed(error) => [Question(false, Err(error))]
    case _ => []
  }

  /** Every question of a life, in order. */
  function QuestionsOf(t: Trace): seq<Question> {
    if |t| == 0 then [] else QuestionsOf(t[..|t| - 1]) + QuestionsIn(t[|t| - 1])
  }

  /** The provider rejected the native tools of one of these questions, or had done so before. */
  predicate GivenUp(before: bool, questions: seq<Question>) {
    before || exists j :: 0 <= j < |questions| && questions[j].native && questions[j].outcome.Err?
  }

  /** Native tools are offered with every question, if they are wanted, until the provider rejects them, and
      never again. */
  predicate OfferedWell(wanted: bool, before: bool, questions: seq<Question>) {
    forall k | 0 <= k < |questions| ::
      questions[k].native <==> wanted && !GivenUp(before, questions[..k])
  }

  /** The questions asked after `asked`, with native tools where they are wanted and not yet given up. */
  predicate AskedFrom(wanted: bool, before: bool, asked: seq<Question>, after: bool, questions: seq<Question>) {
    && asked <= questions && OfferedWell(wanted, before, questions[|asked|..])
    && (after <==> GivenUp(before, questions[|asked|..]))
  }

  lemma NobodyAsked(wanted: bool, before: bool, asked: seq<Question>)
    ensures AskedFrom(wanted, before, asked, before, asked)
  {
  }

  lemma AskedOn(wanted: bool, before: bool, asked: seq<Question>, between: bool, middle: seq<Question>, after: bool,
                questions: seq<Question>)
    requires AskedFrom(wanted, before, asked, between, middle) && AskedFrom(wanted, between, middle, after, questions)
    ensures AskedFrom(wanted, before, asked, after, questions)
  {
    hide GivenUp, OfferedWell;
    OfferedOn(wanted, before, middle[|asked|..], questions[|middle|..]);
    assert questions[|asked|..] == middle[|asked|..] + questions[|middle|..];
  }

  lemma OfferedOn(wanted: bool, before: bool, a: seq<Question>, b: seq<Question>)
    requires OfferedWell(wanted, before, a) && OfferedWell(wanted, GivenUp(before, a), b)
    ensures OfferedWell(wanted, before, a + b)
    ensures GivenUp(before, a + b) <==> GivenUp(GivenUp(before, a), b)
  {
    GivenUpOn(before, a, b);
    forall k | 0 <= k < |a + b|
      ensures (a + b)[k].native <==> wanted && !GivenUp(before, (a + b)[..k])
    {
      if k < |a| {
        assert (a + b)[..k] == a[..k];
      } else {
        assert (a + b)[..k] == a + b[..k - |a|];
        GivenUpOn(before, a, b[..k - |a|]);
      }
    }
  }

  lemma GivenUpOn(before: bool, a: seq<Question>, b: seq<Question>)
    ensures GivenUp(before, a + b) <==> GivenUp(GivenUp(before, a), b)
  {
    forall j | 0 <= j < |b|
      ensures (a + b)[|a| + j] == b[j]
    {
    }
    forall j | 0 <= j < |a|
      ensures (a + b)[j] == a[j]
    {
    }
  }

  lemma OneQuestion(wanted: bool, before: bool, q: Question)
    requires q.native <==> wanted && !before
    ensures OfferedWell(wanted, before, [q]) && (GivenUp(before, [q]) <==> before || (q.native && q.outcome.Err?))
  {
    assert [q][..0] == [] && [q][0] == q;
  }

  /** One turn of asking: a question, and one more without native tools when the first was rejected. */
  lemma AskedWell(wanted: bool, before: bool, asked: seq<Question>, first: Question, second: seq<Question>)
    requires first.native <==> wanted && !before
    requires |second| <= 1
    requires second != [] ==> !second[0].native && first.native && first.outcome.Err?
    ensures AskedFrom(wanted, before, asked, before || (first.native && first.outcome.Err?), asked + [first] + second)
  {
    hide OfferedWell, GivenUp;
    OneQuestion(wanted, before, first);
    assert (asked + [first])[|asked|..] == [first];
    if second == [] {
      assert asked + [first] + second == asked + [first];
    } else {
      OneQuestion(wanted, GivenUp(before, [first]), second[0]);
      assert (asked + [first] + second)[|asked + [first]|..] == second == [second[0]];
      AskedOn(wanted, before, asked, GivenUp(before, [first]), asked + [first], GivenUp(before, [first]),
              asked + [first] + second);
    }
  }

  lemma LogsAppend(t: Trace, e: Event)
    ensures RequestsOf(t + [e]) == RequestsOf(t) + RequestsIn(e)
    ensures QuestionsOf(t + [e]) == QuestionsOf(t) + QuestionsIn(e)
  {
    hide RequestsIn, QuestionsIn;
    assert (t + [e])[..|t|] == t;
  }

  // ---------------------------------------------------------------------------
  // The document a trace leaves.
  // ---------------------------------------------------------------------------

  /** The fields of a goal document that the engine changes. */
  datatype Doc = Doc(status: Status, finalAnswer: string, error: string, steps: seq<StepRec>,
                     pendingTool: string, pendingParams: Params, nativeToolsDisabled: bool,
                     toolCounts: map<string, nat>, toolLastMs: map<string, int>)

  const NEW_GOAL := Doc(Running, "", "", [], "", "null", false, map[], map[])

  function NextStatus(status: Status, e: Event): Status {
    match e
    case ModelFailed(_) => Error
    case Failed(_) => Error
    case Halt(_, _, _) => NeedsConfirmation
    case Approve => Running
    case Decline => Declined
    case Finish(_) => Completed
    case Limit => MaxSteps
    case _ => status
  }

  function DeclinedAnswer(tool: string): string {
    "Operator declined the proposed call of \"" + tool + "\"."
  }

  function NextAnswer(d: Doc, e: Event): string {
    match e
    case Decline => DeclinedAnswer(d.pendingTool)
    case Finish(answer) => answer
    case _ => d.finalAnswer
  }

  function NextError(error: string, e: Event): string {
    match e
    case ModelFailed(why) => why
    case Failed(why) => why
    case _ => error
  }

  function NextSteps(steps: seq<StepRec>, e: Event): seq<StepRec> {
    match StepKind(e)
    case None => steps
    case Some(kind) => steps + [StepRec(|steps| + 1, kind)]
  }

  function NextPending(tool: string, params: Params, e: Event): (string, Params) {
    match e
    case Halt(halted, asked, _) => (halted, asked)
    case Approve => ("", "null")
    case Decline => ("", "null")
    case _ => (tool, params)
  }

  function NextCounts(counts: map<string, nat>, e: Event): map<string, nat> {
    if e.Dispatch? && e.spec.Some?
    then counts[e.tool := (if e.tool in counts then counts[e.tool] else 0) + 1] else counts
  }

  function NextLasts(lasts: map<string, int>, e: Event): map<string, int> {
    if e.Dispatch? && e.spec.Some? then lasts[e.tool := e.at] else lasts
  }

  /** How one event changes the document. */
  function Apply(d: Doc, e: Event): Doc {
    var (tool, params) := NextPending(d.pendingTool, d.pendingParams, e);
    Doc(NextStatus(d.status, e), NextAnswer(d, e), NextError(d.error, e), NextSteps(d.steps, e), tool, params,
        d.nativeToolsDisabled || e.Degrade?, NextCounts(d.toolCounts, e), NextLasts(d.toolLastMs, e))
  }

  function Replay(t: Trace): Doc {
    if |t| == 0 then NEW_GOAL else Apply(Replay(t[..|t| - 1]), t[|t| - 1])
  }

  lemma ReplayAppend(t: Trace, e: Event)
    ensures Replay(t + [e]) == Apply(Replay(t), e)
  {
    hide Apply;
    assert (t + [e])[..|t|] == t;
  }

  // ---------------------------------------------------------------------------
  // Lawful traces.
  // ---------------------------------------------------------------------------

  /** The engine is about to look at its step budget and ask the model. */
  predicate Ready(t: Trace) {
    && (|t| > 0 ==> var e := t[|t| - 1]; e.Unknown? || e.OverQuota? || e.Observed? || e.Degrade?)
    && !Stranded(t)
  }

  predicate WithinQuota(t: Trace, spec: ToolSpec, at: int) {
    && (spec.maxPerGoal > 0 ==> CountOf(t, spec.name) < spec.maxPerGoal)
    && (spec.cooldownMs > 0 && LastAt(t, spec.name).Some? ==> at - LastAt(t, spec.name).value >= spec.cooldownMs)
  }

  /** A time not before the last counted dispatch of `tool`. */
  predicate IsNow(t: Trace, tool: string, at: int) {
    LastAt(t, tool).Some? ==> LastAt(t, tool).value <= at
  }

  /** Someone has asked for this call: the operator by an approval, or the model, of an unmarked tool. */
  predicate MayDispatch(t: Trace, spec: Option<ToolSpec>, tool: string, params: Params) {
    && (spec.Some? ==> spec.value.name == tool)
    && (|| JustApproved(t, tool, params)
        || (JustCalled(t, tool, params) && spec.Some? && !spec.value.requiresConfirmation))
  }

  /** The model may be asked. */
  predicate MayAsk(maxSteps: nat, t: Trace) {
    Ready(t) && |StepsOf(t)| < maxSteps
  }

  /** `e` may follow `t` in the life of a goal with that step budget. */
  predicate Follows(maxSteps: nat, t: Trace, e: Event) {
    match e
    case Degrade(_, _) => MayAsk(maxSteps, t) && !Degraded(t)
    case Said(native, _, _) => MayAsk(maxSteps, t) && (native ==> !Degraded(t))
    case ModelFailed(_) => MayAsk(maxSteps, t)
    case Limit => Ready(t) && |StepsOf(t)| >= maxSteps
    case Unknown(tool, params) => JustCalled(t, tool, params)
    case OverQuota(tool, params, quota, at) =>
      && MayDispatch(t, Some(quota), tool, params) && !WithinQuota(t, quota, at) && IsNow(t, tool, at)
    case Dispatch(tool, params, spec, at, tried) =>
      && MayDispatch(t, spec, tool, params)
      && (spec.Some? ==> WithinQuota(t, spec.value, at)) && IsNow(t, tool, at)
      && WellTried(tool, tried)
    case Observed(ok) =>
      && |t| > 0 && t[|t| - 1].Dispatch?
      && var tried := t[|t| - 1].tried; |tried| > 0 && (ok <==> tried[|tried| - 1].Ok?)
    case Halt(tool, params, marked) =>
      JustCalled(t, tool, params) && marked.requiresConfirmation && marked.name == tool
    case Approve => |t| > 0 && t[|t| - 1].Halt?
    case Decline => |t| > 0 && t[|t| - 1].Halt?
    case Finish(answer) => |t| > 0 && t[|t| - 1].Said? && t[|t| - 1].reply == Final(answer)
    case Failed(_) => MayFail(t)
  }

  /** The engine can give up here: something it said to the model did not fit. */
  predicate MayFail(t: Trace) {
    |t| == 0 || var e := t[|t| - 1]; e.Said? || e.Dispatch? || e.Approve? || e.Degrade?
  }

  predicate Lawful(maxSteps: nat, t: Trace) {
    |t| > 0 ==> Lawful(maxSteps, t[..|t| - 1]) && Follows(maxSteps, t[..|t| - 1], t[|t| - 1])
  }

  lemma LawfulAppend(maxSteps: nat, t: Trace, e: Event)
    requires Lawful(maxSteps, t) && Follows(maxSteps, t, e)
    ensures Lawful(maxSteps, t + [e])
  {
    hide Follows;
    assert (t + [e])[..|t|] == t;
  }

  lemma {:induction false} LawfulPrefix(maxSteps: nat, t: Trace, n: nat)
    requires Lawful(maxSteps, t) && n <= |t|
    ensures Lawful(maxSteps, t[..n])
  {
    hide Follows;
    if n == |t| {
      assert t[..n] == t;
    } else {
      LawfulPrefix(maxSteps, t[..|t| - 1], n);
      assert t[..|t| - 1][..n] == t[..n];
    }
  }

  /** What justifies the event at `i` of a lawful life. */
  lemma LawfulAt(maxSteps: nat, t: Trace, i: nat)
    requires Lawful(maxSteps, t) && i < |t|
    ensures Follows(maxSteps, t[..i], t[i])
  {
    hide Follows;
    LawfulPrefix(maxSteps, t, i + 1);
    assert t[..i + 1][..i] == t[..i];
  }

  lemma ReplayUnfolds(t: Trace)
    requires |t| > 0
    ensures Replay(t) == Apply(Replay(t[..|t| - 1]), t[|t| - 1])
  {
    hide Apply;
  }

  /** The replayed document shows the step log. */
  lemma {:induction false} ReplaySteps(t: Trace)
    ensures Replay(t).steps == StepsOf(t)
    ensures Replay(t).nativeToolsDisabled <==> Degraded(t)
  {
    if |t| > 0 {
      ReplaySteps(t[..|t| - 1]);
      ReplayUnfolds(t);
      hide Replay, StepKind, NextStatus, NextAnswer, NextError, NextPending, NextCounts, NextLasts;
    }
  }

  lemma StepAppend(t: Trace, e: Event)
    ensures StepsOf(t + [e]) ==
            match StepKind(e) case None => StepsOf(t) case Some(kind) => StepsOf(t) + [StepRec(|StepsOf(t)| + 1, kind)]
  {
    hide StepKind;
    assert (t + [e])[..|t|] == t;
  }

  lemma {:induction false} StepsGrow(t: Trace, n: nat)
    requires n <= |t|
    ensures StepsOf(t[..n]) <= StepsOf(t)
  {
    hide StepKind;
    if n == |t| {
      assert t[..n] == t;
    } else {
      StepsGrow(t[..|t| - 1], n);
      assert t[..|t| - 1][..n] == t[..n];
    }
  }

  /** What the step log says of the event after `t`: how a call came out, by the outcome that was observed; why it was
      not made; that the operator is asked or declined; and how the goal ended. */
  predicate KindSays(t: Trace, e: Event, kind: string) {
    match e
    case Observed(_) =>
      var n := |t| - 1;
      && n >= 0 && t[n].Dispatch? && |t[n].tried| > 0
      && kind == if t[n].tried[|t[n].tried| - 1].Ok? then "tool_ok" else "tool_error"
    case Unknown(_, _) => kind == "unknown_tool"
    case OverQuota(_, _, _, _) => kind == "tool_error"
    case Halt(_, _, _) => kind == "halt_confirm"
    case Decline => kind == "declined"
    case Finish(_) => kind == "final"
    case Limit => kind == "max_steps"
    case _ => (e.ModelFailed? || e.Failed?) && kind == "error"
  }

  lemma KindIsSaid(maxSteps: nat, t: Trace, e: Event)
    requires Follows(maxSteps, t, e) && StepKind(e).Some?
    ensures KindSays(t, e, StepKind(e).value)
  {
    hide StepsOf, WithinQuota, WellTried, IsNow, MayDispatch, Degraded, MayAsk, JustCalled, Ready;
  }

  lemma StepsSay(maxSteps: nat, t: Trace, i: nat)
    requires Lawful(maxSteps, t) && i < |t| && StepKind(t[i]).Some?
    ensures var n := |StepsOf(t[..i])|;
            n < |StepsOf(t)| && StepsOf(t)[n].n == n + 1 && KindSays(t[..i], t[i], StepsOf(t)[n].kind)
  {
    LawfulAt(maxSteps, t, i);
    hide Lawful, StepsOf, Follows, StepKind, KindSays;
    KindIsSaid(maxSteps, t[..i], t[i]);
    StepAppend(t[..i], t[i]);
    assert t[..i] + [t[i]] == t[..i + 1];
    StepsGrow(t, i + 1);
  }

  /** The replayed document shows how often and when last each tool was dispatched and counted. */
  lemma {:induction false} ReplayCounts(t: Trace, tool: string)
    ensures var d := Replay(t);
            && CountOf(t, tool) == (if tool in d.toolCounts then d.toolCounts[tool] else 0)
            && LastAt(t, tool) == (if tool in d.toolLastMs then Some(d.toolLastMs[tool]) else None)
  {
    if |t| > 0 {
      ReplayCounts(t[..|t| - 1], tool);
      ReplayUnfolds(t);
      hide Replay, NextSteps, NextStatus, NextAnswer, NextError, NextPending;
    }
  }

  /** Only the operator's answer follows a halt, and it follows nothing else. */
  lemma FollowsStatus(maxSteps: nat, t: Trace, e: Event)
    requires Follows(maxSteps, t, e)
    ensures StatusOf(t) == if e.Approve? || e.Decline? then NeedsConfirmation else Running
  {
    hide StepsOf, LastAt, WithinQuota;
  }

  /** The replayed document shows the status; while it waits for the operator, the halted call; and when
      it is completed, the model's answer. */
  lemma {:induction false} ReplayStatus(maxSteps: nat, t: Trace)
    requires Lawful(maxSteps, t)
    ensures var d := Replay(t);
            && d.status == StatusOf(t)
            && (d.status.NeedsConfirmation? ==>
                  d.pendingTool == t[|t| - 1].tool && d.pendingParams == t[|t| - 1].params)
            && (!d.status.NeedsConfirmation? ==> d.pendingTool == "" && d.pendingParams == "null")
            && (d.status.Completed? ==> t[|t| - 1] == Finish(d.finalAnswer))
  {
    if |t| > 0 {
      var n := |t| - 1;
      ReplayStatus(maxSteps, t[..n]);
      FollowsStatus(maxSteps, t[..n], t[n]);
      ReplayUnfolds(t);
      hide Replay, Follows, Lawful, NextSteps, NextError, NextCounts, NextLasts;
    }
  }

  // ---------------------------------------------------------------------------
  // What a lawful life guarantees.
  // ---------------------------------------------------------------------------

  /** The dispatch at `i` carries out the halt just before the operator's approval. */
  predicate CarriesOut(t: Trace, i: nat)
    requires i < |t| && t[i].Dispatch?
  {
    && i >= 2 && t[i - 1].Approve?
    && t[i - 2].Halt? && t[i - 2].tool == t[i].tool && t[i - 2].params == t[i].params
  }

  /** The dispatch at `i` makes the call that the model has just made, of a tool listed without a mark. */
  predicate CarriesCall(t: Trace, i: nat)
    requires i < |t| && t[i].Dispatch?
  {
    && i >= 1 && IsCall(t[i - 1], t[i].tool, t[i].params)
    && t[i].spec.Some? && t[i].spec.value.name == t[i].tool && !t[i].spec.value.requiresConfirmation
  }

  /** Whatever the catalogs were: a call is dispatched only right after the model made it, if the catalog
      of that run lists the tool without a confirmation mark, or right after the operator approved
      exactly this call. */
  lemma {:induction false} DispatchIsAllowed(maxSteps: nat, t: Trace, i: nat)
    requires Lawful(maxSteps, t) && i < |t| && t[i].Dispatch?
    ensures CarriesOut(t, i) || CarriesCall(t, i)
    ensures WellTried(t[i].tool, t[i].tried)
  {
    LawfulAt(maxSteps, t, i);
    var before := t[..i];
    assert i >= 1 ==> before[|before| - 1] == t[i - 1];
    assert i >= 2 ==> before[|before| - 2] == t[i - 2];
    hide WithinQuota, WellTried, LastAt;
  }

  /** `r` is one of the requests made by the dispatch at `i`. */
  predicate IsMadeAt(t: Trace, i: nat, r: Request) {
    i < |t| && t[i].Dispatch? && t[i].tool == r.tool && t[i].params == r.params && r.outcome in t[i].tried
  }

  /** The operator approved it, or the model called it and its tool is unmarked. */
  predicate IsAllowedAt(t: Trace, i: nat, r: Request) {
    IsMadeAt(t, i, r) && (CarriesOut(t, i) || CarriesCall(t, i))
  }

  lemma {:induction false} RequestIsMade(t: Trace, k: nat)
    requires k < |RequestsOf(t)|
    ensures exists i :: IsMadeAt(t, i, RequestsOf(t)[k])
  {
    var n := |t| - 1;
    var before := RequestsOf(t[..n]);
    if k < |before| {
      RequestIsMade(t[..n], k);
      var i :| IsMadeAt(t[..n], i, before[k]);
      assert IsMadeAt(t, i, RequestsOf(t)[k]);
    } else {
      assert RequestsOf(t)[k] == RequestsIn(t[n])[k - |before|];
      assert t[n].tried[k - |before|] in t[n].tried;
      assert IsMadeAt(t, n, RequestsOf(t)[k]);
    }
  }

  /** Every request to the kernel makes a call that the operator has just approved, or that the model has
      just made of a tool without a confirmation mark. */
  lemma {:induction false} RequestIsAllowed(maxSteps: nat, t: Trace, k: nat)
    requires Lawful(maxSteps, t) && k < |RequestsOf(t)|
    ensures exists i :: IsAllowedAt(t, i, RequestsOf(t)[k])
  {
    RequestIsMade(t, k);
    var i :| IsMadeAt(t, i, RequestsOf(t)[k]);
    DispatchIsAllowed(maxSteps, t, i);
    hide Lawful, RequestsOf, CarriesOut, CarriesCall;
    assert IsAllowedAt(t, i, RequestsOf(t)[k]);
  }

  lemma AnswerFollows(maxSteps: nat, t: Trace, h: nat)
    requires Lawful(maxSteps, t) && h + 1 < |t| && t[h].Halt?
    ensures t[h + 1].Approve? || t[h + 1].Decline?
  {
    LawfulAt(maxSteps, t, h + 1);
    assert t[..h + 1][h] == t[h];
    hide Lawful, StepsOf, LastAt, WithinQuota, WellTried, Degraded;
  }

  lemma DeclineIsLast(maxSteps: nat, t: Trace, h: nat)
    requires Lawful(maxSteps, t) && h + 1 < |t| && t[h].Halt? && t[h + 1].Decline?
    ensures |t| == h + 2 && RequestsOf(t) == RequestsOf(t[..h])
  {
    assert t[..h + 2][h + 1] == t[h + 1];
    hide Lawful;
    EndsAreFinal(maxSteps, t, h + 1);
    assert t[..h + 1][..h] == t[..h] && t[..h + 1] == t[..|t| - 1];
  }

  /** The next event after a halt is the operator's answer. A declined goal has ended, and no request was
      made since the halt; an approval is used up by the next event. */
  lemma {:induction false} HaltIsAnswered(maxSteps: nat, t: Trace, h: nat)
    requires Lawful(maxSteps, t) && h + 1 < |t| && t[h].Halt?
    ensures t[h + 1].Approve? || t[h + 1].Decline?
    ensures t[h + 1].Decline? ==> |t| == h + 2 && RequestsOf(t) == RequestsOf(t[..h])
    ensures forall i | h < i < |t| && t[i].Dispatch? && CarriesOut(t, i) ::
              i == h + 2 || exists g | h < g < i :: t[g].Halt?
  {
    AnswerFollows(maxSteps, t, h);
    if t[h + 1].Decline? {
      DeclineIsLast(maxSteps, t, h);
    }
    hide Lawful, RequestsOf;
    forall i | h < i < |t| && t[i].Dispatch? && CarriesOut(t, i)
      ensures i == h + 2 || exists g | h < g < i :: t[g].Halt?
    {
      assert t[i - 2].Halt? && t[i - 1].Approve?;
    }
  }

  predicate IsTerminal(status: Status) {
    status in {Completed, Declined, MaxSteps, Error}
  }

  /** The goal has ended or waits for the operator. */
  predicate Settled(t: Trace) {
    IsTerminal(StatusOf(t)) || StatusOf(t).NeedsConfirmation?
  }

  /** Nothing happens to a goal after it ended. */
  lemma {:induction false} EndsAreFinal(maxSteps: nat, t: Trace, i: nat)
    requires Lawful(maxSteps, t) && i < |t| && IsTerminal(StatusOf(t[..i + 1]))
    ensures i == |t| - 1
  {
    if i + 1 < |t| {
      LawfulAt(maxSteps, t, i + 1);
    }
  }

  /** What `e` says of a tool is what this catalog says. */
  predicate FromCatalog(catalog: Catalog, e: Event) {
    && (e.Dispatch? ==> e.spec == Get(catalog, e.tool))
    && (e.Halt? ==> Get(catalog, e.tool) == Some(e.marked))
    && (e.OverQuota? ==> Get(catalog, e.tool) == Some(e.quota))
    && (e.Unknown? ==> Get(catalog, e.tool).None?)
  }

  /** From the event at `n` on, the catalog is this one. */
  predicate UsesFrom(catalog: Catalog, t: Trace, n: nat) {
    forall i | n <= i < |t| :: FromCatalog(catalog, t[i])
  }

  /** Every run loads the same catalog. */
  predicate UsesCatalog(catalog: Catalog, t: Trace) {
    UsesFrom(catalog, t, 0)
  }

  /** With one catalog for the whole life, every dispatched tool is in it, and the tools it marks for
      confirmation are exactly those dispatched by an approval. */
  lemma {:induction false} OneCatalog(maxSteps: nat, catalog: Catalog, t: Trace, i: nat)
    requires Lawful(maxSteps, t) && UsesCatalog(catalog, t) && i < |t| && t[i].Dispatch?
    ensures Get(catalog, t[i].tool).Some?
    ensures Get(catalog, t[i].tool).value.requiresConfirmation <==> CarriesOut(t, i)
  {
    DispatchIsAllowed(maxSteps, t, i);
    hide Get, WellTried;
    if CarriesOut(t, i) {
      LawfulAt(maxSteps, t, i - 2);
      assert FromCatalog(catalog, t[i - 2]);
    }
    assert FromCatalog(catalog, t[i]);
    hide Lawful;
  }

  /** So every request is for a tool of the catalog, and one for a marked tool was approved. */
  lemma {:induction false} RequestsUseCatalog(maxSteps: nat, catalog: Catalog, t: Trace, k: nat)
    requires Lawful(maxSteps, t) && UsesCatalog(catalog, t) && k < |RequestsOf(t)|
    ensures var r := RequestsOf(t)[k];
            && Get(catalog, r.tool).Some?
            && (exists i :: IsMadeAt(t, i, r) &&
                            (Get(catalog, r.tool).value.requiresConfirmation <==> CarriesOut(t, i)))
  {
    RequestIsMade(t, k);
    var i :| IsMadeAt(t, i, RequestsOf(t)[k]);
    OneCatalog(maxSteps, catalog, t, i);
  }

  /** The catalog may be loaded again before an approved call is made: a tool that has left it is still
      dispatched then, and only then. */
  lemma {:induction false} MissingOnlyAfterApproval(maxSteps: nat, t: Trace, i: nat)
    requires Lawful(maxSteps, t) && i < |t| && t[i].Dispatch? && t[i].spec.None?
    ensures CarriesOut(t, i)
  {
    DispatchIsAllowed(maxSteps, t, i);
  }

  /** What becomes of a call that the operator approved or the model made, when the goal goes on: refused
      as unknown if the model asked for a tool outside the catalog, halted if it asked for a marked one,
      refused by its quota exactly when the quota is used up, and dispatched otherwise. */
  lemma {:induction false} CallIsAnswered(maxSteps: nat, catalog: Catalog, t: Trace, i: nat,
                                          tool: string, params: Params)
    requires Lawful(maxSteps, t) && UsesFrom(catalog, t, i) && i < |t| && !t[i].Failed?
    requires JustApproved(t[..i], tool, params) || JustCalled(t[..i], tool, params)
    ensures var (called, spec) := (JustCalled(t[..i], tool, params), Get(catalog, tool));
            && (t[i] == Unknown(tool, params) <==> called && spec.None?)
            && (t[i].Halt? <==> called && spec.Some? && spec.value.requiresConfirmation)
            && (!t[i].Unknown? && !t[i].Halt? ==>
                  && (t[i].OverQuota? || t[i].Dispatch?) && t[i].tool == tool && t[i].params == params
                  && (t[i].OverQuota? <==> spec.Some? && !WithinQuota(t[..i], spec.value, t[i].at)))
  {
    LawfulAt(maxSteps, t, i);
    var before := t[..i];
    assert FromCatalog(catalog, t[i]);
    hide Lawful, WithinQuota, WellTried, LastAt, Get, StepsOf, Degraded, UsesFrom;
  }

  // Quotas.

  lemma {:induction false} LastAtIsLatest(maxSteps: nat, t: Trace, j: nat)
    requires Lawful(maxSteps, t) && j < |t| && t[j].Dispatch? && t[j].spec.Some?
    ensures LastAt(t, t[j].tool).Some? && t[j].at <= LastAt(t, t[j].tool).value
  {
    var n := |t| - 1;
    if j < n {
      LastAtIsLatest(maxSteps, t[..n], j);
    }
  }

  /** When the clock does not go back: at every dispatch that a spec limits, the calls so far, this one
      included, are within its quota, and every earlier one is at least the cooldown away. */
  lemma {:induction false} QuotaHolds(maxSteps: nat, t: Trace, i: nat)
    requires Lawful(maxSteps, t) && i < |t| && t[i].Dispatch? && t[i].spec.Some?
    ensures var spec := t[i].spec.value;
            && (spec.maxPerGoal > 0 ==> CountOf(t[..i + 1], t[i].tool) <= spec.maxPerGoal)
            && (forall j | 0 <= j < i && Counted(t[j], t[i].tool) :: t[i].at - t[j].at >= spec.cooldownMs)
  {
    LawfulAt(maxSteps, t, i);
    LawfulPrefix(maxSteps, t, i);
    assert t[..i + 1][..i] == t[..i];
    hide Follows, Lawful;
    forall j | 0 <= j < i && Counted(t[j], t[i].tool)
      ensures t[i].at - t[j].at >= t[i].spec.value.cooldownMs
    {
      assert t[..i][j] == t[j];
      LastAtIsLatest(maxSteps, t[..i], j);
      QuotaAt(maxSteps, t[..i], t[i]);
    }
    QuotaAt(maxSteps, t[..i], t[i]);
  }

  lemma QuotaAt(maxSteps: nat, t: Trace, e: Event)
    requires Follows(maxSteps, t, e) && e.Dispatch? && e.spec.Some?
    ensures e.spec.value.name == e.tool && WithinQuota(t, e.spec.value, e.at)
    ensures LastAt(t, e.tool).Some? ==> LastAt(t, e.tool).value <= e.at
  {
  }

  /** With one catalog, the count of a limited tool never exceeds its limit. */
  lemma {:induction false} CountIsBounded(maxSteps: nat, catalog: Catalog, t: Trace, tool: string)
    requires Lawful(maxSteps, t) && UsesCatalog(catalog, t)
    requires Get(catalog, tool).Some? && Get(catalog, tool).value.maxPerGoal > 0
    ensures CountOf(t, tool) <= Get(catalog, tool).value.maxPerGoal
  {
    if |t| > 0 {
      var n := |t| - 1;
      if Counted(t[n], tool) {
        QuotaHolds(maxSteps, t, n);
        assert t[..n + 1] == t;
      } else {
        hide Follows;
        CountIsBounded(maxSteps, catalog, t[..n], tool);
      }
    }
  }

  // Requests.

  function RequestCount(requests: seq<Request>, tool: string): nat {
    if |requests| == 0 then 0 else
      RequestCount(requests[..|requests| - 1], tool) + if requests[|requests| - 1].tool == tool then 1 else 0
  }

  /** How often the kernel may be asked for one dispatch. */
  function MaxTries(tool: string): nat {
    if IsDeviceTarget(tool) then 2 else 1
  }

  lemma {:induction false} RequestCountConcat(a: seq<Request>, b: seq<Request>, tool: string)
    ensures RequestCount(a + b, tool) == RequestCount(a, tool) + RequestCount(b, tool)
  {
    if |b| == 0 {
      assert a + b == a;
    } else {
      RequestCountConcat(a, b[..|b| - 1], tool);
      assert (a + b)[..|a + b| - 1] == a + b[..|b| - 1];
    }
  }

  lemma RequestCountIn(e: Event, tool: string)
    requires e.Dispatch? ==> WellTried(e.tool, e.tried)
    ensures RequestCount(RequestsIn(e), tool) <= if e.Dispatch? && e.tool == tool then MaxTries(tool) else 0
  {
    var requests := RequestsIn(e);
    if |requests| > 0 {
      assert RequestCount(requests[..0], tool) == 0;
      if |requests| == 2 {
        assert requests[..1][..0] == [];
      }
    }
  }

  lemma LastDispatchCounts(maxSteps: nat, catalog: Catalog, t: Trace, tool: string)
    requires |t| > 0 && Lawful(maxSteps, t) && UsesCatalog(catalog, t)
    ensures var (before, e) := (t[..|t| - 1], t[|t| - 1]);
            && Lawful(maxSteps, before) && UsesCatalog(catalog, before)
            && CountOf(t, tool) == CountOf(before, tool) + (if Counted(e, tool) then 1 else 0)
            && RequestCount(RequestsIn(e), tool) <= if Counted(e, tool) then MaxTries(tool) else 0
  {
    var n := |t| - 1;
    hide WellTried, CarriesOut, CarriesCall, Get, IsDeviceTarget;
    if t[n].Dispatch? {
      DispatchIsAllowed(maxSteps, t, n);
      OneCatalog(maxSteps, catalog, t, n);
      assert FromCatalog(catalog, t[n]);
    }
    hide RequestCount, RequestsIn, MaxTries;
    RequestCountIn(t[n], tool);
  }

  /** A tool is requested at most once for each of its dispatches, a device at most twice. */
  lemma {:induction false} RequestsPerDispatch(maxSteps: nat, catalog: Catalog, t: Trace, tool: string)
    requires Lawful(maxSteps, t) && UsesCatalog(catalog, t)
    ensures RequestCount(RequestsOf(t), tool) <= MaxTries(tool) * CountOf(t, tool)
  {
    hide *;
    if |t| == 0 {
      NothingRequested(t, tool);
    } else {
      var n := |t| - 1;
      LastDispatchCounts(maxSteps, catalog, t, tool);
      RequestsPerDispatch(maxSteps, catalog, t[..n], tool);
      RequestCountConcat(RequestsOf(t[..n]), RequestsIn(t[n]), tool);
      RequestsUnfold(t);
      OneMoreCounted(MaxTries(tool), CountOf(t[..n], tool), RequestCount(RequestsOf(t[..n]), tool),
                     RequestCount(RequestsIn(t[n]), tool), Counted(t[n], tool));
    }
  }

  lemma NothingRequested(t: Trace, tool: string)
    requires |t| == 0
    ensures RequestCount(RequestsOf(t), tool) <= MaxTries(tool) * CountOf(t, tool)
  {
  }

  lemma OneMoreCounted(most: nat, count: nat, requests: nat, more: nat, counted: bool)
    requires requests <= most * count && more <= if counted then most else 0
    ensures requests + more <= most * (count + if counted then 1 else 0)
  {
  }

  lemma RequestsUnfold(t: Trace)
    requires |t| > 0
    ensures RequestsOf(t) == RequestsOf(t[..|t| - 1]) + RequestsIn(t[|t| - 1])
  {
    hide RequestsIn;
  }

  /** With one catalog a limited tool is requested at most `maxPerGoal` times, a device at most twice as
      often. */
  lemma {:induction false} RequestsAreBounded(maxSteps: nat, catalog: Catalog, t: Trace, tool: string)
    requires Lawful(maxSteps, t) && UsesCatalog(catalog, t)
    requires Get(catalog, tool).Some? && Get(catalog, tool).value.maxPerGoal > 0
    ensures RequestCount(RequestsOf(t), tool) <= MaxTries(tool) * Get(catalog, tool).value.maxPerGoal
  {
    RequestsPerDispatch(maxSteps, catalog, t, tool);
    CountIsBounded(maxSteps, catalog, t, tool);
    hide Lawful, RequestsOf, RequestCount, CountOf, UsesFrom, Get, IsDeviceTarget;
  }

  // Budgets.

  function AsksOf(t: Trace): nat {
    if |t| == 0 then 0 else
      AsksOf(t[..|t| - 1]) + if t[|t| - 1].Said? || t[|t| - 1].ModelFailed? then 1 else 0
  }

  /** The step log never holds more than two entries over the budget, and the model answers at most as
      often as the budget says. */
  lemma {:induction false} BudgetHolds(maxSteps: nat, t: Trace)
    requires Lawful(maxSteps, t)
    ensures |StepsOf(t)| <= maxSteps + 2
    ensures AsksOf(t) <= maxSteps
    ensures AsksOf(t) <= |StepsOf(t)| + if |t| > 0 && (t[|t| - 1].Said? || t[|t| - 1].Dispatch?) then 1 else 0
    ensures |t| > 0 ==> |StepsOf(t)| + Room(t[|t| - 1]) <= maxSteps + 2
  {
    if |t| > 0 {
      BudgetHolds(maxSteps, t[..|t| - 1]);
    }
  }

  /** The model is asked at most once more than the budget says: for the retry without native tools. */
  lemma {:induction false} QuestionsAreBounded(maxSteps: nat, t: Trace)
    requires Lawful(maxSteps, t)
    ensures |QuestionsOf(t)| == AsksOf(t) + if Degraded(t) then 1 else 0
    ensures |QuestionsOf(t)| <= maxSteps + 1
  {
    BudgetHolds(maxSteps, t);
    if |t| > 0 {
      QuestionsAreBounded(maxSteps, t[..|t| - 1]);
      hide StepsOf, WithinQuota, LastAt, WellTried, MayDispatch;
    }
  }

  /** How far from two over the budget the step log still is after `e`. */
  function Room(e: Event): nat {
    match e
    case Said(_, _, _) => 3
    case Degrade(_, _) => 3
    case Halt(_, _, _) => 2
    case Approve => 2
    case Dispatch(_, _, _, _, _) => 2
    case Limit => 0
    case _ => 1
  }
}
