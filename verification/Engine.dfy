/** The engine behind one goal: it asks the model, does what the model says, and tells it what came of that,
    until the goal ends or needs the operator. What the model and the kernel answer and how the clock moves
    are arbitrary scripts; every storage write succeeds. A call of the kernel or of the
    model is possible only where the goal's trace permits it (module `GoalTrace`), and is logged. Each method
    extends the trace lawfully and keeps the document and both logs functions of it. */
module Engine {
  import opened GoalTrace
  import opened Text
  import opened Transcript

  const TIMEOUT_UNKNOWN_TOOL: nat := 30_000

  // ---------------------------------------------------------------------------
  // The opening messages.
  // ---------------------------------------------------------------------------

  /** The messages for the pairs from number `i` on, each question but the first as a message of its own. */
  function Pairs(history: seq<(string, string)>, i: nat): seq<Turn>
    requires i <= |history|
    decreases |history| - i
  {
    if i == |history| then [] else
      (if i > 0 then [Turn(User, history[i].0)] else []) + [Turn(Assistant, history[i].1)] + Pairs(history, i + 1)
  }

  function Fold(first: Turn, question: string): Turn {
    first.(content := first.content + "\n\n---\n[EARLIER IN THIS CONVERSATION]\n" + question)
  }

  /** Prior pairs between the first message and the rest, the first question inside the first message. */
  function Weave(transcript: seq<Turn>, history: seq<(string, string)>): seq<Turn> {
    if |history| == 0 || |transcript| == 0 then transcript
    else [Fold(transcript[0], history[0].0)] + Pairs(history, 0) + transcript[1..]
  }

  /** The messages that a fresh goal starts with. */
  function SeedOf(opening: seq<Turn>, history: seq<(string, string)>, recalled: Option<string>): seq<Turn> {
    Weave(opening, history) + if recalled.Some? then [Turn(User, recalled.value)] else []
  }

  method WeaveHistory(transcript: seq<Turn>, history: seq<(string, string)>) returns (woven: seq<Turn>)
    ensures woven == Weave(transcript, history)
  {
    hide Fold;
    if |history| == 0 || |transcript| == 0 {
      return transcript;
    }
    var first := transcript[0];
    var turns: seq<Turn> := [];
    for i := 0 to |history|
      invariant first == if i == 0 then transcript[0] else Fold(transcript[0], history[0].0)
      invariant turns + Pairs(history, i) == Pairs(history, 0)
    {
      if i == 0 {
        first := Fold(first, history[0].0);
      } else {
        turns := turns + [Turn(User, history[i].0)];
      }
      turns := turns + [Turn(Assistant, history[i].1)];
    }
    assert turns + [] == turns;
    return [first] + turns + transcript[1..];
  }

  lemma PairsStep(history: seq<(string, string)>, i: nat)
    requires 0 < i < |history|
    ensures Pairs(history, i) == [Turn(User, history[i].0), Turn(Assistant, history[i].1)] + Pairs(history, i + 1)
  {
  }

  lemma {:induction false} PairsAlternate(history: seq<(string, string)>, i: nat, j: nat)
    requires 0 < i <= |history| && j < 2 * (|history| - i)
    ensures |Pairs(history, i)| == 2 * (|history| - i)
    ensures Pairs(history, i)[j] == if j % 2 == 0 then Turn(User, history[i + j / 2].0)
                                    else Turn(Assistant, history[i + j / 2].1)
    decreases |history| - i
  {
    PairsLength(history, i);
    PairsLength(history, i + 1);
    PairsStep(history, i);
    hide Pairs;
    if j >= 2 {
      assert (j - 2) / 2 == j / 2 - 1 && (j - 2) % 2 == j % 2;
      PairsAlternate(history, i + 1, j - 2);
    }
  }

  lemma {:induction false} PairsLength(history: seq<(string, string)>, i: nat)
    requires 0 < i <= |history|
    ensures |Pairs(history, i)| == 2 * (|history| - i)
    decreases |history| - i
  {
    if i < |history| {
      PairsLength(history, i + 1);
    }
  }

  lemma WovenForm(first: Turn, goal: Turn, history: seq<(string, string)>)
    requires |history| > 0
    ensures Weave([first, goal], history) ==
            [Fold(first, history[0].0), Turn(Assistant, history[0].1)] + (Pairs(history, 1) + [goal])
  {
    hide Fold;
    var rest, answer := Pairs(history, 1), Turn(Assistant, history[0].1);
    assert Pairs(history, 0) == [] + [answer] + rest;
    hide Pairs;
    assert [first, goal][1..] == [goal];
    assert [Fold(first, history[0].0)] + ([] + [answer] + rest) + [goal] ==
           [Fold(first, history[0].0), answer] + (rest + [goal]);
  }

  /** What is woven at place `j` after the first: the answers and questions alternate, and the goal comes last. */
  function WovenTurn(goal: Turn, history: seq<(string, string)>, j: nat): Turn
    requires 0 < j <= 2 * |history|
  {
    if j == 2 * |history| then goal
    else if j % 2 == 0 then Turn(User, history[j / 2].0)
    else Turn(Assistant, history[j / 2].1)
  }

  lemma FoldKeepsBoth(first: Turn, question: string)
    ensures var folded := Fold(first, question);
            folded.role == first.role && first.content <= folded.content && EndsWith(folded.content, question)
  {
    var head := first.content + "\n\n---\n[EARLIER IN THIS CONVERSATION]\n";
    assert (head + question)[|head|..] == question;
  }

  /** The first message comes first, with the first question at its end. */
  lemma WovenAlternates(first: Turn, goal: Turn, history: seq<(string, string)>, j: nat)
    requires |history| > 0
    ensures var woven := Weave([first, goal], history);
            && |woven| == 2 * |history| + 1
            && woven[0].role == first.role && first.content <= woven[0].content
            && EndsWith(woven[0].content, history[0].0)
            && (0 < j < |woven| ==> woven[j] == WovenTurn(goal, history, j))
  {
    WovenForm(first, goal, history);
    PairsLength(history, 1);
    FoldKeepsBoth(first, history[0].0);
    hide Fold, Pairs, Weave;
    var rest := Pairs(history, 1);
    if 2 <= j < 2 * |history| {
      PairsAlternate(history, 1, j - 2);
      assert (rest + [goal])[j - 2] == rest[j - 2];
    }
  }

  // ---------------------------------------------------------------------------
  // The step log.
  // ---------------------------------------------------------------------------

  /** Steps that count against the budget. */
  function NonFinal(steps: seq<StepRec>): nat {
    if |steps| == 0 then 0
    else NonFinal(steps[..|steps| - 1]) + if steps[|steps| - 1].kind != "final" then 1 else 0
  }

  function MaxNumber(steps: seq<StepRec>): nat {
    if |steps| == 0 then 0 else
      var before := MaxNumber(steps[..|steps| - 1]);
      if steps[|steps| - 1].n > before then steps[|steps| - 1].n else before
  }

  lemma {:induction false} MaxIsLength(steps: seq<StepRec>)
    requires forall i | 0 <= i < |steps| :: steps[i].n == i + 1
    ensures MaxNumber(steps) == |steps|
  {
    if |steps| > 0 {
      MaxIsLength(steps[..|steps| - 1]);
    }
  }

  lemma {:induction false} AllCount(steps: seq<StepRec>)
    requires forall i | 0 <= i < |steps| :: steps[i].kind != "final"
    ensures NonFinal(steps) == |steps|
  {
    if |steps| > 0 {
      AllCount(steps[..|steps| - 1]);
    }
  }

  /** Only a finished goal has a `final` step. */
  lemma {:induction false} NoFinalStep(maxSteps: nat, t: Trace)
    requires Lawful(maxSteps, t) && (|t| > 0 ==> !t[|t| - 1].Finish?)
    ensures forall i | 0 <= i < |StepsOf(t)| :: StepsOf(t)[i].kind != "final"
  {
    if |t| > 0 {
      NoFinalStep(maxSteps, t[..|t| - 1]);
    }
  }

  // ---------------------------------------------------------------------------
  // The clock.
  // ---------------------------------------------------------------------------

  /** The times kept for the cooldowns are past. */
  predicate ArePast(lasts: map<string, int>, clock: int) {
    forall tool | tool in lasts :: lasts[tool] <= clock
  }

  lemma PastLater(lasts: map<string, int>, tool: string, clock: int, now: int)
    requires ArePast(lasts, clock) && clock <= now
    ensures ArePast(lasts, now) && ArePast(lasts[tool := now], now)
  {
  }

  lemma PastIsPast(t: Trace, tool: string, clock: int)
    requires ArePast(Replay(t).toolLastMs, clock)
    ensures IsNow(t, tool, clock)
  {
    hide Replay, CountOf, LastAt;
    ReplayCounts(t, tool);
  }

  // ---------------------------------------------------------------------------
  // The outside world.
  // ---------------------------------------------------------------------------

  /** The next answer of a script; nobody answers after its end. */
  function Next<T>(script: seq<Result<T>>): Result<T> {
    if |script| == 0 then Err("no answer") else script[0]
  }

  function Rest<T>(script: seq<T>): seq<T> {
    if |script| == 0 then [] else script[1..]
  }

  /** What the clock shows when it is read next. */
  function Reading(clock: int, ticks: seq<nat>): int {
    clock + if |ticks| == 0 then 0 else ticks[0]
  }

  /** The outcomes of one dispatch: the kernel is asked again when the first outcome asks for a retry. */
  function Tries(tool: string, outcomes: seq<Result<string>>): (tried: seq<Result<string>>)
    ensures |tried| > 0 && tried[0] == Next(outcomes) && WellTried(tool, tried)
  {
    var first := Next(outcomes);
    if ShouldRetry(tool, first) then [first, Next(Rest(outcomes))] else [first]
  }

  /** How the log shows a question. */
  function Heard(native: bool, outcome: Result<(string, Reply)>): Question {
    Question(native, outcome)
  }

  /** How the trace shows the answer that ends a turn of asking. */
  function Answer(native: bool, outcome: Result<(string, Reply)>): Event {
    if outcome.Ok? then Said(native, outcome.value.0, outcome.value.1) else ModelFailed(outcome.error)
  }

  function AnswerTurns(outcome: Result<(string, Reply)>): seq<Turn> {
    if outcome.Ok? then [Turn(Assistant, outcome.value.0)] else []
  }

  // ---------------------------------------------------------------------------
  // What the answer to a call adds to the trace.
  // ---------------------------------------------------------------------------

  /** The events of a dispatch: the call, and its observation if that still fits. */
  function Made(call: Event, fits: bool): Trace
    requires call.Dispatch? && |call.tried| > 0
  {
    [call] + if fits then [Observed(Latest(call.tried).Ok?)] else []
  }

  /** What the answer to a call adds to the trace: a refusal is an event only when it fits. */
  function Entries(e: Event, fits: bool): Trace
    requires e.Dispatch? ==> |e.tried| > 0
  {
    if e.Dispatch? then Made(e, fits) else if fits then [e] else []
  }

  /** The approved call is refused by its quota, and the refusal still fits: the one return that leaves a
      goal running. */
  predicate Strands(d: Doc, turns: seq<Turn>, catalog: Catalog, at: int) {
    var spec := Get(catalog, d.pendingTool);
    && spec.Some? && !Allows(d, spec.value, at)
    && Fits(turns + [Refusal(spec.value.name, QuotaText(d, spec.value, at))])
  }

  /** Nothing stands in the way of the approved call: its tool has left the catalog, or its quota has room. */
  predicate IsCleared(d: Doc, catalog: Catalog, at: int) {
    var spec := Get(catalog, d.pendingTool);
    spec.None? || Allows(d, spec.value, at)
  }

  // ---------------------------------------------------------------------------
  // Steps of a lawful life.
  // ---------------------------------------------------------------------------

  /** One more event, for the trace, the document and the logs. */
  lemma Extend(maxSteps: nat, t: Trace, e: Event)
    requires Lawful(maxSteps, t) && Follows(maxSteps, t, e)
    ensures Lawful(maxSteps, t + [e])
    ensures Replay(t + [e]) == Apply(Replay(t), e)
    ensures RequestsOf(t + [e]) == RequestsOf(t) + RequestsIn(e)
    ensures QuestionsOf(t + [e]) == QuestionsOf(t) + QuestionsIn(e)
  {
    hide Lawful, Follows, Replay, Apply, RequestsOf, RequestsIn, QuestionsOf, QuestionsIn;
    LawfulAppend(maxSteps, t, e);
    ReplayAppend(t, e);
    LogsAppend(t, e);
  }

  lemma UsesFromAppend(catalog: Catalog, t: Trace, n: nat, e: Event)
    requires UsesFrom(catalog, t, n) && FromCatalog(catalog, e)
    ensures UsesFrom(catalog, t + [e], n)
  {
    hide FromCatalog;
  }

  lemma UsesFromNothing(catalog: Catalog, t: Trace)
    ensures UsesFrom(catalog, t, |t|)
  {
  }

  lemma UsesFromMore(catalog: Catalog, before: Trace, after: Trace, n: nat)
    requires n <= |before| && before <= after
    requires UsesFrom(catalog, before, n) && UsesFrom(catalog, after, |before|)
    ensures UsesFrom(catalog, after, n)
  {
    assert after[..|before|] == before;
    UsesFromJoin(catalog, after, n, |before|);
  }

  /** What the answer to a call adds: all of it is from the catalog that `e` is from, and the engine can go
      on, with one step more, or give up. */
  lemma EntriesAreFrom(catalog: Catalog, t: Trace, e: Event, fits: bool)
    requires |t| > 0 && (t[|t| - 1].Said? || t[|t| - 1].Approve?) && FromCatalog(catalog, e)
    requires e.Unknown? || e.Halt? || e.OverQuota? || (e.Dispatch? && |e.tried| > 0)
    ensures var after := t + Entries(e, fits);
            && UsesFrom(catalog, after, |t|)
            && (fits && !e.Halt? && (t[|t| - 1].Said? || e.Dispatch?) ==>
                  Ready(after) && |StepsOf(after)| == |StepsOf(t)| + 1)
            && (!fits ==> MayFail(after))
  {
    hide StepsOf;
    StepsAfter(t, e);
    if e.Dispatch? && fits {
      var observed := Observed(Latest(e.tried).Ok?);
      StepsAfter(t + [e], observed);
      assert t + Entries(e, fits) == t + [e] + [observed];
    } else if !e.Dispatch? && !fits {
      assert t + Entries(e, fits) == t;
    }
  }

  lemma EntriesExtend(t: Trace, e: Event, fits: bool)
    requires e.Dispatch? ==> |e.tried| > 0
    ensures t <= t + Entries(e, fits)
    ensures !e.Dispatch? ==> Entries(e, fits) == if fits then [e] else []
    ensures e.Dispatch? ==> Entries(e, fits) == Made(e, fits)
  {
  }

  lemma LastSettles(t: Trace)
    requires |t| > 0
    requires var e := t[|t| - 1]; e.Limit? || e.Finish? || e.ModelFailed? || e.Failed? || e.Halt? || e.Decline?
    ensures Settled(t)
  {
  }

  lemma HaltSettles(t: Trace, e: Event, fits: bool)
    requires e.Halt? && fits
    ensures Settled(t + Entries(e, fits))
  {
    LastSettles(t + Entries(e, fits));
  }

  /** A run that starts where another has stopped. */
  lemma UsesFromJoin(catalog: Catalog, t: Trace, k: nat, n: nat)
    requires k <= n <= |t| && UsesFrom(catalog, t[..n], k) && UsesFrom(catalog, t, n)
    ensures UsesFrom(catalog, t, k)
  {
    hide FromCatalog;
    forall i | k <= i < |t|
      ensures FromCatalog(catalog, t[i])
    {
      if i < n {
        assert t[..n][i] == t[i];
      }
    }
  }

  /** A longer history has at least the requests of a shorter one. */
  lemma {:induction false} RequestsGrow(t: Trace, n: nat)
    requires n <= |t|
    ensures RequestsOf(t[..n]) <= RequestsOf(t)
  {
    hide RequestsIn;
    if n == |t| {
      assert t[..n] == t;
    } else {
      RequestsGrow(t[..|t| - 1], n);
      assert t[..|t| - 1][..n] == t[..n];
    }
  }

  /** What an approved call adds to the requests. */
  lemma RequestsAfter(t: Trace, e: Event, fits: bool)
    requires e.OverQuota? || (e.Dispatch? && |e.tried| > 0)
    ensures RequestsOf(t + [Approve] + Entries(e, fits)) == RequestsOf(t) + RequestsIn(e)
    ensures e.Dispatch? ==> [Request(e.tool, e.params, e.tried[0])] <= RequestsIn(e)
  {
    hide RequestsOf, QuestionsOf, QuestionsIn;
    var approved := t + [Approve];
    LogsAppend(t, Approve);
    LogsAppend(approved, e);
    assert RequestsOf(t) + [] == RequestsOf(t) && RequestsOf(t) + RequestsIn(e) + [] == RequestsOf(t) + RequestsIn(e);
    if e.Dispatch? && fits {
      var observed := Observed(Latest(e.tried).Ok?);
      LogsAppend(approved + [e], observed);
      assert approved + Entries(e, fits) == approved + [e] + [observed];
    } else if e.Dispatch? || fits {
      assert approved + Entries(e, fits) == approved + [e];
    } else {
      assert approved + Entries(e, fits) == approved;
    }
  }

  lemma StepsAfter(t: Trace, e: Event)
    ensures |StepsOf(t + [e])| == |StepsOf(t)| + if StepKind(e).Some? then 1 else 0
  {
    hide StepKind;
    assert (t + [e])[..|t|] == t;
  }

  lemma StepsAreNumbered(t: Trace)
    ensures forall i | 0 <= i < |Replay(t).steps| :: Replay(t).steps[i].n == i + 1
  {
    ReplaySteps(t);
  }

  /** Before the goal is finished every step counts. */
  lemma ReadyCounts(maxSteps: nat, t: Trace)
    requires Lawful(maxSteps, t) && Ready(t)
    ensures NonFinal(StepsOf(t)) == |StepsOf(t)|
  {
    NoFinalStep(maxSteps, t);
    AllCount(StepsOf(t));
  }

  lemma CountedDocument(before: Doc, after: Doc, spec: ToolSpec, params: Params, now: int)
    requires var name := spec.name;
             after == before.(toolCounts := before.toolCounts[name := Used(before, name) + 1],
                              toolLastMs := before.toolLastMs[name := now])
    ensures after == Apply(before, Event.Dispatch(spec.name, params, Some(spec), now, []))
  {
  }

  lemma DeclinedDocument(before: Doc, after: Doc)
    requires after == before.(status := Declined, finalAnswer := DeclinedAnswer(before.pendingTool),
                              steps := before.steps + [StepRec(|before.steps| + 1, "declined")],
                              pendingTool := "", pendingParams := "null")
    ensures after == Apply(before, Decline)
  {
  }

  /** An event that records a dispatch changes the document in the same way for any outcome. */
  lemma OutcomesDoNotMatter(d: Doc, call: Event, tried: seq<Result<string>>)
    requires call.Dispatch?
    ensures Apply(d, call.(tried := tried)) == Apply(d, call)
  {
  }

  lemma DispatchFollows(maxSteps: nat, t: Trace, call: Event)
    requires call.Dispatch? && WellTried(call.tool, call.tried) && IsNow(t, call.tool, call.at)
    requires MayDispatch(t, call.spec, call.tool, call.params)
    requires call.spec.Some? ==> WithinQuota(t, call.spec.value, call.at)
    ensures Follows(maxSteps, t, call)
  {
    hide WellTried, IsNow, MayDispatch, WithinQuota;
  }

  /** More time keeps a quota open. */
  lemma WithinLater(t: Trace, spec: ToolSpec, at: int, later: int)
    requires WithinQuota(t, spec, at) && at <= later
    ensures WithinQuota(t, spec, later)
  {
    hide CountOf, LastAt;
  }

  lemma RefusalFollows(maxSteps: nat, t: Trace, spec: ToolSpec, params: Params, at: int)
    requires MayDispatch(t, Some(spec), spec.name, params) && !WithinQuota(t, spec, at) && IsNow(t, spec.name, at)
    ensures Follows(maxSteps, t, OverQuota(spec.name, params, spec, at))
  {
    hide WithinQuota, IsNow, MayDispatch;
  }

  lemma RefusalCutsOff(maxSteps: nat, t: Trace, e: Event)
    requires Follows(maxSteps, t, e) && (e.Unknown? || e.OverQuota?)
    ensures CutsOff(t)
  {
    hide WithinQuota, IsNow;
  }

  lemma UnknownFollows(maxSteps: nat, t: Trace, name: string, params: Params)
    requires JustCalled(t, name, params)
    ensures Follows(maxSteps, t, Unknown(name, params))
  {
  }

  lemma ObservedFollows(maxSteps: nat, t: Trace, call: Event)
    requires call.Dispatch? && |call.tried| > 0 && Last(t) == Some(call)
    ensures Follows(maxSteps, t, Observed(Latest(call.tried).Ok?))
  {
  }

  /** With budget left, the model may be asked. */
  lemma AskFollows(maxSteps: nat, t: Trace, native: bool)
    requires MayAsk(maxSteps, t) && (native ==> !Degraded(t))
    ensures forall text, reply :: Follows(maxSteps, t, Said(native, text, reply))
    ensures forall error :: Follows(maxSteps, t, ModelFailed(error))
  {
    hide MayAsk, Degraded;
  }

  lemma DegradeFollows(maxSteps: nat, t: Trace, why: string, shown: string)
    requires MayAsk(maxSteps, t) && !Degraded(t)
    ensures Follows(maxSteps, t, Event.Degrade(why, shown))
    ensures MayAsk(maxSteps, t + [Event.Degrade(why, shown)]) && Degraded(t + [Event.Degrade(why, shown)])
  {
    StepsAfter(t, Event.Degrade(why, shown));
    hide StepsOf;
    assert (t + [Event.Degrade(why, shown)])[..|t|] == t;
  }

  lemma ApproveFollows(maxSteps: nat, t: Trace)
    requires StatusOf(t).NeedsConfirmation?
    ensures Follows(maxSteps, t, Approve) && Follows(maxSteps, t, Decline)
  {
  }

  lemma FreshIsReady()
    ensures Ready([]) && MayFail([])
  {
  }

  lemma StrandedIsNotSettled(t: Trace)
    requires Stranded(t)
    ensures !Settled(t)
  {
  }

  datatype Obeyed = GoOn | Halted | Stuck(error: string)

  datatype Asked = Replied(reply: Reply) | Ended | Broken(error: string)

  datatype Entry =
    | Fresh(opening: seq<Turn>, history: seq<(string, string)>, recalled: Option<string>)
    | ApprovedResume

  // ---------------------------------------------------------------------------
  // The engine.
  // ---------------------------------------------------------------------------

  /** The stored document of one goal, its history, and the world its process talks to: what the model and
      the kernel will answer, how far the clock moves before each reading, and the logs of what was asked. */
  class Goal {
    const maxSteps: nat
    var status: Status
    var finalAnswer: string
    var error: string
    var steps: seq<StepRec>
    var transcript: seq<Turn>
    var pendingTool: string
    var pendingParams: Params
    var nativeToolsDisabled: bool
    var toolCounts: map<string, nat>
    var toolLastMs: map<string, int>

    var replies: seq<Result<(string, Reply)>>
    var outcomes: seq<Result<string>>
    var ticks: seq<nat>
    var clock: int

    ghost var requests: seq<Request>
    ghost var questions: seq<Question>
    ghost var trace: Trace
    ghost var preface: seq<Turn>
    ghost var unsaid: seq<Turn>

    function Document(): Doc
      reads this
    {
      Doc(status, finalAnswer, error, steps, pendingTool, pendingParams, nativeToolsDisabled, toolCounts, toolLastMs)
    }

    /** The document, the logs and the transcript say what the trace says. */
    ghost predicate Valid()
      reads this
    {
      && Lawful(maxSteps, trace) && Document() == Replay(trace) && ArePast(toolLastMs, clock)
      && requests == RequestsOf(trace) && questions == QuestionsOf(trace)
      && IsRecord(preface, transcript, trace, unsaid)
    }

    /** Nothing was left unsaid before the goal goes on or waits. */
    lemma NothingUnsaid()
      requires Valid() && !CutsOff(trace)
      ensures unsaid == []
    {
      hide Lawful, Replay, RequestsOf, QuestionsOf, CutsOff;
    }

    constructor (maxSteps: nat, replies: seq<Result<(string, Reply)>>, outcomes: seq<Result<string>>,
                 ticks: seq<nat>)
      ensures Valid() && trace == [] && requests == [] && transcript == [] && this.maxSteps == maxSteps
      ensures this.replies == replies && this.outcomes == outcomes && this.ticks == ticks
    {
      this.maxSteps := maxSteps;
      status, finalAnswer, error, steps := Running, "", "", [];
      transcript, pendingTool, pendingParams, nativeToolsDisabled := [], "", "null", false;
      toolCounts, toolLastMs, clock := map[], map[], 0;
      this.replies, this.outcomes, this.ticks := replies, outcomes, ticks;
      requests, questions, trace := [], [], [];
      preface, unsaid := [], [];
    }

    /** Another task loads the stored document of `stored`. */
    constructor Load(stored: Goal)
      requires stored.Valid()
      ensures Valid() && trace == stored.trace && maxSteps == stored.maxSteps
      ensures Document() == stored.Document() && transcript == stored.transcript
      ensures replies == stored.replies && outcomes == stored.outcomes
      ensures ticks == stored.ticks && clock == stored.clock && requests == stored.requests
    {
      maxSteps := stored.maxSteps;
      status, finalAnswer, error, steps := stored.status, stored.finalAnswer, stored.error, stored.steps;
      transcript, pendingTool, pendingParams := stored.transcript, stored.pendingTool, stored.pendingParams;
      nativeToolsDisabled, toolCounts, toolLastMs := stored.nativeToolsDisabled, stored.toolCounts, stored.toolLastMs;
      replies, outcomes, ticks, clock := stored.replies, stored.outcomes, stored.ticks, stored.clock;
      requests, questions, trace := stored.requests, stored.questions, stored.trace;
      preface, unsaid := stored.preface, stored.unsaid;
    }

    method NowMs() returns (now: int)
      modifies this`clock, this`ticks
      ensures old(clock) <= clock && now == clock == Reading(old(clock), old(ticks))
    {
      clock := Reading(clock, ticks);
      ticks := Rest(ticks);
      now := clock;
    }

    method PushTurn(role: Role, content: string) returns (pushed: Result<()>)
      modifies this`transcript
      ensures transcript == old(transcript) + [Turn(role, content)]
      ensures pushed.Ok? <==> TotalChars(transcript) <= 262_144
      ensures pushed.Ok? <==> Fits(transcript)
    {
      transcript := transcript + [Turn(role, content)];
      if TotalChars(transcript) > TRANSCRIPT_MAX_CHARS {
        return Err("transcript budget exceeded");
      }
      return Ok(());
    }

    /** Append to the step log, numbered after the highest number in it. */
    method NextStep(kind: string)
      requires forall i | 0 <= i < |steps| :: steps[i].n == i + 1
      modifies this`steps
      ensures steps == old(steps) + [StepRec(|old(steps)| + 1, kind)]
    {
      MaxIsLength(steps);
      steps := steps + [StepRec(MaxNumber(steps) + 1, kind)];
    }

    /** Whether the goal's history leaves room for one more call, and if not, why. */
    method CheckQuota(spec: ToolSpec) returns (allowed: Result<()>)
      requires Valid()
      modifies this`clock, this`ticks
      ensures Valid() && old(clock) <= clock
      ensures allowed.Ok? <==> Allows(Document(), spec, Reading(old(clock), old(ticks)))
      ensures allowed.Err? ==> allowed.error == QuotaText(Document(), spec, Reading(old(clock), old(ticks)))
      ensures allowed.Err? ==> !Allows(Document(), spec, clock) && allowed.error == QuotaText(Document(), spec, clock)
      ensures allowed.Ok? <==> WithinQuota(trace, spec, clock)
    {
      hide Lawful, Replay, WithinQuota, UsedUpText, CoolingText, RequestsOf, QuestionsOf, IsRecord;
      var used := if spec.name in toolCounts then toolCounts[spec.name] else 0;
      if spec.maxPerGoal > 0 && used >= spec.maxPerGoal {
        AllowsIsWithin(trace, spec, clock);
        return Err(UsedUpText(spec, used));
      }
      if spec.cooldownMs > 0 && spec.name in toolLastMs {
        var now := NowMs();
        AllowsIsWithin(trace, spec, clock);
        var elapsed := now - toolLastMs[spec.name];
        if elapsed < spec.cooldownMs {
          return Err(CoolingText(spec, spec.cooldownMs - elapsed));
        }
      }
      AllowsIsWithin(trace, spec, clock);
      return Ok(());
    }

    // The kernel.

    /** The document already says that the call is dispatched; the trace does not yet. */
    ghost predicate IsDispatched(spec: Option<ToolSpec>, name: string, params: Params)
      reads this
    {
      && Lawful(maxSteps, trace) && MayDispatch(trace, spec, name, params) && IsNow(trace, name, clock)
      && (spec.Some? ==> WithinQuota(trace, spec.value, clock))
      && Document() == Apply(Replay(trace), Event.Dispatch(name, params, spec, clock, []))
      && ArePast(toolLastMs, clock) && questions == QuestionsOf(trace)
      && unsaid == [] && IsRecord(preface, transcript, trace, [])
    }

    /** The kernel may be asked for a dispatched call, after the outcomes `tried`. */
    ghost predicate MayRequest(spec: Option<ToolSpec>, name: string, params: Params, tried: seq<Result<string>>)
      reads this
    {
      && IsDispatched(spec, name, params) && requests == RequestsOf(trace) + Requests(name, params, tried)
      && (tried == [] || (|tried| == 1 && ShouldRetry(name, tried[0])))
    }

    /** One request to the kernel: the only way to reach it. */
    method CallTool(ghost spec: Option<ToolSpec>, name: string, params: Params, timeoutMs: nat,
                    ghost tried: seq<Result<string>>)
      returns (outcome: Result<string>)
      requires MayRequest(spec, name, params, tried)
      modifies this`outcomes, this`requests
      ensures outcome == Next(old(outcomes)) && outcomes == Rest(old(outcomes))
      ensures requests == RequestsOf(trace) + Requests(name, params, tried + [outcome])
      ensures IsDispatched(spec, name, params)
    {
      hide Lawful, MayDispatch, IsNow, WithinQuota, Apply, RequestsOf, QuestionsOf, ShouldRetry, IsRecord;
      outcome := Next(outcomes);
      outcomes := Rest(outcomes);
      requests := requests + [Request(name, params, outcome)];
      assert Requests(name, params, tried + [outcome]) ==
             Requests(name, params, tried) + [Request(name, params, outcome)];
    }

    /** Ask the kernel, once more for a device that may come back. */
    method CallWithRetry(ghost spec: Option<ToolSpec>, name: string, params: Params, timeoutMs: nat)
      returns (outcome: Result<string>, ghost tried: seq<Result<string>>)
      requires MayRequest(spec, name, params, [])
      modifies this`outcomes, this`requests
      ensures |tried| > 0 && tried == Tries(name, old(outcomes)) && outcome == Latest(tried)
      ensures requests == RequestsOf(trace) + Requests(name, params, tried)
      ensures IsDispatched(spec, name, params)
    {
      hide IsDispatched, IsDeviceTarget, IsRetryable, WellTried, RequestsOf, Requests, IsRecord;
      outcome := CallTool(spec, name, params, timeoutMs, []);
      tried := [outcome];
      assert [] + [outcome] == tried;
      if outcome.Err? && IsDeviceTarget(name) && IsRetryable(outcome.error) {
        outcome := CallTool(spec, name, params, timeoutMs, tried);
        tried := tried + [outcome];
      }
    }

    /** Count an allowed call of a tool that the catalog knows. */
    method CountCall(spec: ToolSpec, ghost params: Params)
      requires Valid() && unsaid == []
      requires MayDispatch(trace, Some(spec), spec.name, params) && WithinQuota(trace, spec, clock)
      modifies this`toolCounts, this`toolLastMs, this`clock, this`ticks
      ensures MayRequest(Some(spec), spec.name, params, [])
    {
      hide Lawful, WithinQuota, Replay, Apply, MayDispatch, IsNow, RequestsOf, QuestionsOf, IsRecord, ArePast;
      var name := spec.name;
      ghost var checked, before := clock, Document();
      assert before == Replay(trace);
      toolCounts := toolCounts[name := (if name in toolCounts then toolCounts[name] else 0) + 1];
      var now := NowMs();
      PastLater(toolLastMs, name, checked, now);
      PastIsPast(trace, name, now);
      WithinLater(trace, spec, checked, now);
      toolLastMs := toolLastMs[name := now];
      CountedDocument(before, Document(), spec, params, now);
      assert Requests(name, params, []) == [];
    }

    /** A call of a tool that the catalog does not know is not counted. */
    lemma UncountedCall(name: string, params: Params)
      requires Valid() && unsaid == [] && MayDispatch(trace, None, name, params)
      ensures MayRequest(None, name, params, [])
    {
      hide Lawful, Replay, MayDispatch, IsNow, RequestsOf, QuestionsOf, IsRecord;
      PastIsPast(trace, name, clock);
      assert Requests(name, params, []) == [];
    }

    ghost method Record(e: Event)
      requires Lawful(maxSteps, trace) && Follows(maxSteps, trace, e)
      requires Document() == Apply(Replay(trace), e) && ArePast(toolLastMs, clock)
      requires requests == RequestsOf(trace) + RequestsIn(e) && questions == QuestionsOf(trace) + QuestionsIn(e)
      requires IsRecord(preface, transcript, trace + [e], unsaid)
      modifies this`trace
      ensures Valid() && trace == old(trace) + [e]
    {
      hide Lawful, Follows, Replay, Apply, RequestsOf, RequestsIn, QuestionsOf, QuestionsIn, IsRecord;
      Extend(maxSteps, trace, e);
      trace := trace + [e];
    }

    /** The same for an event that adds nothing to the transcript. */
    ghost method RecordSilently(e: Event)
      requires Lawful(maxSteps, trace) && Follows(maxSteps, trace, e) && IsQuiet(e)
      requires Document() == Apply(Replay(trace), e) && ArePast(toolLastMs, clock)
      requires requests == RequestsOf(trace) + RequestsIn(e) && questions == QuestionsOf(trace) + QuestionsIn(e)
      requires IsRecord(preface, transcript, trace, unsaid) && (unsaid == [] || e.Failed?)
      modifies this`trace
      ensures Valid() && trace == old(trace) + [e]
    {
      hide Lawful, Follows, Replay, Apply, RequestsOf, RequestsIn, QuestionsOf, QuestionsIn, IsRecord, IsQuiet;
      RecordQuiet(preface, transcript, trace, e, unsaid);
      Record(e);
    }

    /** Make a call and tell the model its outcome. */
    method DispatchAndObserve(ghost spec: Option<ToolSpec>, name: string, params: Params, timeoutMs: nat)
      returns (observed: Result<bool>, ghost call: Event)
      requires MayRequest(spec, name, params, [])
      modifies this`transcript, this`steps, this`outcomes, this`requests, this`trace
      ensures Valid()
      ensures call == Event.Dispatch(name, params, spec, clock, Tries(name, old(outcomes)))
      ensures trace == old(trace) + Made(call, observed.Ok?)
      ensures transcript == old(transcript) + [Turn(User, Observation(name, Latest(call.tried)))]
      ensures observed.Ok? <==> Fits(transcript)
      ensures observed.Ok? ==> observed.value == Latest(call.tried).Ok?
    {
      hide Fits, Lawful, Follows, Replay, ToolResult, TruncateChars, Tries, WellTried, StepsOf, MayDispatch, IsNow,
        WithinQuota, RequestsOf, QuestionsOf, Requests, Apply, IsRecord;
      var outcome, tried := CallWithRetry(spec, name, params, timeoutMs);
      var pushed := PushTurn(User, Observation(name, outcome));
      call := Event.Dispatch(name, params, spec, clock, tried);
      RecordWith(preface, old(transcript), trace, call);
      OutcomesDoNotMatter(Replay(trace), call, []);
      DispatchFollows(maxSteps, trace, call);
      Record(call);
      if pushed.Err? {
        return Err(pushed.error), call;
      }
      Observe(call, outcome.Ok?);
      return Ok(outcome.Ok?), call;
    }

    method Observe(ghost call: Event, ok: bool)
      requires Valid() && call.Dispatch? && |call.tried| > 0 && Last(trace) == Some(call)
      requires ok == Latest(call.tried).Ok? && unsaid == []
      modifies this`steps, this`trace
      ensures Valid() && trace == old(trace) + [Observed(ok)]
    {
      hide Lawful, Replay, RequestsOf, QuestionsOf, IsRecord;
      ObservedFollows(maxSteps, trace, call);
      hide Follows, IsRecord;
      StepsAreNumbered(trace);
      NextStep(if ok then "tool_ok" else "tool_error");
      RecordSilently(Observed(ok));
    }

    // The model.

    /** One question to the model, with or without native tools: the only way to reach it. */
    method Chat(native: bool) returns (outcome: Result<(string, Reply)>)
      requires Valid() && unsaid == [] && MayAsk(maxSteps, trace) && (native ==> !Degraded(trace))
      modifies this`replies, this`questions
      ensures outcome == Next(old(replies)) && replies == Rest(old(replies))
      ensures questions == old(questions) + [Question(native, outcome)]
      ensures HasHeard(native, outcome)
    {
      hide Lawful, Replay, RequestsOf, QuestionsOf, MayAsk, Degraded, IsRecord;
      outcome := Next(replies);
      replies := Rest(replies);
      questions := questions + [Heard(native, outcome)];
    }

    /** The log of questions is one ahead of the trace. */
    ghost predicate HasHeard(native: bool, outcome: Result<(string, Reply)>)
      reads this
    {
      && Lawful(maxSteps, trace) && Document() == Replay(trace) && ArePast(toolLastMs, clock)
      && requests == RequestsOf(trace) && questions == QuestionsOf(trace) + [Heard(native, outcome)]
      && MayAsk(maxSteps, trace) && (native ==> !Degraded(trace))
      && unsaid == [] && IsRecord(preface, transcript, trace, [])
    }

    /** The provider rejected the native tools: stay with the text protocol, and show its catalog once. */
    method Degrade(why: string, block: string) returns (pushed: Result<()>)
      requires HasHeard(true, Err(why))
      modifies this`nativeToolsDisabled, this`transcript, this`trace
      ensures Valid() && trace == old(trace) + [Event.Degrade(why, block)]
      ensures MayAsk(maxSteps, trace) && Degraded(trace) && nativeToolsDisabled
      ensures transcript == old(transcript) + [Turn(User, block)]
      ensures pushed.Ok? <==> Fits(transcript)
    {
      hide Lawful, Replay, Fits, RequestsOf, QuestionsOf, StepsOf, Follows, MayAsk, Degraded, IsRecord;
      DegradeFollows(maxSteps, trace, why, block);
      nativeToolsDisabled := true;
      pushed := PushTurn(User, block);
      RecordWith(preface, old(transcript), trace, Event.Degrade(why, block));
      Record(Event.Degrade(why, block));
    }

    /** Take an answer of the model: its reply goes into the transcript; without one the goal ends. */
    method TakeAnswer(native: bool, outcome: Result<(string, Reply)>) returns (asked: Asked)
      requires HasHeard(native, outcome) && (outcome.Err? ==> !native)
      modifies this`status, this`error, this`steps, this`transcript, this`trace
      ensures Valid() && trace == old(trace) + [Answer(native, outcome)]
      ensures transcript == old(transcript) + AnswerTurns(outcome)
      ensures outcome.Err? <==> asked.Ended?
      ensures asked.Replied? ==> asked.reply == outcome.value.1 && Fits(transcript) && steps == old(steps)
      ensures asked.Broken? ==> !Fits(transcript)
    {
      hide Lawful, Replay, Fits, RequestsOf, QuestionsOf, MayAsk, IsRecord;
      AskFollows(maxSteps, trace, native);
      hide Follows, IsRecord;
      if outcome.Err? {
        status, error := Error, outcome.error;
        StepsAreNumbered(trace);
        NextStep("error");
        RecordSilently(ModelFailed(outcome.error));
        return Ended;
      }
      var pushed := PushTurn(Assistant, outcome.value.0);
      RecordWith(preface, old(transcript), trace, Answer(native, outcome));
      Record(Answer(native, outcome));
      return if pushed.Ok? then Replied(outcome.value.1) else Broken(pushed.error);
    }

    /** The retry without native tools. */
    method AskAgain(ghost catalog: Catalog, why: string, block: string) returns (asked: Asked)
      requires HasHeard(true, Err(why))
      modifies this`status, this`error, this`steps, this`transcript, this`nativeToolsDisabled, this`replies,
               this`questions, this`trace
      ensures Valid() && old(trace) <= trace && UsesFrom(catalog, trace, |old(trace)|)
      ensures var (shown, second) := (old(transcript) + [Turn(User, block)], Next(old(replies)));
              && trace == old(trace) + [Event.Degrade(why, block)] +
                          (if Fits(shown) then [Answer(false, second)] else [])
              && transcript == shown + (if Fits(shown) then AnswerTurns(second) else [])
              && replies == (if Fits(shown) then Rest(old(replies)) else old(replies))
              && questions == old(questions) + (if Fits(shown) then [Question(false, second)] else [])
              && nativeToolsDisabled
      ensures asked.Replied? <==> Last(trace).value.Said? && Fits(transcript)
      ensures asked.Replied? ==> Last(trace).value.reply == asked.reply && steps == old(steps)
      ensures asked.Ended? <==> Last(trace).value.ModelFailed?
      ensures asked.Broken? ==> !Fits(transcript) && MayFail(trace)
    {
      hide Lawful, Follows, Replay, Fits, StepsOf, RequestsOf, QuestionsOf, Degraded, MayAsk, IsRecord;
      UsesFromNothing(catalog, trace);
      ghost var n := |trace|;
      UsesFromAppend(catalog, trace, n, Event.Degrade(why, block));
      var pushed := Degrade(why, block);
      if pushed.Err? {
        return Broken(pushed.error);
      }
      var outcome := Chat(false);
      UsesFromAppend(catalog, trace, n, Answer(false, outcome));
      asked := TakeAnswer(false, outcome);
    }

    /** Ask the model, once more without native tools when it rejects them. */
    method Ask(ghost catalog: Catalog, native: bool, block: string) returns (asked: Asked)
      requires Valid() && unsaid == []
      requires Ready(trace) && |steps| < maxSteps && (native ==> !nativeToolsDisabled)
      modifies this`status, this`error, this`steps, this`transcript, this`nativeToolsDisabled, this`replies,
               this`questions, this`trace
      ensures Valid() && old(trace) <= trace && UsesFrom(catalog, trace, |old(trace)|)
      ensures var first := Next(old(replies));
              !native || first.Ok? ==>
                && trace == old(trace) + [Answer(native, first)] && transcript == old(transcript) + AnswerTurns(first)
                && replies == Rest(old(replies))
      ensures var (first, second) := (Next(old(replies)), Next(Rest(old(replies))));
              var shown := old(transcript) + [Turn(User, block)];
              native && first.Err? ==>
                && trace == old(trace) + [Event.Degrade(first.error, block)] +
                            (if Fits(shown) then [Answer(false, second)] else [])
                && transcript == shown + if Fits(shown) then AnswerTurns(second) else []
      ensures var (first, second) := (Next(old(replies)), Next(Rest(old(replies))));
              questions == old(questions) + [Question(native, first)] +
                           (if native && first.Err? && Fits(old(transcript) + [Turn(User, block)])
                            then [Question(false, second)] else [])
      ensures nativeToolsDisabled <==> old(nativeToolsDisabled) || (native && Next(old(replies)).Err?)
      ensures asked.Replied? <==> Last(trace).value.Said? && Fits(transcript)
      ensures asked.Replied? ==> Last(trace).value.reply == asked.reply && steps == old(steps)
      ensures asked.Ended? <==> Last(trace).value.ModelFailed?
      ensures asked.Broken? ==> !Fits(transcript) && MayFail(trace)
    {
      hide Lawful, Follows, Replay, Fits, StepsOf, Ready, RequestsOf, QuestionsOf, Degraded, IsRecord;
      ReplaySteps(trace);
      var outcome := Chat(native);
      if outcome.Err? && native {
        asked := AskAgain(catalog, outcome.error, block);
      } else {
        UsesFromNothing(catalog, trace);
        UsesFromAppend(catalog, trace, |trace|, Answer(native, outcome));
        asked := TakeAnswer(native, outcome);
      }
    }

    // Calls.

    /** Tell the model why its call is not made. */
    method Refuse(e: Event, name: string, why: string) returns (pushed: Result<()>)
      requires Valid() && unsaid == []
      requires Follows(maxSteps, trace, e) && (e.Unknown? || e.OverQuota?)
      requires TurnsIn(Replay(trace), e) == [Refusal(name, why)]
      modifies this`transcript, this`unsaid, this`steps, this`trace
      ensures Valid() && (pushed.Ok? ==> unsaid == [])
      ensures transcript == old(transcript) + [Refusal(name, why)]
      ensures trace == old(trace) + if pushed.Ok? then [e] else []
      ensures pushed.Ok? <==> Fits(transcript)
    {
      hide Lawful, Follows, Replay, Fits, ToolResult, RequestsOf, QuestionsOf, StepsOf, IsRecord, TurnsIn, CutsOff;
      RefusalCutsOff(maxSteps, trace, e);
      pushed := PushTurn(User, ToolResult(name, Err(why)));
      if pushed.Ok? {
        RecordWith(preface, old(transcript), trace, e);
        StepsAreNumbered(trace);
        NextStep(if e.Unknown? then "unknown_tool" else "tool_error");
        Record(e);
      } else {
        unsaid := [Refusal(name, why)];
        RecordUnsaid(preface, old(transcript), trace, Refusal(name, why));
        assert trace + [] == trace;
      }
    }

    /** The tool needs the operator: stop here. */
    method HaltFor(spec: ToolSpec, params: Params)
      requires Valid() && unsaid == [] && JustCalled(trace, spec.name, params) && spec.requiresConfirmation
      modifies this`status, this`pendingTool, this`pendingParams, this`steps, this`trace
      ensures Valid() && trace == old(trace) + [Halt(spec.name, params, spec)]
      ensures status.NeedsConfirmation? && pendingTool == spec.name && pendingParams == params
    {
      hide Lawful, Replay, RequestsOf, QuestionsOf, IsRecord;
      assert Follows(maxSteps, trace, Halt(spec.name, params, spec));
      hide Follows, IsRecord;
      status := NeedsConfirmation;
      pendingTool, pendingParams := spec.name, params;
      StepsAreNumbered(trace);
      NextStep("halt_confirm");
      RecordSilently(Halt(spec.name, params, spec));
    }

    /** Make a call exactly when its quota allows it (`Some`); otherwise tell the model why not (`None`). */
    method CallWithinQuota(spec: ToolSpec, params: Params) returns (called: Result<Option<bool>>, ghost e: Event)
      requires Valid() && unsaid == [] && MayDispatch(trace, Some(spec), spec.name, params)
      modifies this`transcript, this`unsaid, this`steps, this`toolCounts, this`toolLastMs, this`clock, this`ticks,
               this`outcomes, this`requests, this`trace
      ensures Valid()
      ensures called.Ok? <==> Fits(transcript)
      ensures var at := Reading(old(clock), old(ticks));
              Allows(old(Document()), spec, at) ==>
                && e == Event.Dispatch(spec.name, params, Some(spec), clock, Tries(spec.name, old(outcomes)))
                && trace == old(trace) + Made(e, called.Ok?)
                && transcript == old(transcript) + [Turn(User, Observation(spec.name, Latest(e.tried)))]
                && (called.Ok? ==> called.value == Some(Latest(e.tried).Ok?))
      ensures var at := Reading(old(clock), old(ticks));
              !Allows(old(Document()), spec, at) ==>
                && e == OverQuota(spec.name, params, spec, clock)
                && trace == old(trace) + (if called.Ok? then [e] else [])
                && transcript == old(transcript) + [Refusal(spec.name, QuotaText(old(Document()), spec, at))]
                && (called.Ok? ==> called.value.None?)
                && outcomes == old(outcomes) && requests == old(requests)
      ensures Answered(old(transcript), transcript, old(Document()), e)
    {
      hide Lawful, Follows, Replay, Fits, WithinQuota, MayDispatch, MayRequest, Allows, QuotaText, RequestsOf,
        QuestionsOf, Tries, WellTried, StepsOf, IsNow, Observation, Refusal, IsRecord, Says;
      ghost var document := Document();
      var allowed := CheckQuota(spec);
      if allowed.Err? {
        e := OverQuota(spec.name, params, spec, clock);
        PastIsPast(trace, spec.name, clock);
        RefusalFollows(maxSteps, trace, spec, params, clock);
        AnswerSays(document, e);
        var pushed := Refuse(OverQuota(spec.name, params, spec, clock), spec.name, allowed.error);
        return if pushed.Ok? then Ok(None) else Err(pushed.error), e;
      }
      CountCall(spec, params);
      var observed: Result<bool>;
      observed, e := DispatchAndObserve(Some(spec), spec.name, params, spec.timeoutMs);
      AnswerSays(document, e);
      return if observed.Ok? then Ok(Some(observed.value)) else Err(observed.error), e;
    }

    /** Do what the model asked: a tool outside the catalog is refused as unknown, a marked one halts the
        goal, and any other is called exactly when its quota allows it, and else refused by its quota. */
    method Obey(catalog: Catalog, name: string, params: Params) returns (obeyed: Obeyed, ghost e: Event)
      requires Valid() && unsaid == [] && JustCalled(trace, name, params) && Fits(transcript)
      modifies this`status, this`pendingTool, this`pendingParams, this`steps, this`transcript, this`unsaid,
               this`toolCounts, this`toolLastMs, this`clock, this`ticks, this`outcomes, this`requests, this`trace
      ensures Valid() && old(trace) <= trace && UsesFrom(catalog, trace, |old(trace)|)
      ensures Get(catalog, name).None? ==>
                && e == Unknown(name, params)
                && transcript == old(transcript) + [Refusal(name, UnknownText(name))]
      ensures var spec := Get(catalog, name);
              spec.Some? && spec.value.requiresConfirmation ==>
                && e == Halt(name, params, spec.value) && transcript == old(transcript)
                && status.NeedsConfirmation? && pendingTool == name && pendingParams == params
      ensures var (spec, at) := (Get(catalog, name), Reading(old(clock), old(ticks)));
              spec.Some? && !spec.value.requiresConfirmation && Allows(old(Document()), spec.value, at) ==>
                && e == Event.Dispatch(name, params, spec, clock, Tries(name, old(outcomes)))
                && transcript == old(transcript) + [Turn(User, Observation(name, Latest(e.tried)))]
      ensures var (spec, at) := (Get(catalog, name), Reading(old(clock), old(ticks)));
              spec.Some? && !spec.value.requiresConfirmation && !Allows(old(Document()), spec.value, at) ==>
                && e == OverQuota(name, params, spec.value, clock)
                && transcript == old(transcript) + [Refusal(name, QuotaText(old(Document()), spec.value, at))]
      ensures trace == old(trace) + Entries(e, Fits(transcript))
      ensures !e.Halt? ==> Answered(old(transcript), transcript, old(Document()), e)
      ensures !e.Dispatch? ==> outcomes == old(outcomes) && requests == old(requests)
      ensures obeyed.Halted? <==> e.Halt?
      ensures obeyed.Stuck? <==> !Fits(transcript)
      ensures obeyed.GoOn? ==> Ready(trace) && |StepsOf(trace)| == |StepsOf(old(trace))| + 1
      ensures obeyed.Stuck? ==> MayFail(trace)
    {
      hide Lawful, Follows, Replay, Fits, Get, StepsOf, RequestsOf, QuestionsOf, Allows, QuotaText, Tries,
        WellTried, Observation, Refusal, UnknownText, UsesFrom, IsRecord, Says;
      ghost var before, document := trace, Document();
      var spec := Get(catalog, name);
      if spec.None? {
        e := Unknown(name, params);
        UnknownFollows(maxSteps, trace, name, params);
        var pushed := Refuse(Unknown(name, params), name, UnknownText(name));
        obeyed := if pushed.Ok? then GoOn else Stuck(pushed.error);
        AnswerSays(document, e);
      } else if spec.value.requiresConfirmation {
        e := Halt(name, params, spec.value);
        HaltFor(spec.value, params);
        obeyed := Halted;
      } else {
        var called: Result<Option<bool>>;
        called, e := CallWithinQuota(spec.value, params);
        obeyed := if called.Ok? then GoOn else Stuck(called.error);
      }
      EntriesAreFrom(catalog, before, e, Fits(transcript));
    }

    /** One turn of the loop, with budget left: the goal goes on, one step later, or has settled (`Halted`),
        or the transcript is full. */
    method TakeTurn(catalog: Catalog, native: bool, block: string) returns (turned: Obeyed)
      requires Valid() && Ready(trace) && |steps| < maxSteps
      modifies this
      ensures Valid() && old(trace) <= trace && UsesFrom(catalog, trace, |old(trace)|)
      ensures AskedFrom(native, old(nativeToolsDisabled), old(questions), nativeToolsDisabled, questions)
      ensures preface == old(preface)
      ensures turned.GoOn? ==> Ready(trace) && |StepsOf(trace)| == |StepsOf(old(trace))| + 1
      ensures turned.Halted? ==> Settled(trace)
      ensures turned.Stuck? ==> MayFail(trace) && !Fits(transcript)
    {
      hide Lawful, Follows, Replay, StepsOf, Fits, Get, Allows, QuotaText, Tries, Observation, Refusal,
        RequestsOf, QuestionsOf, UsesFrom, Ready, Settled, Entries, MayFail, IsRecord, Answered, CutsOff, Answer,
        AskedFrom, AnswerTurns, UnknownText, Degraded;
      ghost var n, before := |trace|, trace;
      ReadyIsWhole(trace);
      NothingUnsaid();
      ghost var given, first, asks := nativeToolsDisabled, Next(replies), questions;
      var asked := Ask(catalog, native && !nativeToolsDisabled, block);
      AskedWell(native, given, asks, Question(native && !given, first), questions[|asks| + 1..]);
      assert questions == asks + [questions[|asks|]] + questions[|asks| + 1..];
      if asked.Ended? {
        LastSettles(trace);
        return Halted;
      }
      if asked.Broken? {
        return Stuck(asked.error);
      }
      ReplaySteps(before);
      ReplaySteps(trace);
      before := trace;
      turned := Act(catalog, asked.reply);
      UsesFromMore(catalog, before, trace, n);
    }

    /** Do what the model has just said. */
    method Act(catalog: Catalog, reply: Reply) returns (turned: Obeyed)
      requires Valid() && unsaid == [] && Fits(transcript)
      requires |trace| > 0 && trace[|trace| - 1].Said? && trace[|trace| - 1].reply == reply
      modifies this
      ensures Valid() && old(trace) <= trace && UsesFrom(catalog, trace, |old(trace)|)
      ensures questions == old(questions) && nativeToolsDisabled == old(nativeToolsDisabled)
      ensures preface == old(preface)
      ensures turned.GoOn? ==> Ready(trace) && |StepsOf(trace)| == |StepsOf(old(trace))| + 1
      ensures turned.Halted? ==> Settled(trace)
      ensures turned.Stuck? ==> MayFail(trace) && !Fits(transcript)
    {
      hide Lawful, Follows, Replay, StepsOf, Fits, Get, Allows, QuotaText, Tries, Observation, Refusal, RequestsOf,
        QuestionsOf, UsesFrom, Ready, Settled, Entries, MayFail, IsRecord, Answered, UnknownText;
      ghost var before := trace;
      if reply.Final? {
        Complete(reply.answer);
        UsesFromNothing(catalog, before);
        UsesFromAppend(catalog, before, |before|, Finish(reply.answer));
        LastSettles(trace);
        return Halted;
      }
      ghost var e;
      turned, e := Obey(catalog, reply.tool, reply.params);
      if turned.Halted? {
        HaltSettles(before, e, Fits(transcript));
      }
    }

    /** The loop: ends after at most as many turns as the step budget has left. */
    method Drive(catalog: Catalog, native: bool, block: string) returns (done: Result<()>)
      requires Valid() && Ready(trace)
      modifies this
      ensures Valid() && old(trace) <= trace && UsesFrom(catalog, trace, |old(trace)|)
      ensures AskedFrom(native, old(nativeToolsDisabled), old(questions), nativeToolsDisabled, questions)
      ensures preface == old(preface)
      ensures done.Ok? ==> Settled(trace)
      ensures done.Err? ==> MayFail(trace) && !Fits(transcript)
    {
      hide Lawful, Follows, Replay, StepsOf, Fits, Get, RequestsOf, QuestionsOf, UsesFrom, Ready, Settled, MayFail,
        IsRecord, AskedFrom;
      UsesFromNothing(catalog, trace);
      NobodyAsked(native, nativeToolsDisabled, questions);
      ghost var n, given, asks := |trace|, nativeToolsDisabled, questions;
      while true
        invariant Valid() && Ready(trace) && n <= |trace| && old(trace) <= trace && UsesFrom(catalog, trace, n)
        invariant preface == old(preface)
        invariant AskedFrom(native, given, asks, nativeToolsDisabled, questions)
        decreases maxSteps - |StepsOf(trace)|
      {
        ReplaySteps(trace);
        ReadyCounts(maxSteps, trace);
        ghost var before := trace;
        if NonFinal(steps) >= maxSteps {
          StopAtLimit();
          UsesFromAppend(catalog, before, n, Limit);
          LastSettles(trace);
          return Ok(());
        }
        ghost var between, middle := nativeToolsDisabled, questions;
        var turned := TakeTurn(catalog, native, block);
        AskedOn(native, given, asks, between, middle, nativeToolsDisabled, questions);
        UsesFromMore(catalog, before, trace, n);
        if turned.Halted? {
          return Ok(());
        }
        if turned.Stuck? {
          return Err(turned.error);
        }
      }
    }

    method StopAtLimit()
      requires Valid() && Ready(trace) && |steps| >= maxSteps
      modifies this`status, this`steps, this`trace
      ensures Valid() && trace == old(trace) + [Limit]
    {
      hide Lawful, Replay, StepsOf, RequestsOf, QuestionsOf, IsRecord;
      ReplaySteps(trace);
      ReadyIsWhole(trace);
      NothingUnsaid();
      assert Follows(maxSteps, trace, Limit);
      hide Follows, IsRecord;
      status := MaxSteps;
      StepsAreNumbered(trace);
      NextStep("max_steps");
      RecordSilently(Limit);
    }

    method Complete(answer: string)
      requires Valid() && unsaid == []
      requires |trace| > 0 && trace[|trace| - 1].Said? && trace[|trace| - 1].reply == Final(answer)
      modifies this`status, this`finalAnswer, this`steps, this`trace
      ensures Valid() && trace == old(trace) + [Finish(answer)]
    {
      hide Lawful, Replay, StepsOf, RequestsOf, QuestionsOf, IsRecord;
      assert Follows(maxSteps, trace, Finish(answer));
      hide Follows, IsRecord;
      status, finalAnswer := Completed, answer;
      StepsAreNumbered(trace);
      NextStep("final");
      RecordSilently(Finish(answer));
    }

    // The operator.

    lemma WaitsForOperator()
      requires Valid() && status.NeedsConfirmation?
      ensures unsaid == [] && Follows(maxSteps, trace, Decline)
      ensures forall i | 0 <= i < |steps| :: steps[i].n == i + 1
    {
      hide Follows, Replay, StepsOf, RequestsOf, QuestionsOf, IsRecord;
      ReplayStatus(maxSteps, trace);
      ReadyIsWhole(trace);
      NothingUnsaid();
      ApproveFollows(maxSteps, trace);
      StepsAreNumbered(trace);
    }

    /** The operator approved the halted call: take it from the document. */
    method TakeApproved() returns (name: string, params: Params)
      requires Valid() && status.NeedsConfirmation?
      modifies this`status, this`pendingTool, this`pendingParams, this`trace
      ensures Valid() && trace == old(trace) + [Approve]
      ensures name == old(pendingTool) && params == old(pendingParams) && JustApproved(trace, name, params)
      ensures unsaid == []
    {
      hide Follows, Replay, RequestsOf, QuestionsOf, IsRecord;
      ReplayStatus(maxSteps, trace);
      ReadyIsWhole(trace);
      NothingUnsaid();
      hide Lawful, IsRecord;
      name, params := pendingTool, pendingParams;
      pendingTool, pendingParams, status := "", "null", Running;
      ApproveFollows(maxSteps, trace);
      RecordSilently(Approve);
    }

    /** Answer a call that the operator has just approved. */
    method CallApproved(catalog: Catalog, name: string, params: Params)
      returns (made: Result<Option<bool>>, ghost e: Event)
      requires Valid() && unsaid == [] && JustApproved(trace, name, params)
      modifies this`transcript, this`unsaid, this`steps, this`toolCounts, this`toolLastMs, this`clock, this`ticks,
               this`outcomes, this`requests, this`trace
      ensures Valid()
      ensures var (spec, at) := (Get(catalog, name), Reading(old(clock), old(ticks)));
              spec.None? || Allows(old(Document()), spec.value, at) ==>
                && e == Event.Dispatch(name, params, spec, clock, Tries(name, old(outcomes)))
                && transcript == old(transcript) + [Turn(User, Observation(name, Latest(e.tried)))]
      ensures var (spec, at) := (Get(catalog, name), Reading(old(clock), old(ticks)));
              spec.Some? && !Allows(old(Document()), spec.value, at) ==>
                && e == OverQuota(name, params, spec.value, clock)
                && transcript == old(transcript) + [Refusal(name, QuotaText(old(Document()), spec.value, at))]
      ensures trace == old(trace) + Entries(e, made.Ok?)
      ensures made.Ok? <==> Fits(transcript)
      ensures made.Ok? ==> (made.value.Some? <==> e.Dispatch?)
      ensures Answered(old(transcript), transcript, old(Document()), e)
    {
      hide Lawful, Follows, Replay, Fits, Get, WithinQuota, MayRequest, RequestsOf, QuestionsOf, Tries, WellTried,
        Observation, Refusal, UsedUpText, CoolingText, Allows, QuotaText, IsRecord, Says;
      ghost var document := Document();
      var spec := Get(catalog, name);
      if spec.Some? {
        made, e := CallWithinQuota(spec.value, params);
      } else {
        UncountedCall(name, params);
        var observed;
        observed, e := DispatchAndObserve(None, name, params, TIMEOUT_UNKNOWN_TOOL);
        AnswerSays(document, e);
        made := if observed.Ok? then Ok(Some(observed.value)) else Err(observed.error);
      }
    }

    /** The start of an approved resume: the halted call is made when its tool has left the catalog, and then
        uncounted, or when its quota has room; otherwise it is refused (`None`). */
    method DispatchApproved(catalog: Catalog) returns (made: Result<Option<bool>>, ghost e: Event)
      requires Valid() && status.NeedsConfirmation?
      modifies this`status, this`pendingTool, this`pendingParams, this`steps, this`transcript, this`unsaid,
               this`toolCounts, this`toolLastMs, this`clock, this`ticks, this`outcomes, this`requests, this`trace
      ensures Valid() && UsesFrom(catalog, trace, |old(trace)|)
      ensures IsCleared(old(Document()), catalog, Reading(old(clock), old(ticks))) ==>
                && e == Event.Dispatch(old(pendingTool), old(pendingParams), Get(catalog, old(pendingTool)), clock,
                                       Tries(old(pendingTool), old(outcomes)))
                && transcript == old(transcript) + [Turn(User, Observation(e.tool, Latest(e.tried)))]
      ensures var (spec, at) := (Get(catalog, old(pendingTool)), Reading(old(clock), old(ticks)));
              !IsCleared(old(Document()), catalog, at) ==>
                && e == OverQuota(old(pendingTool), old(pendingParams), spec.value, clock)
                && transcript == old(transcript) + [Refusal(e.tool, QuotaText(old(Document()), spec.value, at))]
      ensures trace == old(trace) + [Approve] + Entries(e, made.Ok?)
      ensures made.Ok? <==> Fits(transcript)
      ensures made.Ok? ==> (made.value.Some? <==> e.Dispatch?)
      ensures Answered(old(transcript), transcript, old(Document()), e)
      ensures made.Ok? && made.value.Some? ==> Ready(trace)
      ensures made.Err? ==> MayFail(trace)
    {
      hide Lawful, Follows, Replay, Fits, Get, StepsOf, RequestsOf, QuestionsOf, Tries, WellTried, Observation,
        Refusal, UsesFrom, Ready, MayFail, Entries, Allows, QuotaText, IsRecord, Answered;
      ghost var n, before, spec := |trace|, Document(), Get(catalog, pendingTool);
      UsesFromNothing(catalog, trace);
      UsesFromAppend(catalog, trace, n, Approve);
      var name, params := TakeApproved();
      ghost var approved := trace;
      if spec.Some? {
        QuotaIsKept(before, Document(), spec.value, Reading(clock, ticks));
      }
      ghost var turns, document := transcript, Document();
      made, e := CallApproved(catalog, name, params);
      AnsweredIsKept(turns, transcript, document, e, before);
      EntriesAreFrom(catalog, approved, e, made.Ok?);
      EntriesExtend(approved, e, made.Ok?);
      UsesFromMore(catalog, approved, trace, n);
    }

    /** Seed a fresh goal: the opening messages with the session history woven in, and what memory recalls. */
    method Seed(opening: seq<Turn>, history: seq<(string, string)>, recalled: Option<string>)
      returns (seeded: Result<()>)
      requires Valid() && trace == []
      modifies this`status, this`transcript, this`preface
      ensures Valid()
      ensures transcript == SeedOf(opening, history, recalled) && preface == transcript
      ensures seeded.Ok? <==> recalled.None? || Fits(transcript)
    {
      hide Lawful, Fits, Weave, RequestsOf, QuestionsOf, IsRecord;
      ReadyIsWhole(trace);
      NothingUnsaid();
      status := Running;
      transcript := WeaveHistory(opening, history);
      if recalled.None? {
        assert transcript + [] == transcript;
        seeded := Ok(());
      } else {
        seeded := PushTurn(User, recalled.value);
      }
      preface := transcript;
      FreshRecord(preface);
    }

    /** An approved run up to its first question to the model: `Some` when it goes on. */
    method StartApproved(catalog: Catalog) returns (started: Result<bool>)
      requires Valid() && status.NeedsConfirmation?
      modifies this
      ensures questions == old(questions) && nativeToolsDisabled == old(nativeToolsDisabled)
      ensures preface == old(preface)
      ensures Valid() && UsesFrom(catalog, trace, |old(trace)|) && old(trace) + [Approve] <= trace
      ensures IsCleared(old(Document()), catalog, Reading(old(clock), old(ticks))) ==>
                old(requests) + [Request(old(pendingTool), old(pendingParams), Next(old(outcomes)))] <= requests
      ensures !IsCleared(old(Document()), catalog, Reading(old(clock), old(ticks))) ==> requests == old(requests)
      ensures started.Ok? ==>
                (!started.value <==>
                   Strands(old(Document()), old(transcript), catalog, Reading(old(clock), old(ticks))))
      ensures started.Ok? ==>
                if started.value then Ready(trace) else Stranded(trace) && requests == old(requests)
      ensures started.Ok? && started.value ==>
                IsCleared(old(Document()), catalog, Reading(old(clock), old(ticks)))
      ensures started.Err? ==> MayFail(trace) && !Fits(transcript)
      ensures started.Err? ==> !Strands(old(Document()), old(transcript), catalog, Reading(old(clock), old(ticks)))
    {
      hide Lawful, Replay, Fits, Get, StepsOf, RequestsOf, QuestionsOf, Tries, WellTried, Observation, Refusal,
        UsesFrom, Ready, MayFail, Entries, Allows, QuotaText, Requests, IsRecord;
      ghost var before := trace;
      var made, e := DispatchApproved(catalog);
      EntriesExtend(before + [Approve], e, made.Ok?);
      RequestsAfter(before, e, made.Ok?);
      hide RequestsIn, IsRecord;
      started := if made.Ok? then Ok(made.value.Some?) else Err(made.error);
    }

    /** Run a goal, fresh or approved, until it ends or waits for the operator, or the transcript is full. */
    method Run(catalog: Catalog, entry: Entry, native: bool, block: string) returns (done: Result<()>)
      requires Valid()
      requires entry.Fresh? ==> trace == []
      requires entry.ApprovedResume? ==> status.NeedsConfirmation?
      modifies this
      ensures Valid() && old(trace) <= trace && UsesFrom(catalog, trace, |old(trace)|)
      ensures AskedFrom(native, old(nativeToolsDisabled), old(questions), nativeToolsDisabled, questions)
      ensures preface == if entry.Fresh? then SeedOf(entry.opening, entry.history, entry.recalled) else old(preface)
      ensures done.Err? ==> MayFail(trace) && !Fits(transcript)
      ensures var strands := entry.ApprovedResume? &&
                             Strands(old(Document()), old(transcript), catalog, Reading(old(clock), old(ticks)));
              && (done.Ok? ==> (!Settled(trace) <==> strands))
              && (strands ==> done.Ok? && Stranded(trace) && requests == old(requests))
      ensures entry.ApprovedResume? ==> old(trace) + [Approve] <= trace
      ensures entry.ApprovedResume? && IsCleared(old(Document()), catalog, Reading(old(clock), old(ticks))) ==>
                old(requests) + [Request(old(pendingTool), old(pendingParams), Next(old(outcomes)))] <= requests
      ensures entry.ApprovedResume? ==>
                IsCleared(old(Document()), catalog, Reading(old(clock), old(ticks))) || requests == old(requests)
    {
      hide Lawful, Follows, Replay, Fits, StepsOf, RequestsOf, QuestionsOf, UsesFrom, Ready, MayFail, Settled,
        Strands, IsCleared, Stranded, Get, IsRecord, AskedFrom;
      ghost var n, before := |trace|, trace;
      UsesFromNothing(catalog, trace);
      NobodyAsked(native, nativeToolsDisabled, questions);
      if entry.Fresh? {
        FreshIsReady();
        done := Seed(entry.opening, entry.history, entry.recalled);
        if done.Err? {
          return;
        }
      } else {
        var started := StartApproved(catalog);
        if started.Err? {
          return Err(started.error);
        }
        if !started.value {
          StrandedIsNotSettled(trace);
          return Ok(());
        }
      }
      ghost var middle := trace;
      done := Drive(catalog, native, block);
      UsesFromMore(catalog, middle, trace, n);
      assert trace[..|middle|] == middle;
      RequestsGrow(trace, |middle|);
    }

    /** `Run`, and when it fails the goal still ends, as an error. It has settled in every case but one: an
        approved call that is refused by its quota. */
    method RunAndRecord(catalog: Catalog, entry: Entry, native: bool, block: string) returns (done: Result<()>)
      requires Valid()
      requires entry.Fresh? ==> trace == []
      requires entry.ApprovedResume? ==> status.NeedsConfirmation?
      modifies this
      ensures Valid() && old(trace) <= trace && UsesFrom(catalog, trace, |old(trace)|)
      ensures AskedFrom(native, old(nativeToolsDisabled), old(questions), nativeToolsDisabled, questions)
      ensures preface == if entry.Fresh? then SeedOf(entry.opening, entry.history, entry.recalled) else old(preface)
      ensures done.Err? ==> status.Error? && error == done.error && !Fits(transcript)
      ensures var strands := entry.ApprovedResume? &&
                             Strands(old(Document()), old(transcript), catalog, Reading(old(clock), old(ticks)));
              && (!Settled(trace) <==> strands)
              && (strands ==> done.Ok? && Stranded(trace) && requests == old(requests))
      ensures entry.ApprovedResume? ==> old(trace) + [Approve] <= trace
      ensures entry.ApprovedResume? && IsCleared(old(Document()), catalog, Reading(old(clock), old(ticks))) ==>
                old(requests) + [Request(old(pendingTool), old(pendingParams), Next(old(outcomes)))] <= requests
      ensures entry.ApprovedResume? ==>
                IsCleared(old(Document()), catalog, Reading(old(clock), old(ticks))) || requests == old(requests)
    {
      hide Lawful, Follows, Replay, Fits, StepsOf, RequestsOf, QuestionsOf, UsesFrom, Ready, MayFail, Settled,
        Strands, IsCleared, Stranded, Get, IsRecord, AskedFrom;
      ghost var n := |trace|;
      done := Run(catalog, entry, native, block);
      if done.Err? {
        ghost var before := trace;
        Fail(done.error);
        UsesFromAppend(catalog, before, n, Failed(done.error));
        LastSettles(trace);
        assert trace[..|before|] == before;
        RequestsGrow(trace, |before|);
      }
    }

    method Fail(why: string)
      requires Valid() && MayFail(trace) && !Fits(transcript)
      modifies this`status, this`error, this`steps, this`trace
      ensures Valid() && trace == old(trace) + [Failed(why)]
      ensures status.Error? && error == why
    {
      hide Lawful, Replay, StepsOf, RequestsOf, QuestionsOf, MayFail, IsRecord;
      assert Follows(maxSteps, trace, Failed(why));
      hide Follows, IsRecord;
      status, error := Error, why;
      StepsAreNumbered(trace);
      NextStep("error");
      RecordSilently(Failed(why));
    }

    /** The operator's answer to a halted goal; any other goal is left alone. A declined goal has ended and
        nothing was requested. An approved call is requested first of all, unless its quota is used up; and
        the goal settles in every case but one: that refusal, when it still fits. */
    method Resume(catalog: Catalog, approve: bool, native: bool, block: string) returns (done: Result<()>)
      requires Valid()
      modifies this
      ensures Valid() && old(trace) <= trace && UsesFrom(catalog, trace, |old(trace)|)
      ensures AskedFrom(native, old(nativeToolsDisabled), old(questions), nativeToolsDisabled, questions)
      ensures preface == old(preface)
      ensures old(!status.NeedsConfirmation?) ==> done.Err? && unchanged(this)
      ensures old(status.NeedsConfirmation?) && !approve ==>
                done.Ok? && trace == old(trace) + [Decline] && requests == old(requests)
      ensures old(status.NeedsConfirmation?) && approve ==> old(trace) + [Approve] <= trace
      ensures old(status.NeedsConfirmation?) && approve &&
              IsCleared(old(Document()), catalog, Reading(old(clock), old(ticks))) ==>
                old(requests) + [Request(old(pendingTool), old(pendingParams), Next(old(outcomes)))] <= requests
      ensures old(status.NeedsConfirmation?) && approve ==>
                IsCleared(old(Document()), catalog, Reading(old(clock), old(ticks))) || requests == old(requests)
      ensures var strands := approve &&
                             Strands(old(Document()), old(transcript), catalog, Reading(old(clock), old(ticks)));
              old(status.NeedsConfirmation?) ==>
                && (!Settled(trace) <==> strands)
                && (strands ==> done.Ok? && Stranded(trace) && requests == old(requests))
    {
      hide Lawful, Follows, Replay, Fits, StepsOf, RequestsOf, QuestionsOf, UsesFrom, Ready, MayFail, Settled,
        Strands, IsCleared, Stranded, Get, IsRecord, AskedFrom;
      UsesFromNothing(catalog, trace);
      NobodyAsked(native, nativeToolsDisabled, questions);
      if !status.NeedsConfirmation? {
        return Err("goal is not awaiting confirmation");
      }
      if !approve {
        UsesFromAppend(catalog, trace, |trace|, Decline);
        DeclineGoal();
        LastSettles(trace);
        return Ok(());
      }
      done := RunAndRecord(catalog, ApprovedResume, native, block);
    }

    method DeclineGoal()
      requires Valid() && status.NeedsConfirmation?
      modifies this`status, this`finalAnswer, this`pendingTool, this`pendingParams, this`steps, this`trace
      ensures Valid() && trace == old(trace) + [Decline]
    {
      hide Lawful, Follows, Replay, Apply, DeclinedAnswer, RequestsOf, QuestionsOf, IsRecord;
      WaitsForOperator();
      ghost var before := Document();
      status := Declined;
      finalAnswer := DeclinedAnswer(pendingTool);
      pendingTool, pendingParams := "", "null";
      NextStep("declined");
      DeclinedDocument(before, Document());
      RecordSilently(Decline);
    }

    // What the kernel and the model saw of a goal's whole life.

    /** Every reply of the model, and every result or refusal of a call, has its turn in the transcript, after the
        opening messages and in the order of the trace. The turn is the reply itself, or reads back to the outcome
        or the reason. */
    lemma TranscriptIsTold(i: nat)
      requires Valid() && i < |trace|
      requires trace[i].Said? || trace[i].Dispatch? || trace[i].OverQuota? || trace[i].Unknown?
      ensures var place := |preface| + PlaceOf(trace, i);
              && place < |transcript| && Says(Replay(trace[..i]), trace[i], transcript[place])
              && (i + 1 < |trace| ==> |preface| + PlaceOf(trace, i + 1) == place + 1)
      ensures preface <= transcript && |transcript| <= |preface| + |TurnsOf(trace)| + 1
    {
      hide Lawful, Replay, RequestsOf, QuestionsOf, Says, TurnsOf, PlaceOf;
      TranscriptTells(maxSteps, trace, i);
    }

    /** Every request that ever reached the kernel makes a call which the operator had just approved, or which
        the model had just made of a tool without a confirmation mark. */
    lemma EveryRequestIsAllowed(k: nat)
      requires Valid() && k < |requests|
      ensures exists i :: IsAllowedAt(trace, i, requests[k])
    {
      hide Lawful, Replay, QuestionsOf, IsAllowedAt, IsRecord;
      RequestIsAllowed(maxSteps, trace, k);
    }

    /** With one catalog, a limited tool was requested at most as often as its limit says, a device at most
        twice as often; and the model was asked at most once more than the step budget says. */
    lemma LogsAreBounded(catalog: Catalog, tool: string)
      requires Valid()
      ensures UsesCatalog(catalog, trace) && Get(catalog, tool).Some? && Get(catalog, tool).value.maxPerGoal > 0 ==>
                RequestCount(requests, tool) <= MaxTries(tool) * Get(catalog, tool).value.maxPerGoal
      ensures |questions| <= maxSteps + 1
    {
      hide Lawful, Replay, UsesCatalog, RequestCount, MaxTries, Get, RequestsOf, IsRecord;
      QuestionsAreBounded(maxSteps, trace);
      if UsesCatalog(catalog, trace) && Get(catalog, tool).Some? && Get(catalog, tool).value.maxPerGoal > 0 {
        RequestsAreBounded(maxSteps, catalog, trace, tool);
      }
    }
  }
}
