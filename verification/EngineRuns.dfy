/** Runs of the engine that show where its guarantees end, for every catalog and call of their kind. */
module EngineRuns {
  import opened Engine
  import opened GoalTrace
  import opened Text
  import opened Transcript

  lemma UncountedIsUnused(t: Trace, tool: string)
    requires forall e | e in t :: !e.Dispatch?
    ensures CountOf(t, tool) == 0 && LastAt(t, tool).None?
  {
    if |t| > 0 {
      UncountedIsUnused(t[..|t| - 1], tool);
    }
  }

  lemma {:induction false} CountedIsUsed(t: Trace, i: nat, tool: string)
    requires i < |t| && Counted(t[i], tool)
    ensures CountOf(t, tool) > 0
  {
    if i < |t| - 1 {
      CountedIsUsed(t[..|t| - 1], i, tool);
    }
  }

  /** A tool that was never dispatched has its quota. */
  lemma FreshAllows(t: Trace, spec: ToolSpec, at: int)
    requires forall e | e in t :: !e.Dispatch?
    ensures Allows(Replay(t), spec, at)
  {
    hide Replay, Allows, CountOf, LastAt;
    UncountedIsUnused(t, spec.name);
    AllowsIsWithin(t, spec, at);
  }

  /** A tool limited to one call has no quota after it. */
  lemma OnceIsEnough(t: Trace, i: nat, spec: ToolSpec, at: int)
    requires spec.maxPerGoal == 1 && i < |t| && Counted(t[i], spec.name)
    ensures !Allows(Replay(t), spec, at)
  {
    hide Replay, Allows, CountOf, LastAt;
    CountedIsUsed(t, i, spec.name);
    AllowsIsWithin(t, spec, at);
  }

  lemma NothingFits()
    ensures TotalChars([]) == 0 && Fits([])
  {
  }

  lemma TotalCharsAppend(turns: seq<Turn>, turn: Turn)
    ensures TotalChars(turns + [turn]) == TotalChars(turns) + |turn.content|
  {
    assert (turns + [turn])[..|turns|] == turns;
  }

  lemma {:induction false} StepsAreEvents(t: Trace)
    ensures |StepsOf(t)| <= |t|
  {
    if |t| > 0 {
      StepsAreEvents(t[..|t| - 1]);
    }
  }

  /** The model calls a marked tool with nothing more to say. */
  function Calling(name: string, params: Params): Result<(string, Reply)> {
    Ok(("", ToolCall(name, params)))
  }

  lemma SilenceFits(turns: seq<Turn>)
    requires Fits(turns)
    ensures Fits(turns + [Turn(Assistant, "")])
    ensures TotalChars(turns + [Turn(Assistant, "")]) == TotalChars(turns)
  {
    TotalCharsAppend(turns, Turn(Assistant, ""));
  }

  lemma CallIsTaken(name: string, params: Params)
    ensures Answer(false, Calling(name, params)) == Said(false, "", ToolCall(name, params))
    ensures AnswerTurns(Calling(name, params)) == [Turn(Assistant, "")]
    ensures Calling(name, params).Ok?
  {
  }

  /** One turn in which the model calls a marked tool: the goal halts. */
  method HaltOnCall(goal: Goal, catalog: Catalog, spec: ToolSpec, params: Params)
    requires goal.Valid() && Ready(goal.trace) && |goal.steps| < goal.maxSteps && Fits(goal.transcript)
    requires Get(catalog, spec.name) == Some(spec) && spec.requiresConfirmation
    requires Next(goal.replies) == Calling(spec.name, params)
    modifies goal
    ensures goal.Valid() && UsesFrom(catalog, goal.trace, |old(goal.trace)|)
    ensures goal.trace ==
            old(goal.trace) + [Said(false, "", ToolCall(spec.name, params))] + [Halt(spec.name, params, spec)]
    ensures goal.status.NeedsConfirmation? && goal.pendingTool == spec.name && goal.pendingParams == params
    ensures TotalChars(goal.transcript) == old(TotalChars(goal.transcript)) && Fits(goal.transcript)
    ensures goal.outcomes == old(goal.outcomes) && goal.requests == old(goal.requests)
    ensures goal.replies == Rest(old(goal.replies))
  {
    hide Lawful, Replay, TotalChars, RequestsOf, QuestionsOf, Get, UsesFrom, Allows, QuotaText, Tries, Observation,
      Refusal, StepsOf, Ready, Fits, Answer, AnswerTurns, Calling;
    SilenceFits(goal.transcript);
    CallIsTaken(spec.name, params);
    ghost var n := |goal.trace|;
    ReadyIsWhole(goal.trace);
    goal.NothingUnsaid();
    var asked := goal.Ask(catalog, false, "");
    ghost var called := goal.trace;
    var obeyed, e := goal.Obey(catalog, spec.name, params);
    UsesFromMore(catalog, called, goal.trace, n);
  }

  lemma RefusalIsShort(spec: ToolSpec, used: nat)
    requires spec.maxPerGoal == 1 && used <= 1
    ensures |Refusal(spec.name, UsedUpText(spec, used)).content| <= 2 * |spec.name| + 100
  {
    hide Decimal;
    DigitIsShort(1);
    DigitIsShort(used);
  }

  lemma DigitIsShort(n: nat)
    requires n < 10
    ensures |Decimal(n)| == 1
  {
  }

  /** A halted call of a tool that may be called once per goal and was already called: its approval strands
      the goal when the transcript has room. */
  lemma SecondCallStrands(goal: Goal, catalog: Catalog, spec: ToolSpec, i: nat)
    requires goal.Valid() && goal.pendingTool == spec.name && Get(catalog, spec.name) == Some(spec)
    requires spec.maxPerGoal == 1 && |spec.name| <= 1000 && TotalChars(goal.transcript) <= 10000
    requires UsesCatalog(catalog, goal.trace) && i < |goal.trace| && Counted(goal.trace[i], spec.name)
    ensures Strands(goal.Document(), goal.transcript, catalog, Reading(goal.clock, goal.ticks))
  {
    hide Lawful, Replay, RequestsOf, QuestionsOf, Get, UsesFrom, TotalChars, Refusal, UsedUpText, CoolingText, CountOf;
    var at := Reading(goal.clock, goal.ticks);
    OnceIsEnough(goal.trace, i, spec, at);
    CountIsBounded(goal.maxSteps, catalog, goal.trace, spec.name);
    CountedIsUsed(goal.trace, i, spec.name);
    ReplayCounts(goal.trace, spec.name);
    RefusalIsShort(spec, 1);
    TotalCharsAppend(goal.transcript, Refusal(spec.name, UsedUpText(spec, 1)));
  }

  lemma SuccessIsFinal(tool: string, outcomes: seq<Result<string>>)
    requires Next(outcomes).Ok?
    ensures Tries(tool, outcomes) == [Next(outcomes)]
  {
  }

  /** A fresh goal whose first call, of a marked tool, is halted, approved and made. */
  method ApproveOnce(goal: Goal, catalog: Catalog, spec: ToolSpec, params: Params)
    requires goal.Valid() && goal.trace == [] && goal.transcript == [] && goal.requests == []
    requires 5 < goal.maxSteps && Next(goal.outcomes).Ok? && Next(goal.replies) == Calling(spec.name, params)
    requires Get(catalog, spec.name) == Some(spec) && spec.requiresConfirmation
    modifies goal
    ensures goal.Valid() && Ready(goal.trace) && |goal.trace| == 5 && Counted(goal.trace[3], spec.name)
    ensures UsesCatalog(catalog, goal.trace) && goal.replies == Rest(old(goal.replies))
    ensures TotalChars(goal.transcript) <= 9000 && |goal.requests| == 1
  {
    hide Lawful, Replay, TotalChars, RequestsOf, QuestionsOf, Get, UsesFrom, Allows, QuotaText, StepsOf, Refusal,
      Observation, Ready, Tries, Calling, RequestsIn;
    FreshIsReady();
    NothingFits();
    UsesFromNothing(catalog, goal.trace);
    StepsAreEvents(goal.trace);
    ReplaySteps(goal.trace);
    ghost var before := goal.trace;
    HaltOnCall(goal, catalog, spec, params);
    UsesFromMore(catalog, before, goal.trace, 0);
    FreshAllows(goal.trace, spec, Reading(goal.clock, goal.ticks));
    SuccessIsFinal(spec.name, goal.outcomes);
    before := goal.trace;
    ghost var turns := goal.transcript;
    var made, e := goal.DispatchApproved(catalog);
    TotalCharsAppend(turns, Turn(User, Observation(e.tool, Latest(e.tried))));
    UsesFromMore(catalog, before, goal.trace, 0);
    RequestsAfter(before, e, made.Ok?);
    OneRequest(e);
  }

  lemma OneRequest(e: Event)
    requires e.Dispatch? && |e.tried| == 1
    ensures |RequestsIn(e)| == 1
  {
  }

  /** A marked tool that may be called once per goal, called twice by the model and approved twice by the
      operator, for every such tool with a name of reasonable length: the second approval makes no request
      and returns with the goal neither ended nor waiting for the operator. */
  method StrandedGoal(catalog: Catalog, spec: ToolSpec, params: Params, answer: string) returns (goal: Goal)
    requires Get(catalog, spec.name) == Some(spec) && spec.requiresConfirmation && spec.maxPerGoal == 1
    requires |spec.name| <= 1000
    ensures goal.Valid() && UsesCatalog(catalog, goal.trace)
    ensures Stranded(goal.trace) && !Settled(goal.trace)
    ensures |goal.requests| == 1
  {
    hide Lawful, Replay, TotalChars, RequestsOf, QuestionsOf, Get, UsesFrom, StepsOf, Ready, Stranded, Strands,
      Calling;
    goal := new Goal(10, [Calling(spec.name, params), Calling(spec.name, params)], [Ok(answer)], []);
    ApproveOnce(goal, catalog, spec, params);
    StepsAreEvents(goal.trace);
    ReplaySteps(goal.trace);
    ghost var before := goal.trace;
    HaltOnCall(goal, catalog, spec, params);
    UsesFromMore(catalog, before, goal.trace, 0);
    SecondCallStrands(goal, catalog, spec, 3);
    before := goal.trace;
    var done := goal.Resume(catalog, true, false, "");
    UsesFromMore(catalog, before, goal.trace, 0);
  }

  /** A halted call whose tool has left the catalog when the operator approves it, for every halted goal: it
      is requested all the same. */
  method MissingToolIsRequested(goal: Goal, catalog: Catalog) returns (done: Result<()>)
    requires goal.Valid() && goal.status.NeedsConfirmation? && Get(catalog, goal.pendingTool).None?
    modifies goal
    ensures goal.Valid() && |old(goal.requests)| < |goal.requests|
    ensures var r := goal.requests[|old(goal.requests)|];
            r.tool == old(goal.pendingTool) && r.params == old(goal.pendingParams)
  {
    hide Lawful, Replay, TotalChars, RequestsOf, QuestionsOf, UsesFrom, Get, Strands;
    done := goal.Resume(catalog, true, false, "");
  }

  /** The operator's answer is used up only once the document is stored again. Two tasks that load the same
      halted goal and are both told to approve request the call twice, whenever its quota allows it once:
      resumes of one goal must not overlap. */
  method OverlappingApprovals(stored: Goal, catalog: Catalog) returns (first: Goal, second: Goal)
    requires stored.Valid() && stored.status.NeedsConfirmation?
    requires IsCleared(stored.Document(), catalog, Reading(stored.clock, stored.ticks))
    ensures forall g | g in [first, second] ::
              && fresh(g) && |stored.requests| < |g.requests| && stored.requests <= g.requests
              && g.requests[|stored.requests|].tool == stored.pendingTool
              && g.requests[|stored.requests|].params == stored.pendingParams
    ensures first != second
  {
    hide Lawful, Replay, TotalChars, RequestsOf, QuestionsOf, UsesFrom, Strands, IsCleared;
    first := new Goal.Load(stored);
    second := new Goal.Load(stored);
    var done := first.Resume(catalog, true, false, "");
    done := second.Resume(catalog, true, false, "");
  }
}
