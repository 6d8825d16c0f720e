/** What a run spends, counts and stops for, told by the events it emits. */
module RunnerCosts {
  import opened Base
  import opened Numbers
  import opened ReplayEvents
  import opened RunnerModel
  import opened RunnerTraces

  // ----- sums and counts over a trace

  /** The costs of the finished turns. */
  function FinishCosts(payloads: seq<Payload>): real {
    if payloads == [] then 0.0
    else
      var last := payloads[|payloads| - 1];
      FinishCosts(payloads[..|payloads| - 1]) +
      if last.TurnFinish? && last.turnCostUSD.Fin? then last.turnCostUSD.v else 0.0
  }

  function StartedTurns(payloads: seq<Payload>): nat {
    if payloads == [] then 0
    else StartedTurns(payloads[..|payloads| - 1]) + if payloads[|payloads| - 1].TurnStart? then 1 else 0
  }

  function ToolResults(payloads: seq<Payload>): nat {
    if payloads == [] then 0
    else ToolResults(payloads[..|payloads| - 1]) + if payloads[|payloads| - 1].ToolFinish? then 1 else 0
  }

  /** The tool calls finished since the last turn started, and those of them that failed. */
  function TurnResults(payloads: seq<Payload>): nat {
    if payloads == [] || payloads[|payloads| - 1].TurnStart? then 0
    else TurnResults(payloads[..|payloads| - 1]) + if payloads[|payloads| - 1].ToolFinish? then 1 else 0
  }

  function TurnErrors(payloads: seq<Payload>): nat {
    if payloads == [] || payloads[|payloads| - 1].TurnStart? then 0
    else
      var last := payloads[|payloads| - 1];
      TurnErrors(payloads[..|payloads| - 1]) + if last.ToolFinish? && last.isError then 1 else 0
  }

  /** How many of the latest turns with tool calls had nothing but failing ones. */
  function FailedInARow(payloads: seq<Payload>): nat {
    if payloads == [] then 0
    else
      var before, last := FailedInARow(payloads[..|payloads| - 1]), payloads[|payloads| - 1];
      if !last.TurnFinish? || last.toolCallsCount == Whole(0) then before
      else if last.toolErrorsCount == last.toolCallsCount then before + 1
      else 0
  }

  /** Each turn starts with less than the maximum spent on the turns finished before. */
  predicate StartsAffordable(c: Config, payloads: seq<Payload>) {
    payloads == [] ||
    (var front := payloads[..|payloads| - 1];
     StartsAffordable(c, front) && (payloads[|payloads| - 1].TurnStart? ==> FinishCosts(front) < c.maxCostUSD))
  }

  /** Each turn starts with two messages, one for every answer, and one for every tool result. */
  predicate MessagesTold(payloads: seq<Payload>) {
    payloads == [] ||
    (var front, last := payloads[..|payloads| - 1], payloads[|payloads| - 1];
     MessagesTold(front) &&
     (last.TurnStart? ==> last.messageCount == Whole(2 + FinishedTurns(front) + ToolResults(front))))
  }

  /** A finish event shows what its own turn took, cost and ended for. */
  predicate ShowsTurn(p: Payload, k: nat, t: Turn)
    requires p.TurnFinish?
  {
    && p.turnIndex == Whole(k) && p.turnCostUSD == Fin(t.costUSD) && p.turnDurationMs == Fin(t.durationMs)
    && p.finishReason == t.finishReason
  }

  /** Each finished turn shows itself, and counts its tool calls and those that failed. */
  predicate CallsTold(turns: nat -> Turn, payloads: seq<Payload>) {
    payloads == [] ||
    (var front, last := payloads[..|payloads| - 1], payloads[|payloads| - 1];
     CallsTold(turns, front) &&
     (last.TurnFinish? ==>
        ShowsTurn(last, FinishedTurns(front), turns(FinishedTurns(front))) &&
        last.toolCallsCount == Whole(TurnResults(front)) && last.toolErrorsCount == Whole(TurnErrors(front))))
  }

  predicate Told(c: Config, turns: nat -> Turn, payloads: seq<Payload>) {
    StartsAffordable(c, payloads) && MessagesTold(payloads) && CallsTold(turns, payloads)
  }

  /** What the turns cost that the provider answered, of the first `n`. */
  function AnsweredCosts(turns: nat -> Turn, n: nat): real {
    if n == 0 then 0.0
    else AnsweredCosts(turns, n - 1) + if turns(n - 1).providerFailure.None? then turns(n - 1).costUSD else 0.0
  }

  /** After this event the loop goes back to its head. */
  predicate GoesOn(c: Config, p: Payload) {
    p.RunStart? ||
    (p.TurnFinish? && p.toolCallsCount != Whole(0) && !(c.stopOnToolFailures && p.toolErrorsCount != Whole(0)))
  }

  // ----- one event more

  /** `all` is `payloads` and one event. */
  predicate Sums(all: seq<Payload>, payloads: seq<Payload>, p: Payload) {
    && FinishCosts(all) == FinishCosts(payloads)
       + (if p.TurnFinish? && p.turnCostUSD.Fin? then p.turnCostUSD.v else 0.0)
    && StartedTurns(all) == StartedTurns(payloads) + (if p.TurnStart? then 1 else 0)
    && FinishedTurns(all) == FinishedTurns(payloads) + (if p.TurnFinish? then 1 else 0)
    && ToolResults(all) == ToolResults(payloads) + (if p.ToolFinish? then 1 else 0)
    && TurnResults(all) == (if p.TurnStart? then 0 else TurnResults(payloads) + if p.ToolFinish? then 1 else 0)
    && TurnErrors(all)
       == (if p.TurnStart? then 0 else TurnErrors(payloads) + if p.ToolFinish? && p.isError then 1 else 0)
  }

  lemma SumsSnoc(payloads: seq<Payload>, p: Payload)
    ensures Sums(payloads + [p], payloads, p)
  {
    assert (payloads + [p])[..|payloads|] == payloads;
  }

  lemma RowSnoc(payloads: seq<Payload>, p: Payload)
    ensures FailedInARow(payloads + [p])
            == if !p.TurnFinish? || p.toolCallsCount == Whole(0) then FailedInARow(payloads)
               else if p.toolErrorsCount == p.toolCallsCount then FailedInARow(payloads) + 1
               else 0
  {
    assert (payloads + [p])[..|payloads|] == payloads;
  }

  /** The next event tells the truth about what came before. */
  predicate TellsNext(c: Config, turns: nat -> Turn, payloads: seq<Payload>, p: Payload) {
    && (p.TurnStart? ==>
          FinishCosts(payloads) < c.maxCostUSD &&
          p.messageCount == Whole(2 + FinishedTurns(payloads) + ToolResults(payloads)))
    && (p.TurnFinish? ==>
          ShowsTurn(p, FinishedTurns(payloads), turns(FinishedTurns(payloads))) &&
          p.toolCallsCount == Whole(TurnResults(payloads)) && p.toolErrorsCount == Whole(TurnErrors(payloads)))
  }

  lemma {:induction false} ToldSnoc(c: Config, turns: nat -> Turn, payloads: seq<Payload>, p: Payload)
    ensures Told(c, turns, payloads + [p]) <==> Told(c, turns, payloads) && TellsNext(c, turns, payloads, p)
  {
    assert (payloads + [p])[..|payloads|] == payloads;
  }

  // ----- the tool events of a turn

  /** `all` adds to `payloads` tool events only: `results` of them results, `errors` failed. */
  predicate ToolsAdded(c: Config, turns: nat -> Turn, all: seq<Payload>, payloads: seq<Payload>, results: nat,
                       errors: nat) {
    && FinishCosts(all) == FinishCosts(payloads) && StartedTurns(all) == StartedTurns(payloads)
    && FinishedTurns(all) == FinishedTurns(payloads) && FailedInARow(all) == FailedInARow(payloads)
    && ToolResults(all) == ToolResults(payloads) + results && TurnResults(all) == TurnResults(payloads) + results
    && TurnErrors(all) == TurnErrors(payloads) + errors
    && (Told(c, turns, payloads) ==> Told(c, turns, all))
  }

  lemma {:induction false} ToolEvent(c: Config, turns: nat -> Turn, payloads: seq<Payload>, p: Payload)
    requires p.ToolDispatch? || p.ToolFinish?
    ensures ToolsAdded(c, turns, payloads + [p], payloads, if p.ToolFinish? then 1 else 0,
                       if p.ToolFinish? && p.isError then 1 else 0)
  {
    SumsSnoc(payloads, p);
    RowSnoc(payloads, p);
    ToldSnoc(c, turns, payloads, p);
  }

  lemma {:induction false} ToolsChain(c: Config, turns: nat -> Turn, a: seq<Payload>, b: seq<Payload>, d: seq<Payload>,
                                      r: nat, e: nat, r': nat, e': nat)
    requires ToolsAdded(c, turns, b, a, r, e) && ToolsAdded(c, turns, d, b, r', e')
    ensures ToolsAdded(c, turns, d, a, r + r', e + e')
  {}

  /** How many results the tool calls of a turn leave; all of them unless one fails. */
  function ResultCount(turn: nat, steps: seq<ToolStep>): nat {
    if steps == [] || steps[0].before.Some? || steps[0].during.Some? then 0
    else if steps[0].after.Some? then 1
    else 1 + ResultCount(turn, steps[1..])
  }

  lemma {:induction false} OneTool(c: Config, turns: nat -> Turn, payloads: seq<Payload>, turn: nat, s: ToolStep)
    ensures ToolsAdded(c, turns, payloads + [Dispatched(turn, s), Finished(turn, s.record)], payloads, 1,
                       if s.record.isError then 1 else 0)
  {
    var first, second := Dispatched(turn, s), Finished(turn, s.record);
    ToolEvent(c, turns, payloads, first);
    ToolEvent(c, turns, payloads + [first], second);
    ToolsChain(c, turns, payloads, payloads + [first], payloads + [first] + [second], 0, 0, 1,
               if s.record.isError then 1 else 0);
    assert payloads + [first, second] == payloads + [first] + [second];
  }

  lemma {:induction false} ToolsRunAdded(c: Config, turns: nat -> Turn, payloads: seq<Payload>, turn: nat,
                                         steps: seq<ToolStep>)
    ensures ToolsAdded(c, turns, payloads + RunTools(turn, steps).payloads, payloads, ResultCount(turn, steps),
                       RunTools(turn, steps).errors)
    decreases |steps|
  {
    if steps == [] || steps[0].before.Some? {
      assert payloads + [] == payloads;
    } else if steps[0].during.Some? {
      ToolEvent(c, turns, payloads, Dispatched(turn, steps[0]));
    } else {
      var both := [Dispatched(turn, steps[0]), Finished(turn, steps[0].record)];
      OneTool(c, turns, payloads, turn, steps[0]);
      if steps[0].after.None? {
        var rest := RunTools(turn, steps[1..]);
        ToolsRunAdded(c, turns, payloads + both, turn, steps[1..]);
        ToolsChain(c, turns, payloads, payloads + both, payloads + both + rest.payloads, 1,
                   if steps[0].record.isError then 1 else 0, ResultCount(turn, steps[1..]), rest.errors);
        assert payloads + (both + rest.payloads) == payloads + both + rest.payloads;
      }
    }
  }

  lemma {:induction false} AllResults(turn: nat, steps: seq<ToolStep>)
    requires RunTools(turn, steps).failure == None
    ensures ResultCount(turn, steps) == |steps| == RunTools(turn, steps).results
    ensures RunTools(turn, steps).errors <= |steps|
    decreases |steps|
  {
    if steps != [] {
      AllResults(turn, steps[1..]);
    }
  }

  // ----- what the loop keeps

  predicate Kept(c: Config, turns: nat -> Turn, s: State) {
    && Told(c, turns, s.payloads) && StartedTurns(s.payloads) == FinishedTurns(s.payloads) == s.turnIndex
    && s.totalCostUSD == FinishCosts(s.payloads) == AnsweredCosts(turns, s.turnIndex)
    && s.messageCount == 2 + s.turnIndex + ToolResults(s.payloads)
    && s.consecutiveToolErrors == FailedInARow(s.payloads)
    && s.payloads != [] && GoesOn(c, s.payloads[|s.payloads| - 1])
    && s.reason == "success" && s.finalOutput == ""
  }

  /** The last event of a trace. */
  function Last(payloads: seq<Payload>): Payload
    requires payloads != []
  {
    payloads[|payloads| - 1]
  }

  /** The loop was left at its head, before a turn within the limit, and not for a preflight failure. */
  predicate StoppedAtHead(c: Config, turns: nat -> Turn, payloads: seq<Payload>) {
    && payloads != [] && GoesOn(c, Last(payloads))
    && FinishedTurns(payloads) < c.maxTurns && turns(FinishedTurns(payloads)).preflight.None?
  }

  /** The last turn ended the run because a tool call failed. */
  predicate StoppedOnTool(c: Config, payloads: seq<Payload>) {
    && payloads != [] && Last(payloads).TurnFinish? && c.stopOnToolFailures
    && Last(payloads).toolCallsCount != Whole(0) && Last(payloads).toolErrorsCount != Whole(0)
  }

  /** Why the run ended, over its events. */
  predicate ReasonTold(c: Config, turns: nat -> Turn, payloads: seq<Payload>, reason: string)
    requires payloads != []
  {
    && reason != "max_turns"
    && (reason == "budget_exceeded" <==> StoppedAtHead(c, turns, payloads) && FinishCosts(payloads) >= c.maxCostUSD)
    && (reason == "tool_error_loop" <==>
        StoppedOnTool(c, payloads) ||
        (StoppedAtHead(c, turns, payloads) && FinishCosts(payloads) < c.maxCostUSD &&
         FailedInARow(payloads) >= c.maxConsecutiveToolFailures))
    && (reason == "success" <==>
        Answers(payloads) || (GoesOn(c, Last(payloads)) && FinishedTurns(payloads) >= c.maxTurns))
    && (reason in {"timeout", "aborted", "error"} <==>
        Last(payloads).TurnError? ||
        (GoesOn(c, Last(payloads)) && FinishedTurns(payloads) < c.maxTurns &&
         turns(FinishedTurns(payloads)).preflight.Some?))
  }

  /** The last event finishes a turn without tool calls. */
  predicate Answers(payloads: seq<Payload>)
    requires payloads != []
  {
    Last(payloads).TurnFinish? && Last(payloads).toolCallsCount == Whole(0)
  }

  /** The first thing that went wrong with the tool calls of a turn. */
  function FirstFailure(steps: seq<ToolStep>): Option<Failure> {
    if steps == [] then None
    else if steps[0].before.Some? then steps[0].before
    else if steps[0].during.Some? then steps[0].during
    else if steps[0].after.Some? then steps[0].after
    else FirstFailure(steps[1..])
  }

  /** What made a turn fail: its provider, a tool call, or its completion callback. */
  function Cause(t: Turn): Option<Failure> {
    if t.providerFailure.Some? then t.providerFailure
    else if FirstFailure(t.toolCalls).Some? then FirstFailure(t.toolCalls)
    else t.callbackFailure
  }

  lemma {:induction false} ToolFailureIs(turn: nat, steps: seq<ToolStep>)
    ensures RunTools(turn, steps).failure == FirstFailure(steps)
    decreases |steps|
  {
    if steps != [] {
      ToolFailureIs(turn, steps[1..]);
    }
  }

  /** The reason names the kind of a failure. */
  predicate KindTold(reason: string, kind: FailureKind) {
    && (kind.TimeoutFailure? ==> reason == "timeout") && (kind.AbortFailure? ==> reason == "aborted")
    && (!kind.TimeoutFailure? && !kind.AbortFailure? ==> reason == "error")
  }

  /**
   * A turn that failed ends with the message of what made it fail; a rate limit is rethrown, any other failure, and a
   * failed preflight, gives the run its reason.
   */
  predicate CauseTold(c: Config, turns: nat -> Turn, e: Ended)
    requires e.state.payloads != []
  {
    var payloads := e.state.payloads;
    && (e.rethrown ==> Last(payloads).TurnError?)
    && (Last(payloads).TurnError? ==>
          && StartedTurns(payloads) > 0 && Cause(turns(StartedTurns(payloads) - 1)).Some?
          && var cause := Cause(turns(StartedTurns(payloads) - 1)).value;
             && Last(payloads).error == cause.message && (e.rethrown <==> cause.kind.RateLimitFailure?)
             && (!e.rethrown ==> KindTold(e.state.reason, cause.kind) && e.state.errorMessage == Some(cause.message)))
    && (GoesOn(c, Last(payloads)) && FinishedTurns(payloads) < c.maxTurns &&
        turns(FinishedTurns(payloads)).preflight.Some? ==>
          var cause := turns(FinishedTurns(payloads)).preflight.value;
          KindTold(e.state.reason, cause.kind) && e.state.errorMessage == Some(cause.message))
  }

  /** What holds when the loop is left. */
  predicate Settles(c: Config, turns: nat -> Turn, e: Ended) {
    var payloads := e.state.payloads;
    && payloads != [] && Told(c, turns, payloads)
    && e.state.totalCostUSD == AnsweredCosts(turns, StartedTurns(payloads))
    && FinishCosts(payloads) == AnsweredCosts(turns, FinishedTurns(payloads))
    && FinishedTurns(payloads) <= StartedTurns(payloads) <= FinishedTurns(payloads) + 1
    && (e.rethrown || ReasonTold(c, turns, payloads, e.state.reason)) && CauseTold(c, turns, e)
    && (e.state.reason == "success" && !e.rethrown ==>
          e.state.turnIndex == FinishedTurns(payloads) &&
          e.state.finalOutput == if Answers(payloads) && e.state.turnIndex > 0 then turns(e.state.turnIndex - 1).text
            else "")
  }

  lemma HeadSettles(c: Config, turns: nat -> Turn, s: State, e: Ended)
    requires Kept(c, turns, s)
    requires
      || (s.turnIndex >= c.maxTurns && e == Ended(s, false, false))
      || (s.turnIndex < c.maxTurns && HeadStop(c, turns(s.turnIndex), s).Some? &&
          e == Ended(HeadStop(c, turns(s.turnIndex), s).value, false, false))
    ensures Settles(c, turns, e)
  {
    if s.turnIndex < c.maxTurns && turns(s.turnIndex).preflight.Some? {
      ClassifyIsFailure(turns(s.turnIndex).preflight.value.kind);
    }
    NotOnTool(c, s.payloads);
  }

  lemma NotOnTool(c: Config, payloads: seq<Payload>)
    requires payloads != [] && GoesOn(c, Last(payloads))
    ensures !StoppedOnTool(c, payloads)
  {}

  /** Inside the turn that began at `s`, before and after the answer. */
  predicate InsideTurn(c: Config, turns: nat -> Turn, s: State, now: State) {
    && Told(c, turns, now.payloads) && now.payloads != []
    && StartedTurns(now.payloads) == s.turnIndex + 1 && FinishedTurns(now.payloads) == s.turnIndex
    && FinishCosts(now.payloads) == FinishCosts(s.payloads) && FailedInARow(now.payloads) == FailedInARow(s.payloads)
    && now.turnIndex == s.turnIndex
  }

  lemma StartKeeps(c: Config, turns: nat -> Turn, s: State)
    requires Kept(c, turns, s) && s.totalCostUSD < c.maxCostUSD
    ensures InsideTurn(c, turns, s, Started(s))
    ensures TurnResults(Started(s).payloads) == 0 && TurnErrors(Started(s).payloads) == 0
    ensures ToolResults(Started(s).payloads) == ToolResults(s.payloads)
  {
    var p := TurnStart(Whole(s.turnIndex), Whole(s.messageCount));
    SumsSnoc(s.payloads, p);
    RowSnoc(s.payloads, p);
    ToldSnoc(c, turns, s.payloads, p);
  }

  /** A failure inside a turn settles the run, whether the provider had answered or not. */
  lemma FailSettles(c: Config, turns: nat -> Turn, s: State, now: State, f: Failure, callbackFailed: bool)
    requires Told(c, turns, now.payloads) && now.payloads != []
    requires now.totalCostUSD == AnsweredCosts(turns, StartedTurns(now.payloads))
    requires FinishCosts(now.payloads) == AnsweredCosts(turns, FinishedTurns(now.payloads))
    requires FinishedTurns(now.payloads) <= StartedTurns(now.payloads) <= FinishedTurns(now.payloads) + 1
    requires StartedTurns(now.payloads) == s.turnIndex + 1 && Cause(turns(s.turnIndex)) == Some(f)
    ensures Fail(now, f, callbackFailed).Stop? && Settles(c, turns, Fail(now, f, callbackFailed).end)
  {
    var p := TurnError(Whole(now.turnIndex), f.message);
    SumsSnoc(now.payloads, p);
    ToldSnoc(c, turns, now.payloads, p);
    ErrorReason(c, turns, now.payloads + [p], Classify(f.kind), f.kind);
  }

  lemma ErrorReason(c: Config, turns: nat -> Turn, payloads: seq<Payload>, reason: string, kind: FailureKind)
    requires payloads != [] && Last(payloads).TurnError? && reason == Classify(kind)
    ensures reason != "success" && ReasonTold(c, turns, payloads, reason)
  {
    ClassifyIsFailure(kind);
  }

  lemma AnswerKeeps(c: Config, turns: nat -> Turn, s: State)
    requires InsideTurn(c, turns, s, Started(s))
    requires TurnResults(Started(s).payloads) == TurnErrors(Started(s).payloads) == 0
    requires ToolResults(Started(s).payloads) == ToolResults(s.payloads)
    ensures
      var t := turns(s.turnIndex);
      var tools, answered := RunTools(s.turnIndex, t.toolCalls), Answered(c, t, Started(s));
      && InsideTurn(c, turns, s, answered) && answered.totalCostUSD == s.totalCostUSD + t.costUSD
      && (tools.failure.None? ==>
            && TurnResults(answered.payloads) == |t.toolCalls| && TurnErrors(answered.payloads) == tools.errors
            && tools.errors <= |t.toolCalls|
            && ToolResults(answered.payloads) == ToolResults(s.payloads) + |t.toolCalls|
            && answered.messageCount == s.messageCount + 1 + |t.toolCalls|)
  {
    var t := turns(s.turnIndex);
    ToolsRunAdded(c, turns, Started(s).payloads, s.turnIndex, t.toolCalls);
    if RunTools(s.turnIndex, t.toolCalls).failure.None? {
      AllResults(s.turnIndex, t.toolCalls);
    }
  }

  lemma WholeZero(n: nat)
    ensures Whole(n) == Whole(0) <==> n == 0
  {}

  lemma WholeEqual(m: nat, n: nat)
    ensures Whole(m) == Whole(n) <==> m == n
  {}

  /** The state behind the finish event of a turn. */
  function Finishing(c: Config, t: Turn, s: State): State {
    var answered := Answered(c, t, Started(s));
    answered.(payloads := answered.payloads +
                          [TurnFinished(Started(s), t, RunTools(s.turnIndex, t.toolCalls).errors)])
  }

  lemma FinishAdds(c: Config, turns: nat -> Turn, s: State)
    requires Kept(c, turns, s) && s.totalCostUSD < c.maxCostUSD && turns(s.turnIndex).providerFailure.None?
    requires RunTools(s.turnIndex, turns(s.turnIndex).toolCalls).failure.None?
    ensures
      var t := turns(s.turnIndex);
      var f, calls, errors := Finishing(c, t, s), |t.toolCalls|, RunTools(s.turnIndex, t.toolCalls).errors;
      && Told(c, turns, f.payloads) && StartedTurns(f.payloads) == FinishedTurns(f.payloads) == s.turnIndex + 1
      && f.totalCostUSD == FinishCosts(f.payloads) == AnsweredCosts(turns, s.turnIndex + 1)
      && f.messageCount == 2 + (s.turnIndex + 1) + ToolResults(f.payloads)
      && FailedInARow(f.payloads)
         == (if calls == 0 then FailedInARow(s.payloads) else if errors == calls then FailedInARow(s.payloads) + 1
             else 0)
      && Last(f.payloads) == TurnFinished(Started(s), t, errors)
  {
    var t := turns(s.turnIndex);
    StartKeeps(c, turns, s);
    AnswerKeeps(c, turns, s);
    var answered, p := Answered(c, t, Started(s)),
                       TurnFinished(Started(s), t, RunTools(s.turnIndex, t.toolCalls).errors);
    SumsSnoc(answered.payloads, p);
    RowSnoc(answered.payloads, p);
    ToldSnoc(c, turns, answered.payloads, p);
    WholeZero(|t.toolCalls|);
    WholeEqual(RunTools(s.turnIndex, t.toolCalls).errors, |t.toolCalls|);
  }

  lemma ProviderFailureSettles(c: Config, turns: nat -> Turn, s: State)
    requires Kept(c, turns, s) && s.totalCostUSD < c.maxCostUSD && turns(s.turnIndex).providerFailure.Some?
    ensures
      var r := OneTurn(c, turns(s.turnIndex), Started(s));
      r.Stop? && Settles(c, turns, r.end)
  {
    StartKeeps(c, turns, s);
    FailSettles(c, turns, s, Started(s), turns(s.turnIndex).providerFailure.value, false);
  }

  lemma ToolFailureSettles(c: Config, turns: nat -> Turn, s: State)
    requires Kept(c, turns, s) && s.totalCostUSD < c.maxCostUSD && turns(s.turnIndex).providerFailure.None?
    requires RunTools(s.turnIndex, turns(s.turnIndex).toolCalls).failure.Some?
    ensures
      var r := OneTurn(c, turns(s.turnIndex), Started(s));
      r.Stop? && Settles(c, turns, r.end)
  {
    var t := turns(s.turnIndex);
    StartKeeps(c, turns, s);
    AnswerKeeps(c, turns, s);
    ToolFailureIs(s.turnIndex, t.toolCalls);
    FailSettles(c, turns, s, Answered(c, t, Started(s)), RunTools(s.turnIndex, t.toolCalls).failure.value, false);
  }

  lemma CallbackFailureSettles(c: Config, turns: nat -> Turn, s: State)
    requires Kept(c, turns, s) && s.totalCostUSD < c.maxCostUSD && turns(s.turnIndex).providerFailure.None?
    requires RunTools(s.turnIndex, turns(s.turnIndex).toolCalls).failure.None?
    requires turns(s.turnIndex).callbackFailure.Some?
    ensures
      var r := OneTurn(c, turns(s.turnIndex), Started(s));
      r.Stop? && Settles(c, turns, r.end)
  {
    var t := turns(s.turnIndex);
    FinishAdds(c, turns, s);
    ToolFailureIs(s.turnIndex, t.toolCalls);
    FailSettles(c, turns, s, Finishing(c, t, s), t.callbackFailure.value, true);
  }

  lemma TurnSettles(c: Config, turns: nat -> Turn, s: State)
    requires Kept(c, turns, s) && s.totalCostUSD < c.maxCostUSD && s.turnIndex < c.maxTurns
    ensures
      var r := OneTurn(c, turns(s.turnIndex), Started(s));
      if r.Continue? then Kept(c, turns, r.next) else Settles(c, turns, r.end)
  {
    var t := turns(s.turnIndex);
    if t.providerFailure.Some? {
      ProviderFailureSettles(c, turns, s);
    } else if RunTools(s.turnIndex, t.toolCalls).failure.Some? {
      ToolFailureSettles(c, turns, s);
    } else if t.callbackFailure.Some? {
      CallbackFailureSettles(c, turns, s);
    } else {
      FinishedSettles(c, turns, s);
    }
  }

  lemma FinishedSettles(c: Config, turns: nat -> Turn, s: State)
    requires Kept(c, turns, s) && s.totalCostUSD < c.maxCostUSD && turns(s.turnIndex).providerFailure.None?
    requires RunTools(s.turnIndex, turns(s.turnIndex).toolCalls).failure.None?
    requires turns(s.turnIndex).callbackFailure.None?
    ensures
      var r := OneTurn(c, turns(s.turnIndex), Started(s));
      if r.Continue? then Kept(c, turns, r.next) else Settles(c, turns, r.end)
  {
    var t := turns(s.turnIndex);
    FinishAdds(c, turns, s);
    WholeZero(|t.toolCalls|);
    WholeZero(RunTools(s.turnIndex, t.toolCalls).errors);
  }

  lemma {:induction false} LoopSettles(c: Config, turns: nat -> Turn, s: State)
    requires Kept(c, turns, s)
    ensures Settles(c, turns, Loop(c, turns, s))
    decreases c.maxTurns - s.turnIndex
  {
    if s.turnIndex >= c.maxTurns || HeadStop(c, turns(s.turnIndex), s).Some? {
      HeadSettles(c, turns, s, Loop(c, turns, s));
    } else {
      TurnSettles(c, turns, s);
      var r := OneTurn(c, turns(s.turnIndex), Started(s));
      if r.Continue? {
        LoopSettles(c, turns, r.next);
      }
    }
  }

  // ----- the theorems

  /**
   * A run is rethrown exactly when its last turn failed on a rate limit; a turn that failed, or a failed preflight,
   * gives the run the reason and the message of what made it fail.
   */
  lemma FailureTold(c: Config, turns: nat -> Turn)
    ensures Loop(c, turns, Begin(c)).state.payloads != [] && CauseTold(c, turns, Loop(c, turns, Begin(c)))
  {
    RunSettles(c, turns);
  }

  lemma {:induction false} ToldEverywhere(c: Config, turns: nat -> Turn, payloads: seq<Payload>, i: nat)
    requires Told(c, turns, payloads) && i < |payloads|
    ensures TellsNext(c, turns, payloads[..i], payloads[i])
  {
    var n := |payloads| - 1;
    assert payloads == payloads[..n] + [payloads[n]];
    ToldSnoc(c, turns, payloads[..n], payloads[n]);
    if i < n {
      ToldEverywhere(c, turns, payloads[..n], i);
      assert payloads[..n][..i] == payloads[..i];
    }
  }

  lemma RunSettles(c: Config, turns: nat -> Turn)
    ensures Settles(c, turns, Loop(c, turns, Begin(c)))
  {
    BeginKept(c, turns);
    LoopSettles(c, turns, Begin(c));
  }

  lemma RunTold(c: Config, turns: nat -> Turn, durationMs: real)
    ensures Told(c, turns, Payloads(c, turns, durationMs))
  {
    RunSettles(c, turns);
    var e := Loop(c, turns, Begin(c));
    ToldSnoc(c, turns, e.state.payloads, FinishPayload(c, e.state, durationMs));
  }

  /**
   * In every run each turn starts with less than the maximum spent on the turns finished before it and with as many
   * messages as were exchanged, and each finished turn counts its own tool calls and failures.
   */
  lemma EveryTurnTold(c: Config, turns: nat -> Turn, durationMs: real, i: nat)
    requires i < |Payloads(c, turns, durationMs)|
    ensures
      var payloads := Payloads(c, turns, durationMs);
      var before, p := payloads[..i], payloads[i];
      && (p.TurnStart? ==>
            FinishCosts(before) < c.maxCostUSD &&
            p.messageCount == Whole(2 + FinishedTurns(before) + ToolResults(before)))
      && (p.TurnFinish? ==>
            ShowsTurn(p, FinishedTurns(before), turns(FinishedTurns(before))) &&
            p.toolCallsCount == Whole(TurnResults(before)) && p.toolErrorsCount == Whole(TurnErrors(before)))
  {
    RunTold(c, turns, durationMs);
    ToldEverywhere(c, turns, Payloads(c, turns, durationMs), i);
  }

  /** A run that reaches its `run:finish`. */
  predicate Finishes(c: Config, turns: nat -> Turn) {
    !Loop(c, turns, Begin(c)).rethrown
  }

  lemma FinishLast(c: Config, turns: nat -> Turn, durationMs: real)
    requires Finishes(c, turns)
    ensures
      var payloads, e := Payloads(c, turns, durationMs), Loop(c, turns, Begin(c));
      && |payloads| > 0 && payloads == payloads[..|payloads| - 1] + [FinishPayload(c, e.state, durationMs)]
      && payloads[..|payloads| - 1] == e.state.payloads
  {}

  /**
   * The reported cost is what the answered turns cost; where every answered turn was finished it is the sum of the
   * costs that the finish events show.
   */
  lemma ReportedCostIs(c: Config, turns: nat -> Turn, durationMs: real)
    requires Finishes(c, turns)
    ensures
      var payloads := Payloads(c, turns, durationMs);
      && payloads != [] && Last(payloads).RunFinish?
      && Last(payloads).totalCostUSD == Fin(AnsweredCosts(turns, StartedTurns(payloads)))
      && FinishCosts(payloads) == AnsweredCosts(turns, FinishedTurns(payloads))
      && FinishedTurns(payloads) <= StartedTurns(payloads) <= FinishedTurns(payloads) + 1
      && (FinishedTurns(payloads) == StartedTurns(payloads) ||
          turns(StartedTurns(payloads) - 1).providerFailure.Some? ==>
            Last(payloads).totalCostUSD == Fin(FinishCosts(payloads)))
  {
    RunCosts(c, turns);
    FinishSums(c, turns, durationMs);
    var payloads := Payloads(c, turns, durationMs);
    if FinishedTurns(payloads) == StartedTurns(payloads) || turns(StartedTurns(payloads) - 1).providerFailure.Some? {
      CostsAgree(turns, FinishedTurns(payloads), StartedTurns(payloads));
    }
  }

  /** What the loop has spent when it is left, whether or not it is rethrown. */
  lemma RunCosts(c: Config, turns: nat -> Turn)
    ensures
      var e := Loop(c, turns, Begin(c));
      var started, finished := StartedTurns(e.state.payloads), FinishedTurns(e.state.payloads);
      && e.state.totalCostUSD == AnsweredCosts(turns, started) && finished <= started <= finished + 1
      && FinishCosts(e.state.payloads) == AnsweredCosts(turns, finished)
  {
    RunSettles(c, turns);
  }

  /** A turn that its provider failed costs nothing. */
  lemma {:induction false} CostsAgree(turns: nat -> Turn, finished: nat, started: nat)
    requires finished <= started <= finished + 1
    requires finished == started || turns(started - 1).providerFailure.Some?
    ensures AnsweredCosts(turns, started) == AnsweredCosts(turns, finished)
  {}

  /** The `run:finish` adds nothing to the sums of the events before it. */
  lemma FinishSums(c: Config, turns: nat -> Turn, durationMs: real)
    requires Finishes(c, turns)
    ensures
      var payloads, e := Payloads(c, turns, durationMs), Loop(c, turns, Begin(c));
      && payloads != [] && Last(payloads) == FinishPayload(c, e.state, durationMs)
      && FinishCosts(payloads) == FinishCosts(e.state.payloads)
      && StartedTurns(payloads) == StartedTurns(e.state.payloads)
      && FinishedTurns(payloads) == FinishedTurns(e.state.payloads)
  {
    FinishLast(c, turns, durationMs);
    var e := Loop(c, turns, Begin(c));
    SumsSnoc(e.state.payloads, FinishPayload(c, e.state, durationMs));
  }

  /**
   * Why a finished run ended, over the events before its `run:finish`: `budget_exceeded` exactly when the loop was left
   * at its head, not for a preflight failure, with the finished turns' costs at or above the maximum; `tool_error_loop`
   * exactly when it was left there with too many failed turns in a row, or a failed call ended its last turn;
   * `max_turns` exactly when the turns ran out and there is no final output.
   */
  lemma ReasonExactly(c: Config, turns: nat -> Turn, durationMs: real)
    requires Finishes(c, turns)
    ensures
      var payloads := Payloads(c, turns, durationMs);
      var before, reason, n := payloads[..|payloads| - 1], Last(payloads).terminationReason, FinishedTurns(payloads);
      && before != []
      && (reason == "budget_exceeded" <==> StoppedAtHead(c, turns, before) && FinishCosts(before) >= c.maxCostUSD)
      && (reason == "tool_error_loop" <==>
          StoppedOnTool(c, before) ||
          (StoppedAtHead(c, turns, before) && FinishCosts(before) < c.maxCostUSD &&
           FailedInARow(before) >= c.maxConsecutiveToolFailures))
      && (reason == "max_turns" <==>
          n >= c.maxTurns &&
          (GoesOn(c, Last(before)) || (Answers(before) && (n == 0 || turns(n - 1).text == ""))))
      && (reason in {"timeout", "aborted", "error"} <==>
          Last(before).TurnError? ||
          (GoesOn(c, Last(before)) && n < c.maxTurns && turns(n).preflight.Some?))
  {
    RunSettles(c, turns);
    FinishLast(c, turns, durationMs);
    FinishSums(c, turns, durationMs);
    ReasonKept(c, turns, Loop(c, turns, Begin(c)));
  }

  lemma ReasonKept(c: Config, turns: nat -> Turn, e: Ended)
    requires Settles(c, turns, e) && !e.rethrown
    ensures
      var payloads, n := e.state.payloads, FinishedTurns(e.state.payloads);
      && (FinalReason(c, e.state) == "max_turns" <==>
          n >= c.maxTurns &&
          (GoesOn(c, Last(payloads)) || (Answers(payloads) && (n == 0 || turns(n - 1).text == ""))))
      && (FinalReason(c, e.state) != "max_turns" ==> FinalReason(c, e.state) == e.state.reason)
  {}

  lemma BeginKept(c: Config, turns: nat -> Turn)
    ensures Kept(c, turns, Begin(c))
  {
    assert Begin(c).payloads[..0] == [];
  }
}
