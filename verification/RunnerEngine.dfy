/** `ScenarioRunnerEngine`: the imperative turn loop and its event scribe, against the step machine. */
module RunnerEngine {
  import opened Base
  import opened Numbers
  import opened ReplayEvents
  import opened RunnerModel

  datatype ScenarioResult = ScenarioResult(terminationReason: string, completed: bool, turns: nat, finalOutput: string,
                                           totalCostUSD: real, consecutiveToolErrors: nat, errorMessage: Option<string>)

  /** `EventScribe`: numbers its events from one; `clock` gives the time of each emission. */
  class EventScribe {
    const runId: string
    const clock: nat -> int
    var sequenceNumber: nat
    var events: seq<Event>
    ghost var payloads: seq<Payload>

    ghost predicate Valid()
      reads this
    {
      sequenceNumber == |payloads| && events == Stamp(runId, payloads, clock)
    }

    constructor (runId: string, clock: nat -> int)
      ensures Valid() && payloads == [] && this.runId == runId && this.clock == clock
    {
      this.runId, this.clock := runId, clock;
      sequenceNumber := 0;
      events := [];
      payloads := [];
    }

    method Emit(payload: Payload)
      requires Valid()
      modifies this
      ensures Valid() && payloads == old(payloads) + [payload]
    {
      sequenceNumber := sequenceNumber + 1;
      events := events + [Event(runId, sequenceNumber, clock(sequenceNumber - 1), payload)];
      payloads := payloads + [payload];
    }
  }

  /** A run of tools whose first events are already out. */
  function Behind(payloads: seq<Payload>, errors: nat, results: nat, rest: ToolsRun): ToolsRun {
    ToolsRun(payloads + rest.payloads, errors + rest.errors, results + rest.results, rest.failure)
  }

  lemma Regroup(done: seq<Payload>, p: Payload, q: Payload, rest: seq<Payload>)
    ensures done + ([p, q] + rest) == done + [p] + [q] + rest
  {
  }

  lemma BehindStep(turn: nat, done: seq<Payload>, errors: nat, results: nat, steps: seq<ToolStep>)
    requires steps != [] && steps[0].before.None? && steps[0].during.None? && steps[0].after.None?
    ensures Behind(done, errors, results, RunTools(turn, steps))
            == Behind(done + [Dispatched(turn, steps[0])] + [Finished(turn, steps[0].record)],
                      errors + (if steps[0].record.isError then 1 else 0), results + 1, RunTools(turn, steps[1..]))
  {
    var first, second, rest := Dispatched(turn, steps[0]), Finished(turn, steps[0].record), RunTools(turn, steps[1..]);
    assert RunTools(turn, steps).payloads == [first, second] + rest.payloads;
    Regroup(done, first, second, rest.payloads);
  }

  /** The loop over the tool calls of a turn; a failure stops it. */
  method DispatchTools(scribe: EventScribe, turnIndex: nat, toolCalls: seq<ToolStep>)
    returns (toolErrorsCount: nat, results: nat, failure: Option<Failure>)
    requires scribe.Valid()
    modifies scribe
    ensures scribe.Valid()
    ensures scribe.payloads == old(scribe.payloads) + RunTools(turnIndex, toolCalls).payloads
    ensures toolErrorsCount == RunTools(turnIndex, toolCalls).errors
    ensures results == RunTools(turnIndex, toolCalls).results
    ensures failure == RunTools(turnIndex, toolCalls).failure
  {
    toolErrorsCount, results, failure := 0, 0, None;
    ghost var done: seq<Payload> := [];
    assert toolCalls[0..] == toolCalls;
    for i := 0 to |toolCalls|
      invariant scribe.Valid() && scribe.payloads == old(scribe.payloads) + done && failure == None
      invariant RunTools(turnIndex, toolCalls)
                == Behind(done, toolErrorsCount, results, RunTools(turnIndex, toolCalls[i..]))
    {
      var toolCall := toolCalls[i];
      var rest := toolCalls[i..];
      assert rest[0] == toolCall && rest[1..] == toolCalls[i + 1..];
      if toolCall.before.Some? {
        failure := toolCall.before;
        assert done + [] == done;
        return;
      }
      scribe.Emit(Dispatched(turnIndex, toolCall));
      if toolCall.during.Some? {
        failure := toolCall.during;
        return;
      }
      ghost var errorsBefore := toolErrorsCount;
      if toolCall.record.isError {
        toolErrorsCount := toolErrorsCount + 1;
      }
      scribe.Emit(Finished(turnIndex, toolCall.record));
      if toolCall.after.Some? {
        failure := toolCall.after;
        assert done + [Dispatched(turnIndex, toolCall)] + [Finished(turnIndex, toolCall.record)]
            == done + [Dispatched(turnIndex, toolCall), Finished(turnIndex, toolCall.record)];
        return;
      }
      BehindStep(turnIndex, done, errorsBefore, results, rest);
      done := done + [Dispatched(turnIndex, toolCall)] + [Finished(turnIndex, toolCall.record)];
      results := results + 1;
    }
    assert done + [] == done;
  }

  /** How a turn goes on: with the next one, by leaving the loop, or by rethrowing. */
  datatype Control = GoOn | LeaveLoop | Rethrow

  /** The variables of one `runWithinScenario` call. */
  class ScenarioRun {
    const config: Config
    const scribe: EventScribe
    var turnIndex: nat
    var totalCostUSD: real
    var consecutiveToolErrors: nat
    var terminationReason: string
    var finalOutput: string
    var errorMessage: Option<string>
    var messageCount: nat

    ghost function View(): State
      reads this, scribe
    {
      State(turnIndex, totalCostUSD, consecutiveToolErrors, terminationReason, finalOutput, errorMessage, messageCount,
            scribe.payloads)
    }

    constructor (config: Config, clock: nat -> int)
      ensures scribe.Valid() && fresh(scribe) && scribe.runId == config.runId && scribe.clock == clock
      ensures this.config == config && View() == Begin(config)
    {
      this.config := config;
      scribe := new EventScribe(config.runId, clock);
      turnIndex, messageCount, consecutiveToolErrors, totalCostUSD := 0, 2, 0, 0.0;
      terminationReason, finalOutput, errorMessage := "success", "", None;
      new;
      scribe.Emit(RunStart(config.runId, config.scenarioId, config.modelId, config.skillIds));
    }

    /** The checks at the head of the loop. */
    method StopsAtHead(t: Turn) returns (stops: bool)
      modifies this
      ensures stops <==> HeadStop(config, t, old(View())).Some?
      ensures View() == if stops then HeadStop(config, t, old(View())).value else old(View())
    {
      if t.preflight.Some? {
        terminationReason := Classify(t.preflight.value.kind);
        errorMessage := Some(t.preflight.value.message);
        return true;
      }
      if totalCostUSD >= config.maxCostUSD {
        terminationReason := "budget_exceeded";
        return true;
      }
      if consecutiveToolErrors >= config.maxConsecutiveToolFailures {
        terminationReason := "tool_error_loop";
        return true;
      }
      return false;
    }

    /** The provider's answer: its cost, its tool calls, and what they mean for the run. */
    method TakeAnswer(t: Turn) returns (toolErrorsCount: nat, failure: Option<Failure>, shouldStopOnToolFailure: bool)
      requires scribe.Valid()
      modifies this, scribe
      ensures scribe.Valid() && View() == Answered(config, t, old(View()))
      ensures toolErrorsCount == RunTools(turnIndex, t.toolCalls).errors
      ensures failure == RunTools(turnIndex, t.toolCalls).failure
      ensures failure.None? ==>
              (shouldStopOnToolFailure <==> StopsOnToolFailure(config, t, RunTools(turnIndex, t.toolCalls)))
    {
      totalCostUSD := totalCostUSD + t.costUSD;
      messageCount := messageCount + 1;
      shouldStopOnToolFailure := false;
      var results;
      toolErrorsCount, results, failure := DispatchTools(scribe, turnIndex, t.toolCalls);
      messageCount := messageCount + results;
      if failure.Some? {
        return;
      }
      if |t.toolCalls| > 0 {
        consecutiveToolErrors := if toolErrorsCount == |t.toolCalls| then consecutiveToolErrors + 1 else 0;
        if config.stopOnToolFailures && toolErrorsCount > 0 {
          terminationReason := "tool_error_loop";
          shouldStopOnToolFailure := true;
        }
      } else {
        finalOutput := t.text;
        terminationReason := "success";
      }
    }

    /** The `catch` of a turn. */
    method Catch(f: Failure, ghost callbackFailed: bool) returns (control: Control)
      requires scribe.Valid()
      modifies this, scribe
      ensures scribe.Valid() && control != GoOn
      ensures Fail(old(View()), f, callbackFailed) == Stop(Ended(View(), control == Rethrow, callbackFailed))
    {
      scribe.Emit(TurnError(Whole(turnIndex), f.message));
      if f.kind.RateLimitFailure? {
        return Rethrow;
      }
      terminationReason := Classify(f.kind);
      errorMessage := Some(f.message);
      return LeaveLoop;
    }

    /** The body of the loop behind its `turn:start`. */
    method ExecuteTurn(t: Turn) returns (control: Control, ghost callbackFailed: bool)
      requires scribe.Valid()
      modifies this, scribe
      ensures scribe.Valid()
      ensures OneTurn(config, t, old(View()))
              == if control == GoOn then Continue(View()) else Stop(Ended(View(), control == Rethrow, callbackFailed))
    {
      callbackFailed := false;
      if t.providerFailure.Some? {
        control := Catch(t.providerFailure.value, false);
        return;
      }
      var toolErrorsCount, failure, shouldStopOnToolFailure := TakeAnswer(t);
      if failure.Some? {
        control := Catch(failure.value, false);
        return;
      }
      scribe.Emit(TurnFinish(Whole(turnIndex), Fin(t.costUSD), Fin(t.durationMs), Whole(|t.toolCalls|),
                             Whole(toolErrorsCount), t.finishReason));
      if t.callbackFailure.Some? {
        callbackFailed := true;
        control := Catch(t.callbackFailure.value, true);
        return;
      }
      turnIndex := turnIndex + 1;
      control := if |t.toolCalls| == 0 || shouldStopOnToolFailure then LeaveLoop else GoOn;
    }

    /** `while (turnIndex < maxTurns)` */
    method RunTurns(turns: nat -> Turn) returns (rethrown: bool, ghost callbackFailed: bool)
      requires scribe.Valid()
      modifies this, scribe
      ensures scribe.Valid()
      ensures Loop(config, turns, old(View())) == Ended(View(), rethrown, callbackFailed)
    {
      rethrown, callbackFailed := false, false;
      while turnIndex < config.maxTurns
        invariant scribe.Valid() && !rethrown && !callbackFailed
        invariant Loop(config, turns, View()) == Loop(config, turns, old(View()))
        decreases config.maxTurns - turnIndex
      {
        var t := turns(turnIndex);
        var stops := StopsAtHead(t);
        if stops {
          return;
        }
        scribe.Emit(TurnStart(Whole(turnIndex), Whole(messageCount)));
        var control;
        control, callbackFailed := ExecuteTurn(t);
        if control != GoOn {
          rethrown := control == Rethrow;
          return;
        }
        callbackFailed := false;
      }
    }
  }

  /** `runWithinScenario`: the events of the step machine, and its result unless a rate limit is rethrown. */
  method RunWithinScenario(c: Config, turns: nat -> Turn, durationMs: real, clock: nat -> int)
    returns (events: seq<Event>, result: Option<ScenarioResult>)
    ensures events == Stamp(c.runId, Payloads(c, turns, durationMs), clock)
    ensures result == ResultOf(c, Loop(c, turns, Begin(c)))
  {
    var run := new ScenarioRun(c, clock);
    var rethrown, callbackFailed := run.RunTurns(turns);
    if rethrown {
      return run.scribe.events, None;
    }
    if run.turnIndex >= c.maxTurns && run.terminationReason == "success" && |run.finalOutput| == 0 {
      run.terminationReason := "max_turns";
    }
    var completed := run.terminationReason == "success";
    run.scribe.Emit(RunFinish(c.runId, run.terminationReason, Fin(durationMs), Fin(run.totalCostUSD),
                              Whole(run.turnIndex), completed));
    events := run.scribe.events;
    result := Some(ScenarioResult(run.terminationReason, completed, run.turnIndex, run.finalOutput, run.totalCostUSD,
                                  run.consecutiveToolErrors, run.errorMessage));
  }

  /** What the caller gets: nothing when the loop rethrows. */
  function ResultOf(c: Config, end: Ended): Option<ScenarioResult> {
    var s, reason := end.state, FinalReason(c, end.state);
    if end.rethrown then None
    else Some(ScenarioResult(reason, reason == "success", s.turnIndex, s.finalOutput, s.totalCostUSD,
                             s.consecutiveToolErrors, s.errorMessage))
  }
}
