/** The turn loop of a scenario run as a step machine over what its environment does. */
module RunnerModel {
  import opened Base
  import opened Numbers
  import opened ReplayEvents

  datatype FailureKind = TimeoutFailure | AbortFailure | RateLimitFailure | OtherFailure

  datatype Failure = Failure(kind: FailureKind, message: string)

  datatype ToolRecord = ToolRecord(toolCallId: string, toolName: string, isError: bool, durationMs: real,
                                   exitCode: Option<int>)

  /**
   * One requested tool call and what happens to it: a failure before its dispatch event, one while it is dispatched
   * or right after, or one in the callback behind its finish event.
   */
  datatype ToolStep = ToolStep(id: string, name: string, arguments: string, before: Option<Failure>,
                               during: Option<Failure>, record: ToolRecord, after: Option<Failure>)

  /** What the environment does in one turn: the provider fails or answers, and the completion callback may throw. */
  datatype Turn = Turn(preflight: Option<Failure>, providerFailure: Option<Failure>, text: string,
                       toolCalls: seq<ToolStep>, costUSD: real, durationMs: real, finishReason: string,
                       callbackFailure: Option<Failure>)

  datatype Config = Config(runId: string, scenarioId: string, modelId: string, skillIds: seq<string>, maxTurns: int,
                           maxCostUSD: real, maxConsecutiveToolFailures: int, stopOnToolFailures: bool)

  datatype State = State(turnIndex: nat, totalCostUSD: real, consecutiveToolErrors: nat, reason: string,
                         finalOutput: string, errorMessage: Option<string>, messageCount: nat, payloads: seq<Payload>)

  /** How the loop was left: with an error to rethrow, or because a completion callback threw. */
  datatype Ended = Ended(state: State, rethrown: bool, callbackFailed: bool)

  datatype TurnResult = Continue(next: State) | Stop(end: Ended)

  /** `classifyTurnFailure` */
  function Classify(kind: FailureKind): string {
    match kind
    case TimeoutFailure => "timeout"
    case AbortFailure => "aborted"
    case _ => "error"
  }

  function Whole(n: int): Num {
    Fin(n as real)
  }

  // ----- the tool calls of a turn

  datatype ToolsRun = ToolsRun(payloads: seq<Payload>, errors: nat, results: nat, failure: Option<Failure>)

  function Dispatched(turn: nat, s: ToolStep): Payload {
    ToolDispatch(Whole(turn), s.id, s.name, s.arguments)
  }

  function Finished(turn: nat, r: ToolRecord): Payload {
    ToolFinish(Whole(turn), r.toolCallId, r.toolName, r.isError, Fin(r.durationMs),
               if r.exitCode.Some? then Some(Whole(r.exitCode.value)) else None)
  }

  function RunTools(turn: nat, steps: seq<ToolStep>): ToolsRun {
    if steps == [] then ToolsRun([], 0, 0, None)
    else
      var s := steps[0];
      if s.before.Some? then ToolsRun([], 0, 0, s.before)
      else if s.during.Some? then ToolsRun([Dispatched(turn, s)], 0, 0, s.during)
      else
        var errors := if s.record.isError then 1 else 0;
        if s.after.Some? then ToolsRun([Dispatched(turn, s), Finished(turn, s.record)], errors, 0, s.after)
        else
          var rest := RunTools(turn, steps[1..]);
          ToolsRun([Dispatched(turn, s), Finished(turn, s.record)] + rest.payloads, errors + rest.errors,
                   1 + rest.results, rest.failure)
  }

  // ----- one turn

  /** The `catch` of a turn. */
  function Fail(s: State, f: Failure, callbackFailed: bool): TurnResult {
    var failed := s.(payloads := s.payloads + [TurnError(Whole(s.turnIndex), f.message)]);
    if f.kind.RateLimitFailure? then Stop(Ended(failed, true, callbackFailed))
    else Stop(Ended(failed.(reason := Classify(f.kind), errorMessage := Some(f.message)), false, callbackFailed))
  }

  predicate StopsOnToolFailure(c: Config, t: Turn, tools: ToolsRun) {
    |t.toolCalls| > 0 && c.stopOnToolFailures && tools.errors > 0
  }

  /** The state once the provider has answered and every tool call has been worked through. */
  function Answered(c: Config, t: Turn, s: State): State {
    var tools := RunTools(s.turnIndex, t.toolCalls);
    var spent := s.(totalCostUSD := s.totalCostUSD + t.costUSD, messageCount := s.messageCount + 1 + tools.results,
                    payloads := s.payloads + tools.payloads);
    if tools.failure.Some? then spent
    else if |t.toolCalls| > 0 then
      spent.(consecutiveToolErrors := if tools.errors == |t.toolCalls| then s.consecutiveToolErrors + 1 else 0,
             reason := if StopsOnToolFailure(c, t, tools) then "tool_error_loop" else s.reason)
    else spent.(finalOutput := t.text, reason := "success")
  }

  function TurnFinished(s: State, t: Turn, errors: nat): Payload {
    TurnFinish(Whole(s.turnIndex), Fin(t.costUSD), Fin(t.durationMs), Whole(|t.toolCalls|), Whole(errors),
               t.finishReason)
  }

  /** The body of the loop after its `turn:start`. */
  function OneTurn(c: Config, t: Turn, s: State): (r: TurnResult)
    ensures r.Continue? ==> r.next.turnIndex == s.turnIndex + 1
  {
    if t.providerFailure.Some? then Fail(s, t.providerFailure.value, false)
    else
      var tools := RunTools(s.turnIndex, t.toolCalls);
      var answered := Answered(c, t, s);
      if tools.failure.Some? then Fail(answered, tools.failure.value, false)
      else
        var finished := answered.(payloads := answered.payloads + [TurnFinished(s, t, tools.errors)]);
        if t.callbackFailure.Some? then Fail(finished, t.callbackFailure.value, true)
        else
          var next := finished.(turnIndex := s.turnIndex + 1);
          if |t.toolCalls| == 0 || StopsOnToolFailure(c, t, tools) then Stop(Ended(next, false, false))
            else Continue(next)
  }

  // ----- the loop and the run

  /** The checks at the head of the loop; `None` lets the turn start. */
  function HeadStop(c: Config, t: Turn, s: State): Option<State> {
    if t.preflight.Some? then Some(s.(reason := Classify(t.preflight.value.kind),
                                      errorMessage := Some(t.preflight.value.message)))
    else if s.totalCostUSD >= c.maxCostUSD then Some(s.(reason := "budget_exceeded"))
    else if s.consecutiveToolErrors >= c.maxConsecutiveToolFailures then Some(s.(reason := "tool_error_loop"))
    else None
  }

  function Started(s: State): State {
    s.(payloads := s.payloads + [TurnStart(Whole(s.turnIndex), Whole(s.messageCount))])
  }

  /** `while (turnIndex < maxTurns)`; `turns` is what the environment does in each turn. */
  function Loop(c: Config, turns: nat -> Turn, s: State): Ended
    decreases c.maxTurns - s.turnIndex
  {
    if s.turnIndex >= c.maxTurns then Ended(s, false, false)
    else
      var t := turns(s.turnIndex);
      var head := HeadStop(c, t, s);
      if head.Some? then Ended(head.value, false, false)
      else
        var r := OneTurn(c, t, Started(s));
        if r.Stop? then r.end else Loop(c, turns, r.next)
  }

  function Begin(c: Config): State {
    State(0, 0.0, 0, "success", "", None, 2, [RunStart(c.runId, c.scenarioId, c.modelId, c.skillIds)])
  }

  /** A run out of turns that never produced a final output is not a success. */
  function FinalReason(c: Config, s: State): string {
    if s.turnIndex >= c.maxTurns && s.reason == "success" && s.finalOutput == "" then "max_turns" else s.reason
  }

  function FinishPayload(c: Config, s: State, durationMs: real): Payload {
    RunFinish(c.runId, FinalReason(c, s), Fin(durationMs), Fin(s.totalCostUSD), Whole(s.turnIndex),
              FinalReason(c, s) == "success")
  }

  /** Everything the run emits; a rethrown rate limit leaves no `run:finish`. */
  function Payloads(c: Config, turns: nat -> Turn, durationMs: real): seq<Payload> {
    var end := Loop(c, turns, Begin(c));
    if end.rethrown then end.state.payloads else end.state.payloads + [FinishPayload(c, end.state, durationMs)]
  }

  /** `EventScribe`: numbers from one, a timestamp for each event. */
  function Stamp(runId: string, payloads: seq<Payload>, clock: nat -> int): (events: seq<Event>)
    ensures |events| == |payloads|
    ensures forall i :: 0 <= i < |events| ==> events[i] == Event(runId, i + 1, clock(i), payloads[i])
  {
    seq(|payloads|, i requires 0 <= i < |payloads| => Event(runId, i + 1, clock(i), payloads[i]))
  }
}
