/** When every payload of a run is well-formed: clean inputs are enough. */
module RunnerPayloads {
  import opened Base
  import opened Numbers
  import opened ReplayEvents
  import opened RunnerModel
  import opened RunnerTraces

  predicate CleanFailure(f: Option<Failure>) {
    f.Some? ==> Nonblank(f.value.message)
  }

  predicate CleanStep(s: ToolStep) {
    && Nonblank(s.id) && Nonblank(s.name) && CleanFailure(s.before) && CleanFailure(s.during) && CleanFailure(s.after)
    && Nonblank(s.record.toolCallId) && Nonblank(s.record.toolName) && s.record.durationMs >= 0.0
    && (s.record.exitCode.Some? ==> IsSafeInteger(s.record.exitCode.value))
  }

  /** Nonblank identifiers and messages, nonnegative measurements. */
  predicate CleanTurn(t: Turn) {
    && CleanFailure(t.providerFailure) && CleanFailure(t.callbackFailure) && t.costUSD >= 0.0 && t.durationMs >= 0.0
    && Nonblank(t.finishReason)
    && forall i :: 0 <= i < |t.toolCalls| ==> CleanStep(t.toolCalls[i])
  }

  predicate CleanConfig(c: Config) {
    Nonblank(c.runId) && Nonblank(c.scenarioId) && Nonblank(c.modelId) && |c.skillIds| > 0 && AllNonblank(c.skillIds)
  }

  predicate Within(n: Num, bound: int) {
    IsInteger(n) && 0.0 <= n.v <= bound as real
  }

  /** Well-formed but for the size of its counts, which are bounded by `bound` instead. */
  predicate Fine(p: Payload, bound: int) {
    match p
    case TurnStart(turn, messages) => Within(turn, bound) && Within(messages, bound)
    case TurnFinish(turn, cost, duration, calls, errors, reason) =>
      && Within(turn, bound) && FiniteNonnegative(cost) && FiniteNonnegative(duration) && Within(calls, bound)
      && Within(errors, bound)
      && Nonblank(reason)
    case TurnError(turn, error) => Within(turn, bound) && Nonblank(error)
    case ToolDispatch(turn, callId, name, _) => Within(turn, bound) && Nonblank(callId) && Nonblank(name)
    case ToolFinish(turn, callId, name, _, duration, exitCode) =>
      Within(turn, bound) && Nonblank(callId) && Nonblank(name) && FiniteNonnegative(duration) &&
        (exitCode.Some? ==> SafeInteger(exitCode.value))
    case _ => false
  }

  lemma WithinIsCount(n: Num, bound: int)
    requires Within(n, bound) && bound <= MAX_SAFE_INTEGER
    ensures Count(n)
  {
  }

  lemma FineIsOk(runId: string, p: Payload, bound: int)
    requires Fine(p, bound) && bound <= MAX_SAFE_INTEGER
    ensures PayloadOk(runId, p)
  {
    match p
    case TurnStart(turn, messages) => WithinIsCount(turn, bound); WithinIsCount(messages, bound);
    case TurnFinish(turn, _, _, calls, errors, _) =>
      WithinIsCount(turn, bound); WithinIsCount(calls, bound); WithinIsCount(errors, bound);
    case TurnError(turn, _) => WithinIsCount(turn, bound);
    case ToolDispatch(turn, _, _, _) => WithinIsCount(turn, bound);
    case ToolFinish(turn, _, _, _, _, _) => WithinIsCount(turn, bound);
  }

  predicate AllFine(payloads: seq<Payload>, bound: int) {
    forall i :: 0 < i < |payloads| ==> Fine(payloads[i], bound)
  }

  /** A payload list grows only by fine payloads. */
  lemma Grows(payloads: seq<Payload>, p: Payload, bound: int)
    requires |payloads| > 0 && AllFine(payloads, bound) && Fine(p, bound)
    ensures AllFine(payloads + [p], bound)
  {
  }

  lemma WholeWithin(n: nat, bound: int)
    requires n <= bound
    ensures Within(Whole(n), bound)
  {
    assert (n as real).Floor == n;
  }

  lemma WholeSafe(n: int)
    requires IsSafeInteger(n)
    ensures SafeInteger(Whole(n))
  {
    assert (n as real).Floor == n;
  }

  lemma {:induction false} ToolsFine(turn: nat, steps: seq<ToolStep>, bound: int)
    requires turn <= bound && forall i :: 0 <= i < |steps| ==> CleanStep(steps[i])
    ensures forall i :: 0 <= i < |RunTools(turn, steps).payloads| ==> Fine(RunTools(turn, steps).payloads[i], bound)
    ensures CleanFailure(RunTools(turn, steps).failure)
    ensures RunTools(turn, steps).errors <= |steps|
    ensures 2 * RunTools(turn, steps).results <= |RunTools(turn, steps).payloads|
    ensures RunTools(turn, steps).failure.None? ==> |RunTools(turn, steps).payloads| == 2 * |steps|
    decreases |steps|
  {
    if steps != [] {
      var s := steps[0];
      assert CleanStep(s);
      WholeWithin(turn, bound);
      if s.record.exitCode.Some? {
        WholeSafe(s.record.exitCode.value);
      }
      assert Fine(Dispatched(turn, s), bound) && Fine(Finished(turn, s.record), bound);
      ToolsFine(turn, steps[1..], bound);
    }
  }

  /** Enough room: every count of the state is bounded by the events emitted so far. */
  predicate Roomy(s: State) {
    |s.payloads| > 0 && s.turnIndex <= |s.payloads| && s.messageCount <= |s.payloads| + 1 && s.totalCostUSD >= 0.0
  }

  lemma FailFine(s: State, f: Failure, callbackFailed: bool, bound: int)
    requires Roomy(s) && AllFine(s.payloads, bound) && s.turnIndex <= bound && Nonblank(f.message)
    ensures
      var end := Fail(s, f, callbackFailed).end;
      Roomy(end.state) && AllFine(end.state.payloads, bound) && end.state.turnIndex == s.turnIndex &&
        |s.payloads| <= |end.state.payloads|
  {
    WholeWithin(s.turnIndex, bound);
  }

  lemma AnsweredFine(c: Config, t: Turn, s: State, bound: int)
    requires Roomy(s) && s.messageCount <= |s.payloads| && AllFine(s.payloads, bound) && s.turnIndex <= bound
    requires CleanTurn(t)
    ensures Roomy(Answered(c, t, s)) && AllFine(Answered(c, t, s).payloads, bound)
    ensures Answered(c, t, s).turnIndex == s.turnIndex && |s.payloads| <= |Answered(c, t, s).payloads|
  {
    ToolsFine(s.turnIndex, t.toolCalls, bound);
  }

  /** What one turn leaves behind, whether it goes on or stops. */
  function StateAfter(r: TurnResult): State {
    if r.Continue? then r.next else r.end.state
  }

  predicate FineState(s: State, bound: int) {
    Roomy(s) && AllFine(s.payloads, bound)
  }

  lemma ClosingFine(t: Turn, s: State, tools: ToolsRun, bound: int)
    requires CleanTurn(t) && s.turnIndex <= bound && tools == RunTools(s.turnIndex, t.toolCalls) && tools.failure.None?
    requires |t.toolCalls| <= bound
    ensures Fine(TurnFinished(s, t, tools.errors), bound)
  {
    ToolsFine(s.turnIndex, t.toolCalls, bound);
    WholeWithin(s.turnIndex, bound);
    WholeWithin(|t.toolCalls|, bound);
    WholeWithin(tools.errors, bound);
  }

  lemma TurnGrows(c: Config, t: Turn, s: State)
    ensures |s.payloads| <= |StateAfter(OneTurn(c, t, s)).payloads|
    ensures t.providerFailure.None? && RunTools(s.turnIndex, t.toolCalls).failure.None?
            ==> |Answered(c, t, s).payloads| < |StateAfter(OneTurn(c, t, s)).payloads|
  {
  }

  /** A clean turn leaves a fine state. */
  lemma TurnFine(c: Config, t: Turn, s: State, bound: int)
    requires FineState(s, bound) && s.messageCount <= |s.payloads| && CleanTurn(t)
    requires |StateAfter(OneTurn(c, t, s)).payloads| + 1 <= bound
    ensures FineState(StateAfter(OneTurn(c, t, s)), bound)
  {
    TurnGrows(c, t, s);
    if t.providerFailure.Some? {
      FailFine(s, t.providerFailure.value, false, bound);
    } else {
      var tools, answered := RunTools(s.turnIndex, t.toolCalls), Answered(c, t, s);
      ToolsFine(s.turnIndex, t.toolCalls, bound);
      AnsweredFine(c, t, s, bound);
      if tools.failure.Some? {
        FailFine(answered, tools.failure.value, false, bound);
      } else {
        ClosingFine(t, s, tools, bound);
        var finished := answered.(payloads := answered.payloads + [TurnFinished(s, t, tools.errors)]);
        Grows(answered.payloads, TurnFinished(s, t, tools.errors), bound);
        if t.callbackFailure.Some? {
          FailFine(finished, t.callbackFailure.value, true, bound);
        }
      }
    }
  }

  lemma TurnExtends(c: Config, t: Turn, s: State)
    ensures s.payloads <= StateAfter(OneTurn(c, t, s)).payloads
  {
  }

  lemma {:induction false} LoopExtends(c: Config, turns: nat -> Turn, s: State)
    ensures s.payloads <= Loop(c, turns, s).state.payloads
    decreases c.maxTurns - s.turnIndex
  {
    if s.turnIndex < c.maxTurns && HeadStop(c, turns(s.turnIndex), s).None? {
      var r := OneTurn(c, turns(s.turnIndex), Started(s));
      TurnExtends(c, turns(s.turnIndex), Started(s));
      if r.Continue? {
        LoopExtends(c, turns, r.next);
      }
    }
  }

  lemma StartedFine(s: State, bound: int)
    requires FineState(s, bound) && |s.payloads| + 1 <= bound
    ensures FineState(Started(s), bound) && Started(s).messageCount <= |Started(s).payloads|
  {
    WholeWithin(s.turnIndex, bound);
    WholeWithin(s.messageCount, bound);
    Grows(s.payloads, TurnStart(Whole(s.turnIndex), Whole(s.messageCount)), bound);
  }

  lemma {:induction false} LoopFine(c: Config, turns: nat -> Turn, s: State, bound: int)
    requires FineState(s, bound) && (forall k :: CleanTurn(turns(k)))
    requires |Loop(c, turns, s).state.payloads| + 1 <= bound
    ensures FineState(Loop(c, turns, s).state, bound)
    decreases c.maxTurns - s.turnIndex
  {
    if s.turnIndex < c.maxTurns && HeadStop(c, turns(s.turnIndex), s).None? {
      var t := turns(s.turnIndex);
      var r := OneTurn(c, t, Started(s));
      LoopExtends(c, turns, s);
      if r.Continue? {
        LoopExtends(c, turns, r.next);
      }
      StartedFine(s, bound);
      TurnFine(c, t, Started(s), bound);
      if r.Continue? {
        LoopFine(c, turns, r.next, bound);
      }
    }
  }

  lemma BeginFine(c: Config, bound: int)
    ensures FineState(Begin(c), bound)
  {
  }

  lemma {:induction false} LoopReason(c: Config, turns: nat -> Turn, s: State)
    requires s.reason in TERMINATION_REASONS
    ensures Loop(c, turns, s).state.reason in TERMINATION_REASONS
    decreases c.maxTurns - s.turnIndex
  {
    if s.turnIndex < c.maxTurns {
      var t := turns(s.turnIndex);
      if HeadStop(c, t, s).None? {
        TurnReason(c, t, Started(s));
        var r := OneTurn(c, t, Started(s));
        if r.Continue? {
          LoopReason(c, turns, r.next);
        }
      }
    }
  }

  lemma TurnReason(c: Config, t: Turn, s: State)
    requires s.reason in TERMINATION_REASONS
    ensures StateAfter(OneTurn(c, t, s)).reason in TERMINATION_REASONS
  {
  }

  lemma FinishOk(c: Config, s: State, durationMs: real)
    requires CleanConfig(c) && FineState(s, MAX_SAFE_INTEGER) && s.reason in TERMINATION_REASONS && durationMs >= 0.0
    requires |s.payloads| < MAX_SAFE_INTEGER
    ensures PayloadOk(c.runId, FinishPayload(c, s, durationMs))
  {
    WholeWithin(s.turnIndex, MAX_SAFE_INTEGER);
    WithinIsCount(Whole(s.turnIndex), MAX_SAFE_INTEGER);
  }

  lemma StateOk(c: Config, s: State)
    requires CleanConfig(c) && FineState(s, MAX_SAFE_INTEGER) && Begin(c).payloads <= s.payloads
    ensures AllOk(c.runId, s.payloads)
  {
    forall i | 0 <= i < |s.payloads| ensures PayloadOk(c.runId, s.payloads[i]) {
      if i == 0 {
        assert s.payloads[0] == Begin(c).payloads[0];
      } else {
        FineIsOk(c.runId, s.payloads[i], MAX_SAFE_INTEGER);
      }
    }
  }

  /** With clean inputs every payload of a run is well-formed. */
  lemma CleanRunOk(c: Config, turns: nat -> Turn, durationMs: real)
    requires CleanConfig(c) && (forall k :: CleanTurn(turns(k))) && durationMs >= 0.0
    requires |Payloads(c, turns, durationMs)| < MAX_SAFE_INTEGER
    ensures AllOk(c.runId, Payloads(c, turns, durationMs))
  {
    var s := Loop(c, turns, Begin(c)).state;
    BeginFine(c, MAX_SAFE_INTEGER);
    LoopFine(c, turns, Begin(c), MAX_SAFE_INTEGER);
    LoopReason(c, turns, Begin(c));
    LoopExtends(c, turns, Begin(c));
    StateOk(c, s);
    FinishOk(c, s, durationMs);
  }

  /** Every clean run that reaches its `run:finish` emits a trace the validator accepts. */
  lemma CleanTraceAccepted(c: Config, turns: nat -> Turn, durationMs: real, clock: nat -> int)
    requires CleanConfig(c) && (forall k :: CleanTurn(turns(k))) && durationMs >= 0.0 && TicksUp(clock)
    requires !Loop(c, turns, Begin(c)).rethrown && |Payloads(c, turns, durationMs)| < MAX_SAFE_INTEGER
    ensures CanonicalTrace(Stamp(c.runId, Payloads(c, turns, durationMs), clock))
  {
    CleanRunOk(c, turns, durationMs);
    FinishedTraceAccepted(c, turns, durationMs, clock);
  }
}
