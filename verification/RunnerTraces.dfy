/** What every run of the turn loop emits, and what its result means. */
module RunnerTraces {
  import opened Base
  import opened ReplayEvents
  import opened RunnerModel

  // ----- the shape of a trace

  /** Between two turns, inside one, or out of order. */
  datatype Phase = Resting(next: nat) | InTurn(turn: nat) | Broken

  function NextPhase(before: Phase, p: Payload, first: bool): Phase {
    match p
    case RunStart(_, _, _, _) => if first then Resting(0) else Broken
    case TurnStart(turn, _) => if before.Resting? && turn == Whole(before.next) then InTurn(before.next) else Broken
    case ToolDispatch(turn, _, _, _) => if before.InTurn? && turn == Whole(before.turn) then before else Broken
    case ToolFinish(turn, _, _, _, _, _) => if before.InTurn? && turn == Whole(before.turn) then before else Broken
    case TurnFinish(turn, _, _, _, _, _) =>
      if before.InTurn? && turn == Whole(before.turn) then Resting(before.turn + 1) else Broken
    case TurnError(turn, _) => if before.InTurn? && turn == Whole(before.turn) then Resting(before.turn + 1) else Broken
    case RunFinish(_, _, _, _, _, _) => if before.Resting? then before else Broken
    case _ => Broken
  }

  /**
   * Turns are numbered from zero, each start is closed by exactly one finish or error, and tool events lie inside their
   * turn.
   */
  function PhaseOf(payloads: seq<Payload>): Phase {
    if payloads == [] then Broken
    else NextPhase(PhaseOf(payloads[..|payloads| - 1]), payloads[|payloads| - 1], |payloads| == 1)
  }

  predicate TurnsClosedOnce(payloads: seq<Payload>) {
    PhaseOf(payloads).Resting?
  }

  function FinishedTurns(payloads: seq<Payload>): nat {
    if payloads == [] then 0
    else FinishedTurns(payloads[..|payloads| - 1]) + if payloads[|payloads| - 1].TurnFinish? then 1 else 0
  }

  predicate IsMiddle(p: Payload) {
    p.TurnStart? || p.TurnFinish? || p.TurnError? || p.ToolDispatch? || p.ToolFinish?
  }

  /** A `run:start`, then turn and tool events only. */
  predicate Unfinished(payloads: seq<Payload>) {
    |payloads| > 0 && payloads[0].RunStart? && forall i :: 0 < i < |payloads| ==> IsMiddle(payloads[i])
  }

  /** The last event is the finish of a turn that made no tool call. */
  predicate EndsInAnswer(payloads: seq<Payload>) {
    |payloads| > 0 && payloads[|payloads| - 1].TurnFinish? && payloads[|payloads| - 1].toolCallsCount == Whole(0)
  }

  lemma Appended(payloads: seq<Payload>, p: Payload)
    requires payloads != []
    ensures PhaseOf(payloads + [p]) == NextPhase(PhaseOf(payloads), p, false)
    ensures FinishedTurns(payloads + [p]) == FinishedTurns(payloads) + if p.TurnFinish? then 1 else 0
    ensures Unfinished(payloads) && IsMiddle(p) ==> Unfinished(payloads + [p])
  {
    assert (payloads + [p])[..|payloads|] == payloads;
  }

  /** Inside a turn, with as many finished turns as before. */
  predicate Inside(payloads: seq<Payload>, turn: nat, finished: nat) {
    Unfinished(payloads) && PhaseOf(payloads) == InTurn(turn) && FinishedTurns(payloads) == finished
  }

  lemma ToolEventAppended(payloads: seq<Payload>, p: Payload, turn: nat, finished: nat)
    requires Inside(payloads, turn, finished)
    requires (p.ToolDispatch? && p.turnIndex == Whole(turn)) || (p.ToolFinish? && p.turnIndex == Whole(turn))
    ensures Inside(payloads + [p], turn, finished)
  {
    Appended(payloads, p);
  }

  /** Tool events of the current turn leave its phase and its finish count. */
  lemma {:induction false} ToolsAppended(payloads: seq<Payload>, turn: nat, steps: seq<ToolStep>, finished: nat)
    requires Inside(payloads, turn, finished)
    ensures Inside(payloads + RunTools(turn, steps).payloads, turn, finished)
    decreases |steps|
  {
    if steps == [] || steps[0].before.Some? {
      assert payloads + [] == payloads;
    } else {
      var first, second := Dispatched(turn, steps[0]), Finished(turn, steps[0].record);
      ToolEventAppended(payloads, first, turn, finished);
      if steps[0].during.None? {
        ToolEventAppended(payloads + [first], second, turn, finished);
        assert payloads + [first, second] == payloads + [first] + [second];
        if steps[0].after.None? {
          var rest := RunTools(turn, steps[1..]).payloads;
          ToolsAppended(payloads + [first] + [second], turn, steps[1..], finished);
          assert payloads + ([first, second] + rest) == payloads + [first] + [second] + rest;
        }
      }
    }
  }

  // ----- what the loop keeps

  /** The state between two turns. */
  predicate Between(s: State) {
    && Unfinished(s.payloads) && PhaseOf(s.payloads) == Resting(s.turnIndex) && FinishedTurns(s.payloads) == s.turnIndex
    && s.reason == "success" && s.finalOutput == "" && !EndsInAnswer(s.payloads)
  }

  /** The state in which the loop is left. */
  predicate Left(c: Config, e: Ended) {
    && Unfinished(e.state.payloads)
    && (TurnsClosedOnce(e.state.payloads) <==> !e.callbackFailed)
    && FinishedTurns(e.state.payloads) == e.state.turnIndex + (if e.callbackFailed then 1 else 0)
    && (e.rethrown ||
        (FinalReason(c, e.state) == "success" <==>
         EndsInAnswer(e.state.payloads) && (e.state.finalOutput != "" || e.state.turnIndex < c.maxTurns)))
  }

  lemma ClassifyIsFailure(kind: FailureKind)
    ensures Classify(kind) in {"timeout", "aborted", "error"}
  {
  }

  /** A turn that fails before its finish is closed by its error alone. */
  lemma FailInTurn(c: Config, s: State, f: Failure)
    requires Unfinished(s.payloads) && PhaseOf(s.payloads) == InTurn(s.turnIndex)
    requires FinishedTurns(s.payloads) == s.turnIndex
    ensures Fail(s, f, false).Stop? && Left(c, Fail(s, f, false).end)
  {
    Appended(s.payloads, TurnError(Whole(s.turnIndex), f.message));
  }

  /** A callback that throws behind the finish of a turn closes that turn twice. */
  lemma FailAfterFinish(c: Config, s: State, f: Failure)
    requires Unfinished(s.payloads) && PhaseOf(s.payloads) == Resting(s.turnIndex + 1)
    requires FinishedTurns(s.payloads) == s.turnIndex + 1
    ensures Fail(s, f, true).Stop? && Left(c, Fail(s, f, true).end)
  {
    Appended(s.payloads, TurnError(Whole(s.turnIndex), f.message));
  }

  lemma StartedInTurn(s: State)
    requires Between(s)
    ensures Unfinished(Started(s).payloads) && PhaseOf(Started(s).payloads) == InTurn(s.turnIndex)
    ensures FinishedTurns(Started(s).payloads) == s.turnIndex
  {
    Appended(s.payloads, TurnStart(Whole(s.turnIndex), Whole(s.messageCount)));
  }

  lemma AnsweredInTurn(c: Config, t: Turn, s: State)
    requires Unfinished(s.payloads) && PhaseOf(s.payloads) == InTurn(s.turnIndex)
    requires FinishedTurns(s.payloads) == s.turnIndex
    ensures Unfinished(Answered(c, t, s).payloads) && PhaseOf(Answered(c, t, s).payloads) == InTurn(s.turnIndex)
    ensures FinishedTurns(Answered(c, t, s).payloads) == s.turnIndex && Answered(c, t, s).turnIndex == s.turnIndex
    ensures |t.toolCalls| > 0 ==> Answered(c, t, s).finalOutput == s.finalOutput
    ensures |t.toolCalls| > 0 && !StopsOnToolFailure(c, t, RunTools(s.turnIndex, t.toolCalls)) ==>
            Answered(c, t, s).reason == s.reason
    ensures |t.toolCalls| == 0 ==> Answered(c, t, s).finalOutput == t.text && Answered(c, t, s).reason == "success"
  {
    ToolsAppended(s.payloads, s.turnIndex, t.toolCalls, s.turnIndex);
  }

  lemma TurnKeeps(c: Config, t: Turn, s: State)
    requires Between(s) && s.turnIndex < c.maxTurns
    ensures OneTurn(c, t, Started(s)).Continue? ==> Between(OneTurn(c, t, Started(s)).next)
    ensures OneTurn(c, t, Started(s)).Stop? ==> Left(c, OneTurn(c, t, Started(s)).end)
  {
    var started := Started(s);
    StartedInTurn(s);
    AnsweredInTurn(c, t, started);
    if t.providerFailure.Some? {
      FailInTurn(c, started, t.providerFailure.value);
    } else {
      var tools, answered := RunTools(s.turnIndex, t.toolCalls), Answered(c, t, started);
      if tools.failure.Some? {
        FailInTurn(c, answered, tools.failure.value);
      } else {
        var closing := TurnFinished(started, t, tools.errors);
        Appended(answered.payloads, closing);
        var finished := answered.(payloads := answered.payloads + [closing]);
        if t.callbackFailure.Some? {
          FailAfterFinish(c, finished, t.callbackFailure.value);
        } else if |t.toolCalls| > 0 {
          CallsAreNotZero(|t.toolCalls|);
        }
      }
    }
  }

  lemma CallsAreNotZero(n: nat)
    requires n > 0
    ensures Whole(n) != Whole(0)
  {
  }

  lemma HeadLeaves(c: Config, t: Turn, s: State)
    requires Between(s) && HeadStop(c, t, s).Some?
    ensures Left(c, Ended(HeadStop(c, t, s).value, false, false))
  {
    if t.preflight.Some? {
      ClassifyIsFailure(t.preflight.value.kind);
    }
  }

  lemma {:induction false} LoopKeeps(c: Config, turns: nat -> Turn, s: State)
    requires Between(s)
    ensures Left(c, Loop(c, turns, s))
    ensures s.turnIndex <= c.maxTurns ==> Loop(c, turns, s).state.turnIndex <= c.maxTurns
    decreases c.maxTurns - s.turnIndex
  {
    if s.turnIndex < c.maxTurns {
      var t := turns(s.turnIndex);
      if HeadStop(c, t, s).Some? {
        HeadLeaves(c, t, s);
      } else {
        TurnKeeps(c, t, s);
        TurnIndexGrows(c, t, Started(s));
        var r := OneTurn(c, t, Started(s));
        if r.Continue? {
          LoopKeeps(c, turns, r.next);
        }
      }
    }
  }

  lemma TurnIndexGrows(c: Config, t: Turn, s: State)
    ensures OneTurn(c, t, s).Stop? ==> s.turnIndex <= OneTurn(c, t, s).end.state.turnIndex <= s.turnIndex + 1
  {
  }

  lemma BeginsBetween(c: Config)
    ensures Between(Begin(c))
  {
    assert Begin(c).payloads[..0] == [];
  }

  // ----- the theorems about every run

  /**
   * In one run: each started turn is closed once unless the loop was left by a throwing callback, and the finishes are
   * counted.
   */
  lemma RunClosesTurns(c: Config, turns: nat -> Turn, durationMs: real)
    ensures TurnsClosedOnce(Payloads(c, turns, durationMs)) <==> !Loop(c, turns, Begin(c)).callbackFailed
    ensures FinishedTurns(Payloads(c, turns, durationMs))
            == Loop(c, turns, Begin(c)).state.turnIndex + (if Loop(c, turns, Begin(c)).callbackFailed then 1 else 0)
  {
    BeginsBetween(c);
    LoopKeeps(c, turns, Begin(c));
    var end := Loop(c, turns, Begin(c));
    if !end.rethrown {
      Appended(end.state.payloads, FinishPayload(c, end.state, durationMs));
    }
  }

  /** The turns of this run have this collector: `fails(k)` is what its completion callback throws behind turn `k`. */
  ghost predicate Collects(turns: nat -> Turn, fails: nat -> Option<Failure>) {
    forall k: nat :: turns(k).callbackFailure == fails(k)
  }

  /** No turn is ever started, or no callback of a turn within the limit throws. */
  ghost predicate HarmlessCollector(c: Config, fails: nat -> Option<Failure>) {
    c.maxCostUSD <= 0.0 || c.maxConsecutiveToolFailures <= 0 || forall k: nat :: k < c.maxTurns ==> fails(k).None?
  }

  lemma {:induction false} QuietLoop(c: Config, turns: nat -> Turn, s: State)
    requires forall k: nat :: k < c.maxTurns ==> turns(k).callbackFailure.None?
    ensures !Loop(c, turns, s).callbackFailed
    decreases c.maxTurns - s.turnIndex
  {
    if s.turnIndex < c.maxTurns && HeadStop(c, turns(s.turnIndex), s).None? {
      var r := OneTurn(c, turns(s.turnIndex), Started(s));
      if r.Continue? {
        QuietLoop(c, turns, r.next);
      }
    }
  }

  lemma HarmlessRun(c: Config, turns: nat -> Turn, fails: nat -> Option<Failure>)
    requires Collects(turns, fails) && HarmlessCollector(c, fails)
    ensures !Loop(c, turns, Begin(c)).callbackFailed
  {
    if 0.0 < c.maxCostUSD && 0 < c.maxConsecutiveToolFailures {
      QuietLoop(c, turns, Begin(c));
    }
  }

  /** A turn that costs nothing and makes one successful tool call. */
  function FreeTurn(fails: Option<Failure>): Turn {
    Turn(None, None, "", [ToolStep("t", "t", "{}", None, None, ToolRecord("t", "t", false, 0.0, None), None)], 0.0, 0.0,
         "tool_use", fails)
  }

  function FreeTurns(fails: nat -> Option<Failure>): nat -> Turn {
    (k: nat) => FreeTurn(fails(k))
  }

  lemma FreeTurnGoesOn(c: Config, s: State, f: Option<Failure>)
    requires s.totalCostUSD == 0.0 && s.consecutiveToolErrors == 0
    ensures
      var r := OneTurn(c, FreeTurn(f), Started(s));
      if f.Some? then r.Stop? && r.end.callbackFailed
      else
        r.Continue? && r.next.totalCostUSD == 0.0 && r.next.consecutiveToolErrors == 0 &&
        r.next.turnIndex == s.turnIndex + 1
  {
    var calls := FreeTurn(f).toolCalls;
    assert calls[1..] == [];
    assert RunTools(s.turnIndex, calls[1..]) == ToolsRun([], 0, 0, None);
    assert RunTools(s.turnIndex, calls).errors == 0 && RunTools(s.turnIndex, calls).failure == None;
  }

  /** Free turns reach the first callback that throws. */
  lemma {:induction false} FreeTurnsReach(c: Config, fails: nat -> Option<Failure>, s: State, k: nat)
    requires c.maxCostUSD > 0.0 && c.maxConsecutiveToolFailures > 0 && s.turnIndex <= k < c.maxTurns && fails(k).Some?
    requires forall j: nat :: s.turnIndex <= j < k ==> fails(j).None?
    requires s.totalCostUSD == 0.0 && s.consecutiveToolErrors == 0
    ensures Loop(c, FreeTurns(fails), s).callbackFailed
    decreases k - s.turnIndex
  {
    var t := FreeTurns(fails)(s.turnIndex);
    assert t == FreeTurn(fails(s.turnIndex)) && HeadStop(c, t, s) == None;
    FreeTurnGoesOn(c, s, fails(s.turnIndex));
    if s.turnIndex < k {
      FreeTurnsReach(c, fails, OneTurn(c, t, Started(s)).next, k);
    }
  }

  lemma {:induction false} FirstThrow(fails: nat -> Option<Failure>, k: nat) returns (first: nat)
    requires fails(k).Some?
    ensures first <= k && fails(first).Some? && forall j: nat :: j < first ==> fails(j).None?
  {
    first := k;
    if j: nat :| j < k && fails(j).Some? {
      first := FirstThrow(fails, j);
    }
  }

  lemma HarmfulRun(c: Config, fails: nat -> Option<Failure>)
    requires !HarmlessCollector(c, fails)
    ensures Collects(FreeTurns(fails), fails) && Loop(c, FreeTurns(fails), Begin(c)).callbackFailed
  {
    var k: nat :| k < c.maxTurns && fails(k).Some?;
    var first := FirstThrow(fails, k);
    FreeTurnsReach(c, fails, Begin(c), first);
  }

  ghost predicate ClosesOnce(c: Config, fails: nat -> Option<Failure>, turns: nat -> Turn, durationMs: real) {
    Collects(turns, fails) ==> TurnsClosedOnce(Payloads(c, turns, durationMs))
  }

  ghost predicate CountsTurns(c: Config, fails: nat -> Option<Failure>, turns: nat -> Turn, durationMs: real) {
    Collects(turns, fails) ==> FinishedTurns(Payloads(c, turns, durationMs)) == Loop(c, turns, Begin(c)).state.turnIndex
  }

  /**
   * For a collector: in every run each started turn is closed by exactly one finish or error, in order, exactly when no
   * turn can be started at all or none of its callbacks within the turn limit throws.
   */
  lemma TurnsClosedExactly(c: Config, fails: nat -> Option<Failure>)
    ensures (forall turns, durationMs :: ClosesOnce(c, fails, turns, durationMs)) <==> HarmlessCollector(c, fails)
  {
    if HarmlessCollector(c, fails) {
      forall turns, durationMs ensures ClosesOnce(c, fails, turns, durationMs) {
        if Collects(turns, fails) {
          HarmlessRun(c, turns, fails);
          RunClosesTurns(c, turns, durationMs);
        }
      }
    } else {
      HarmfulRun(c, fails);
      RunClosesTurns(c, FreeTurns(fails), 0.0);
      assert !ClosesOnce(c, fails, FreeTurns(fails), 0.0);
    }
  }

  /** Under the same condition, and no other, `totalTurns` counts the finished turns of every run. */
  lemma TotalTurnsCountedExactly(c: Config, fails: nat -> Option<Failure>)
    ensures (forall turns, durationMs :: CountsTurns(c, fails, turns, durationMs)) <==> HarmlessCollector(c, fails)
  {
    if HarmlessCollector(c, fails) {
      forall turns, durationMs ensures CountsTurns(c, fails, turns, durationMs) {
        if Collects(turns, fails) {
          HarmlessRun(c, turns, fails);
          RunClosesTurns(c, turns, durationMs);
        }
      }
    } else {
      HarmfulRun(c, fails);
      RunClosesTurns(c, FreeTurns(fails), 0.0);
      assert !CountsTurns(c, fails, FreeTurns(fails), 0.0);
    }
  }

  /** The reported turns never exceed the limit. */
  lemma TotalTurnsBounded(c: Config, turns: nat -> Turn)
    ensures c.maxTurns >= 0 ==> Loop(c, turns, Begin(c)).state.turnIndex <= c.maxTurns
    ensures c.maxTurns < 0 ==> Loop(c, turns, Begin(c)).state.turnIndex == 0
  {
    BeginsBetween(c);
    LoopKeeps(c, turns, Begin(c));
  }

  /** A collector whose callback throws behind the first turn: that turn gets a finish and an error. */
  lemma ThrowingCallback(c: Config, f: Failure)
    requires c.maxTurns > 0 && c.maxCostUSD > 0.0 && c.maxConsecutiveToolFailures > 0
    ensures !TurnsClosedOnce(Payloads(c, (k: nat) => FreeTurn(Some(f)), 0.0))
    ensures FinishedTurns(Payloads(c, (k: nat) => FreeTurn(Some(f)), 0.0)) == 1
    ensures Loop(c, (k: nat) => FreeTurn(Some(f)), Begin(c)).state.turnIndex == 0
  {
    var turns := (k: nat) => FreeTurn(Some(f));
    assert HeadStop(c, turns(0), Begin(c)) == None;
    FreeTurnGoesOn(c, Begin(c), Some(f));
    RunClosesTurns(c, turns, 0.0);
  }

  /** A run succeeds exactly when its last turn finished without a tool call and left output or turns to spare. */
  lemma SuccessExactly(c: Config, turns: nat -> Turn)
    requires !Loop(c, turns, Begin(c)).rethrown
    ensures
      var s := Loop(c, turns, Begin(c)).state;
      FinalReason(c, s) == "success" <==> EndsInAnswer(s.payloads) && (s.finalOutput != "" || s.turnIndex < c.maxTurns)
  {
    BeginsBetween(c);
    LoopKeeps(c, turns, Begin(c));
  }

  ghost predicate TicksUp(clock: nat -> int) {
    clock(0) >= 1 && forall i: nat, j: nat :: i < j ==> clock(i) < clock(j)
  }

  predicate AllOk(runId: string, payloads: seq<Payload>) {
    forall i :: 0 <= i < |payloads| ==> PayloadOk(runId, payloads[i])
  }

  lemma TicksPositive(clock: nat -> int, i: nat)
    requires TicksUp(clock)
    ensures clock(i) >= 1
  {
    assert i == 0 || clock(0) < clock(i);
  }

  /**
   * A run that reaches its `run:finish` has a trace of the right form always: the validator accepts it exactly when
   * each payload it emitted is well-formed.
   */
  lemma FinishedTraceAccepted(c: Config, turns: nat -> Turn, durationMs: real, clock: nat -> int)
    requires TicksUp(clock) && !Loop(c, turns, Begin(c)).rethrown
    requires |Payloads(c, turns, durationMs)| <= MAX_SAFE_INTEGER
    ensures CanonicalTrace(Stamp(c.runId, Payloads(c, turns, durationMs), clock)) <==>
            AllOk(c.runId, Payloads(c, turns, durationMs))
  {
    BeginsBetween(c);
    LoopKeeps(c, turns, Begin(c));
    var end := Loop(c, turns, Begin(c));
    StampedTrace(c.runId, end.state.payloads, FinishPayload(c, end.state, durationMs), clock);
  }

  lemma StampedTrace(runId: string, middle: seq<Payload>, finish: Payload, clock: nat -> int)
    requires TicksUp(clock) && Unfinished(middle) && finish.RunFinish? && |middle| + 1 <= MAX_SAFE_INTEGER
    ensures CanonicalTrace(Stamp(runId, middle + [finish], clock)) <==> AllOk(runId, middle + [finish])
  {
    var payloads := middle + [finish];
    var events := Stamp(runId, payloads, clock);
    if AllOk(runId, payloads) {
      assert PayloadOk(runId, payloads[0]);
      forall i | 0 <= i < |events| ensures EventOk(events[i], runId, i) {
        TicksPositive(clock, i);
      }
    } else if CanonicalTrace(events) {
      forall i | 0 <= i < |payloads| ensures PayloadOk(runId, payloads[i]) {
        assert EventOk(events[i], events[0].runId, i);
      }
    }
  }
}
