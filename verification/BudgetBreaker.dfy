/** What trips the breaker, what closes it, and what moves the ceilings, told by the logged releases. */
module BudgetBreaker {
  import opened Base
  import opened BudgetModel
  import opened BudgetRuns

  // ----- the breaker

  /** How many of the latest releases failed in a row. */
  function TrailingFailures(log: seq<WindowRecord>): nat {
    if log == [] || !log[|log| - 1].isError then 0 else 1 + TrailingFailures(log[..|log| - 1])
  }

  lemma TrailingSnoc(log: seq<WindowRecord>, r: WindowRecord)
    ensures TrailingFailures(log + [r]) == if r.isError then 1 + TrailingFailures(log) else 0
  {
    assert (log + [r])[..|log|] == log;
  }

  lemma StreakStep(w: World, op: Op, now: int, id: string)
    requires id in w.providers && !IsRegistration(op, id)
    ensures
      var b, after := w.providers[id], NextBucket(w, op, now, id);
      after.failureStreak
      == if !IsRelease(op, id) then b.failureStreak else if op.isError then 1 + b.failureStreak else 0
  {}

  /** The streak counts the failures at the end of the log. */
  lemma {:induction false} StreakIsTrailing(trace: seq<Event>, id: string)
    requires id in Run(trace).providers
    ensures Run(trace).providers[id].failureStreak == TrailingFailures(Log(trace, id))
  {
    var front, last := trace[..|trace| - 1], trace[|trace| - 1];
    assert Run(trace) == Step(Run(front), last.op, last.now);
    if IsRegistration(last.op, id) {
      assert Log(trace, id) == [];
    } else {
      StreakIsTrailing(front, id);
      StreakStep(Run(front), last.op, last.now, id);
      if IsRelease(last.op, id) {
        TrailingSnoc(Log(front, id), RecordOf(last.op, last.now));
      }
    }
  }

  /** The bucket before and after the last event of a trace. */
  predicate Moves(trace: seq<Event>, id: string, before: Bucket, after: Bucket) {
    && trace != [] && id in Run(trace[..|trace| - 1]).providers && id in Run(trace).providers
    && before == Run(trace[..|trace| - 1]).providers[id] && after == Run(trace).providers[id]
  }

  /**
   * A failed release trips the breaker exactly when it is the fifth failure in a row or a later one, and sets the reset
   * time one cooldown ahead; otherwise it changes nothing about the breaker.
   */
  lemma FailureTrips(trace: seq<Event>, id: string, before: Bucket, after: Bucket)
    requires Moves(trace, id, before, after) && IsRelease(trace[|trace| - 1].op, id) && trace[|trace| - 1].op.isError
    ensures TrailingFailures(Log(trace, id)) >= 5 ==>
            after.circuitBreaker == Open &&
            after.circuitBreakerResetAt == trace[|trace| - 1].now + before.config.cooldownPeriodMs
    ensures TrailingFailures(Log(trace, id)) < 5 ==>
            after.circuitBreaker == before.circuitBreaker && after.circuitBreakerResetAt == before.circuitBreakerResetAt
  {
    StreakIsTrailing(trace, id);
    PrefixOf(trace, |trace| - 1);
    assert trace[..|trace|] == trace;
  }

  /**
   * Any other operation closes a half-open breaker by a success, half-opens an open one when that is due, or neither.
   */
  lemma OtherwiseMoves(trace: seq<Event>, id: string, before: Bucket, after: Bucket)
    requires Moves(trace, id, before, after) && !IsRegistration(trace[|trace| - 1].op, id)
    requires !(IsRelease(trace[|trace| - 1].op, id) && trace[|trace| - 1].op.isError)
    ensures after.circuitBreakerResetAt == before.circuitBreakerResetAt
    ensures after.circuitBreaker == Open ==> before.circuitBreaker == Open
    ensures after.circuitBreaker == HalfOpen && before.circuitBreaker != HalfOpen ==>
            && before.circuitBreaker == Open && trace[|trace| - 1].op.CanExecute?
            && trace[|trace| - 1].op.providerId == id && trace[|trace| - 1].now >= before.circuitBreakerResetAt
    ensures after.circuitBreaker == Closed && before.circuitBreaker != Closed ==>
            before.circuitBreaker == HalfOpen && IsRelease(trace[|trace| - 1].op, id)
    ensures IsRelease(trace[|trace| - 1].op, id) ==>
            after.circuitBreaker == if before.circuitBreaker == HalfOpen then Closed else before.circuitBreaker
  {
    PrefixOf(trace, |trace| - 1);
    assert trace[..|trace|] == trace;
  }

  /** A fresh bucket is closed, idle, and at its maximal ceilings. */
  lemma RegisteredFresh(trace: seq<Event>, id: string)
    requires trace != [] && IsRegistration(trace[|trace| - 1].op, id)
    ensures id in Run(trace).providers
    ensures
      var b, config := Run(trace).providers[id], trace[|trace| - 1].op.config;
      && b.config == config && b.circuitBreaker == Closed && b.activeConcurrency == 0 && b.history == []
      && b.currentMaxRPM == config.maxRequestsPerMinute && b.currentMaxTPM == config.maxTokensPerMinute
  {}

  // ----- slots

  /** A slot is taken exactly when one is free, and given back by every release, never below zero. */
  lemma SlotsMove(trace: seq<Event>, id: string, before: Bucket, after: Bucket)
    requires Moves(trace, id, before, after) && !IsRegistration(trace[|trace| - 1].op, id)
    ensures
      var op := trace[|trace| - 1].op;
      if op.Acquire? && op.providerId == id && before.activeConcurrency < before.config.maxConcurrentRequests
      then after.activeConcurrency == before.activeConcurrency + 1
      else if IsRelease(op, id) && before.activeConcurrency > 0
      then after.activeConcurrency == before.activeConcurrency - 1
      else IsRelease(op, id) ==> after.activeConcurrency == 0
    ensures
      var op := trace[|trace| - 1].op;
      !(op.Acquire? && op.providerId == id) && !IsRelease(op, id) ==>
        after.activeConcurrency == before.activeConcurrency
    ensures
      var op := trace[|trace| - 1].op;
      op.Acquire? && op.providerId == id && before.activeConcurrency >= before.config.maxConcurrentRequests ==>
      after.activeConcurrency == before.activeConcurrency
  {
    PrefixOf(trace, |trace| - 1);
    assert trace[..|trace|] == trace;
  }

  // ----- the ceilings

  /** The greatest whole number of `exact` or below, but no less than `least`. */
  predicate LoweredTo(c: real, exact: real, least: real) {
    && c >= least && c > exact - 1.0 && (c <= exact || c == least)
    && (c == c.Floor as real || c == least)
  }

  /** The least whole number of `exact` or above, but no more than `most`. */
  predicate RaisedTo(c: real, exact: real, most: real) {
    && c <= most && c < exact + 1.0 && (c >= exact || c == most)
    && (c == c.Floor as real || c == most)
  }

  lemma LoweredIs(ceiling: real, least: real, factor: real, exact: real)
    requires exact == ceiling * factor
    ensures LoweredTo(Lowered(ceiling, least, factor), exact, least)
  {
    FloorNear(exact);
  }

  lemma FloorNear(x: real)
    ensures x - 1.0 < x.Floor as real <= x && (x.Floor as real).Floor == x.Floor
  {}

  lemma RaisedIs(ceiling: real, most: real, factor: real, exact: real)
    requires exact == ceiling * factor
    ensures RaisedTo(Raised(ceiling, most, factor), exact, most)
  {
    CeilingNear(exact);
  }

  lemma CeilingNear(x: real)
    ensures x <= Ceiling(x) as real < x + 1.0 && (Ceiling(x) as real).Floor == Ceiling(x)
  {}

  /** A throttle lowers both ceilings by the factor, to whole numbers, and ends the streak of successes. */
  lemma ThrottleLowers(trace: seq<Event>, id: string, before: Bucket, after: Bucket, rpm: real, tpm: real)
    requires Moves(trace, id, before, after) && trace[|trace| - 1].op.Throttle?
    requires trace[|trace| - 1].op.providerId == id
    requires rpm == before.currentMaxRPM * before.config.scaleDownFactor
    requires tpm == before.currentMaxTPM * before.config.scaleDownFactor
    ensures LoweredTo(after.currentMaxRPM, rpm, before.config.minRequestsPerMinute)
    ensures LoweredTo(after.currentMaxTPM, tpm, before.config.minTokensPerMinute)
    ensures after.lastAdjustmentTimestamp == trace[|trace| - 1].now
  {
    PrefixOf(trace, |trace| - 1);
    assert trace[..|trace|] == trace;
    LoweredIs(before.currentMaxRPM, before.config.minRequestsPerMinute, before.config.scaleDownFactor, rpm);
    LoweredIs(before.currentMaxTPM, before.config.minTokensPerMinute, before.config.scaleDownFactor, tpm);
  }

  predicate BelowTop(b: Bucket) {
    b.currentMaxRPM < b.config.maxRequestsPerMinute || b.currentMaxTPM < b.config.maxTokensPerMinute
  }

  /** The successes since the last failure, throttle, raise or registration. */
  function SuccessRun(trace: seq<Event>, id: string): nat {
    if trace == [] then 0
    else
      var front, op := trace[..|trace| - 1], trace[|trace| - 1].op;
      if IsRegistration(op, id) || (op.Throttle? && op.providerId == id) then 0
      else if !IsRelease(op, id) then SuccessRun(front, id)
      else if op.isError || (SuccessRun(front, id) >= 19 && id in Run(front).providers &&
                             BelowTop(Run(front).providers[id]))
      then 0
      else SuccessRun(front, id) + 1
  }

  lemma SuccessStep(w: World, op: Op, now: int, id: string)
    requires id in w.providers && !IsRegistration(op, id)
    ensures
      var b, after := w.providers[id], NextBucket(w, op, now, id);
      after.successStreak ==
      if op.Throttle? && op.providerId == id then 0
      else if !IsRelease(op, id) then b.successStreak
      else if op.isError || (b.successStreak >= 19 && BelowTop(b)) then 0
      else b.successStreak + 1
  {}

  lemma {:induction false} SuccessesCounted(trace: seq<Event>, id: string)
    requires id in Run(trace).providers
    ensures Run(trace).providers[id].successStreak == SuccessRun(trace, id)
  {
    var front, last := trace[..|trace| - 1], trace[|trace| - 1];
    assert Run(trace) == Step(Run(front), last.op, last.now);
    if !IsRegistration(last.op, id) {
      SuccessesCounted(front, id);
      SuccessStep(Run(front), last.op, last.now, id);
    }
  }

  /**
   * A release raises the ceilings exactly when it is the twentieth success in a row and one of them is below its top.
   */
  predicate RaisesNow(trace: seq<Event>, id: string, before: Bucket)
    requires trace != []
  {
    var op := trace[|trace| - 1].op;
    IsRelease(op, id) && !op.isError && SuccessRun(trace[..|trace| - 1], id) >= 19 && BelowTop(before)
  }

  lemma RaiseStep(w: World, op: Op, now: int, id: string, rpm: real, tpm: real)
    requires id in w.providers && !IsRegistration(op, id) && !(op.Throttle? && op.providerId == id)
    requires rpm == w.providers[id].currentMaxRPM * w.providers[id].config.scaleUpFactor
    requires tpm == w.providers[id].currentMaxTPM * w.providers[id].config.scaleUpFactor
    ensures
      var b, after := w.providers[id], NextBucket(w, op, now, id);
      if IsRelease(op, id) && !op.isError && b.successStreak >= 19 && BelowTop(b)
      then RaisedTo(after.currentMaxRPM, rpm, b.config.maxRequestsPerMinute) &&
           RaisedTo(after.currentMaxTPM, tpm, b.config.maxTokensPerMinute) && after.lastAdjustmentTimestamp == now
      else after.currentMaxRPM == b.currentMaxRPM && after.currentMaxTPM == b.currentMaxTPM
  {
    var b := w.providers[id];
    RaisedIs(b.currentMaxRPM, b.config.maxRequestsPerMinute, b.config.scaleUpFactor, rpm);
    RaisedIs(b.currentMaxTPM, b.config.maxTokensPerMinute, b.config.scaleUpFactor, tpm);
  }

  lemma CeilingsRise(trace: seq<Event>, id: string, before: Bucket, after: Bucket, rpm: real, tpm: real)
    requires Moves(trace, id, before, after) && !IsRegistration(trace[|trace| - 1].op, id)
    requires !(trace[|trace| - 1].op.Throttle? && trace[|trace| - 1].op.providerId == id)
    requires rpm == before.currentMaxRPM * before.config.scaleUpFactor
    requires tpm == before.currentMaxTPM * before.config.scaleUpFactor
    ensures if RaisesNow(trace, id, before)
            then RaisedTo(after.currentMaxRPM, rpm, before.config.maxRequestsPerMinute) &&
                 RaisedTo(after.currentMaxTPM, tpm, before.config.maxTokensPerMinute) &&
                 after.lastAdjustmentTimestamp == trace[|trace| - 1].now
            else after.currentMaxRPM == before.currentMaxRPM && after.currentMaxTPM == before.currentMaxTPM
  {
    PrefixOf(trace, |trace| - 1);
    assert trace[..|trace|] == trace;
    SuccessesCounted(trace[..|trace| - 1], id);
    RaiseStep(Run(trace[..|trace| - 1]), trace[|trace| - 1].op, trace[|trace| - 1].now, id, rpm, tpm);
  }
}
