/** What the budget controller reports, told by the operations so far. */
module BudgetReports {
  import opened Base
  import opened BudgetModel
  import opened BudgetRuns
  import opened BudgetAdmission
  import opened BudgetBreaker

  // ----- the rates of a provider

  /** The failed releases at or after `cutoff`. */
  function FailuresSince(log: seq<WindowRecord>, cutoff: int): nat {
    if log == [] then 0
    else
      var last := log[|log| - 1];
      FailuresSince(log[..|log| - 1], cutoff) + if last.timestamp >= cutoff && last.isError then 1 else 0
  }

  /** How long the releases at or after `cutoff` took. */
  function LatencySince(log: seq<WindowRecord>, cutoff: int): real {
    if log == [] then 0.0
    else
      var last := log[|log| - 1];
      LatencySince(log[..|log| - 1], cutoff) + if last.timestamp >= cutoff then last.latencyMs else 0.0
  }

  lemma SumsSnoc(records: seq<WindowRecord>, r: WindowRecord)
    ensures Latency(records + [r]) == Latency(records) + r.latencyMs
    ensures Errors(records + [r]) == Errors(records) + if r.isError then 1 else 0
  {
    assert (records + [r])[..|records|] == records;
  }

  lemma {:induction false} SinceSums(log: seq<WindowRecord>, cutoff: int)
    ensures Latency(Since(log, cutoff)) == LatencySince(log, cutoff)
    ensures Errors(Since(log, cutoff)) == FailuresSince(log, cutoff)
    ensures CountSince(log, cutoff) == 0 ==> LatencySince(log, cutoff) == 0.0
  {
    if log != [] {
      var front, last := log[..|log| - 1], log[|log| - 1];
      SinceSums(front, cutoff);
      SumsSnoc(Since(front, cutoff), last);
      assert Since(front, cutoff) + [] == Since(front, cutoff);
    }
  }

  /** `rate` a minute over a window of `windowSizeMs` is `count` in all. */
  predicate PerMinute(rate: real, count: int, windowSizeMs: int) {
    if windowSizeMs > 0 then rate * windowSizeMs as real == 60000.0 * count as real else rate == 0.0
  }

  lemma RateIs(count: int, windowSizeMs: int)
    ensures var minutes := windowSizeMs as real / 60000.0;
      PerMinute(if minutes > 0.0 then count as real / minutes else 0.0, count, windowSizeMs)
  {
    var minutes := windowSizeMs as real / 60000.0;
    if minutes > 0.0 {
      assert count as real / minutes * minutes == count as real;
    }
  }

  /** The average of a window that took `total` in all. */
  predicate Averages(average: real, total: real, n: nat) {
    if n > 0 then average * n as real == total else average == 0.0
  }

  lemma AverageIs(total: real, n: nat)
    ensures Averages(if n > 0 then total / n as real else 0.0, total, n)
  {}

  /** The counts are those of the logged releases of the window that ends at `now`. */
  predicate CountsWindow(s: WindowStats, log: seq<WindowRecord>, windowSizeMs: int, now: int) {
    var cutoff := now - windowSizeMs;
    && s.windowStart == cutoff && s.windowEnd == now && s.requestCount == CountSince(log, cutoff)
    && s.tokenCount == TokensSince(log, cutoff) && s.errorCount == FailuresSince(log, cutoff)
  }

  /** The rates and the average are those of the same releases. */
  predicate RatesWindow(s: WindowStats, log: seq<WindowRecord>, windowSizeMs: int, now: int) {
    var cutoff := now - windowSizeMs;
    && PerMinute(s.currentRPM, CountSince(log, cutoff), windowSizeMs)
    && PerMinute(s.currentTPM, TokensSince(log, cutoff), windowSizeMs)
    && Averages(s.averageLatencyMs, LatencySince(log, cutoff), CountSince(log, cutoff))
  }

  lemma StatsCount(b: Bucket, log: seq<WindowRecord>, now: int)
    requires b.history == Since(log, now - b.config.windowSizeMs)
    ensures CountsWindow(StatsOf(b, now), log, b.config.windowSizeMs, now)
  {
    SinceCounts(log, now - b.config.windowSizeMs);
    SinceSums(log, now - b.config.windowSizeMs);
  }

  lemma RatesPerMinute(b: Bucket, now: int)
    ensures PerMinute(StatsOf(b, now).currentRPM, |b.history|, b.config.windowSizeMs)
    ensures PerMinute(StatsOf(b, now).currentTPM, Tokens(b.history), b.config.windowSizeMs)
  {
    RateIs(|b.history|, b.config.windowSizeMs);
    RateIs(Tokens(b.history), b.config.windowSizeMs);
  }

  lemma AverageShown(b: Bucket, now: int)
    ensures Averages(StatsOf(b, now).averageLatencyMs, Latency(b.history), |b.history|)
  {
    AverageIs(Latency(b.history), |b.history|);
  }

  lemma StatsRate(b: Bucket, log: seq<WindowRecord>, now: int)
    requires b.history == Since(log, now - b.config.windowSizeMs)
    ensures RatesWindow(StatsOf(b, now), log, b.config.windowSizeMs, now)
  {
    SinceCounts(log, now - b.config.windowSizeMs);
    SinceSums(log, now - b.config.windowSizeMs);
    RatesPerMinute(b, now);
    AverageShown(b, now);
  }

  lemma StatsShown(id: string, b: Bucket, log: seq<WindowRecord>, now: int)
    requires Prune(b, now).history == Since(log, now - b.config.windowSizeMs)
    ensures CountsWindow(RateStateOf(id, Prune(b, now), now).windowStats, log, b.config.windowSizeMs, now)
    ensures RatesWindow(RateStateOf(id, Prune(b, now), now).windowStats, log, b.config.windowSizeMs, now)
  {
    StatsCount(Prune(b, now), log, now);
    StatsRate(Prune(b, now), log, now);
  }

  /** After any operations the report on a provider counts, adds up and averages the logged releases of its window. */
  lemma WindowShown(trace: seq<Event>, id: string, now: int)
    requires PastOf(trace, now) && id in Run(trace).providers
    ensures
      var b := Run(trace).providers[id];
      var stats := RateStateOf(id, Prune(b, now), now).windowStats;
      && CountsWindow(stats, Log(trace, id), b.config.windowSizeMs, now)
      && RatesWindow(stats, Log(trace, id), b.config.windowSizeMs, now)
  {
    WindowRefinesLog(trace, id, now);
    StatsShown(id, Run(trace).providers[id], Log(trace, id), now);
  }

  /** It shows the two streaks, the ceilings, the slots and the breaker as they are. */
  lemma BucketShown(trace: seq<Event>, id: string, now: int)
    requires id in Run(trace).providers
    ensures
      var b := Run(trace).providers[id];
      var s := RateStateOf(id, Prune(b, now), now);
      && s.failureStreak == TrailingFailures(Log(trace, id)) && s.successStreak == SuccessRun(trace, id)
      && s.providerId == id && s.currentMaxRPM == b.currentMaxRPM && s.currentMaxTPM == b.currentMaxTPM
      && s.activeConcurrency == b.activeConcurrency && s.maxConcurrency == b.config.maxConcurrentRequests
      && s.circuitBreakerState == b.circuitBreaker && s.lastAdjustmentTimestamp == b.lastAdjustmentTimestamp
  {
    StreakIsTrailing(trace, id);
    SuccessesCounted(trace, id);
  }

  // ----- the usage of a profile

  /** What remains and what is used make up the whole, unless it is overdrawn. */
  predicate Remains(rest: real, used: real, whole: real) {
    if used <= whole then rest + used == whole else rest == 0.0
  }

  /** The share of the limit that is used, at most one. */
  predicate ShareOf(ratio: real, used: int, limit: int) {
    if limit <= 0 then ratio == 0.0
    else if used <= limit then ratio * limit as real == used as real
    else ratio == 1.0
  }

  lemma RatioTimes(used: int, limit: int)
    requires limit > 0
    ensures Ratio(used, limit) * limit as real == used as real
  {}

  lemma RatioReaches(used: int, limit: int, share: real)
    requires limit > 0
    ensures Ratio(used, limit) >= share <==> used as real >= share * limit as real
  {
    RatioTimes(used, limit);
    var ratio, whole := Ratio(used, limit), limit as real;
    assert ratio * whole - share * whole == (ratio - share) * whole;
    if ratio < share {
      Negative(ratio - share, whole);
    }
  }

  lemma Negative(x: real, whole: real)
    requires x < 0.0 && whole > 0.0
    ensures x * whole < 0.0
  {}

  lemma RatioIsShare(used: int, limit: int)
    ensures ShareOf(MinReal(1.0, Ratio(used, limit)), used, limit)
  {
    if limit > 0 {
      RatioTimes(used, limit);
      RatioReaches(used, limit, 1.0);
    }
  }

  /** The label, by the tokens used of a positive limit. */
  predicate Labelled(state: UsageState, used: int, p: Profile, burstUsed: int) {
    var limit := p.totalTokensLimit;
    && (state == Bursting <==> used >= limit && burstUsed > 0)
    && (state == Exhausted <==> used >= limit && burstUsed <= 0)
    && (state == Warning <==> used < limit && used as real >= p.softCapRatio * limit as real)
  }

  /** The snapshot shows the ledger. */
  predicate ShowsLedger(s: UsageSnapshot, l: Ledger) {
    && s.promptTokensUsed == l.prompt && s.completionTokensUsed == l.completion
    && s.totalTokensUsed == l.prompt + l.completion && s.totalSpendUSD == l.spent
  }

  /** It shows what remains of the tokens and of the money, the share that is used, and the label. */
  predicate ShowsRest(s: UsageSnapshot, l: Ledger) {
    var used, limit := l.prompt + l.completion, l.profile.totalTokensLimit;
    && Remains(s.remainingTokens as real, used as real, limit as real)
    && Remains(s.remainingSpendUSD, l.spent, l.profile.maxSpendUSD)
    && ShareOf(s.utilizationRatio, used, limit)
    && (limit > 0 ==> Labelled(s.state, used, l.profile, s.burstTokensUsed))
  }

  lemma LabelIs(p: ProfileState)
    requires p.profile.totalTokensLimit > 0
    ensures Labelled(UsageStateOf(p), TotalUsed(p), p.profile, p.burstTokensUsed)
  {
    RatioReaches(TotalUsed(p), p.profile.totalTokensLimit, 1.0);
    RatioReaches(TotalUsed(p), p.profile.totalTokensLimit, p.profile.softCapRatio);
  }

  lemma RestIs(id: string, p: ProfileState, now: int)
    ensures
      var s := SnapshotOf(id, p, now);
      && Remains(s.remainingTokens as real, TotalUsed(p) as real, p.profile.totalTokensLimit as real)
      && Remains(s.remainingSpendUSD, p.totalSpendUSD, p.profile.maxSpendUSD)
  {}

  lemma ShareIs(id: string, p: ProfileState, now: int)
    ensures ShareOf(SnapshotOf(id, p, now).utilizationRatio, TotalUsed(p), p.profile.totalTokensLimit)
  {
    RatioIsShare(TotalUsed(p), p.profile.totalTokensLimit);
  }

  lemma SnapshotShows(id: string, l: Ledger, p: ProfileState, now: int)
    requires Agrees(l, p)
    ensures ShowsLedger(SnapshotOf(id, p, now), l) && ShowsRest(SnapshotOf(id, p, now), l)
  {
    RestIs(id, p, now);
    ShareIs(id, p, now);
    if p.profile.totalTokensLimit > 0 {
      LabelIs(p);
    }
  }

  /**
   * After any operations a snapshot shows the ledger of its profile, what remains of it, and the share that is used.
   */
  lemma UsageShows(trace: seq<Event>, id: string, now: int)
    requires id in Run(trace).profiles
    ensures LedgerOf(trace, id).Some?
    ensures
      var l, p := Carried(LedgerOf(trace, id).value, now), ResetIfDue(Run(trace).profiles[id], now);
      var s := SnapshotOf(id, p, now);
      && ShowsLedger(s, l) && ShowsRest(s, l)
      && s.profileId == id && s.timestamp == now && s.burstTokensUsed == p.burstTokensUsed
  {
    LedgerHolds(trace, id);
    CarriedAgrees(LedgerOf(trace, id).value, Run(trace).profiles[id], now);
    SnapshotShows(id, Carried(LedgerOf(trace, id).value, now), ResetIfDue(Run(trace).profiles[id], now), now);
  }

  // ----- the logs

  /** The entry tells the change of the ceilings of `id`, when and by which factor it was made, and why. */
  predicate Tells(e: Adjustment, id: string, before: Bucket, after: Bucket, reason: string, factor: real, now: int) {
    && e.providerId == id && e.timestamp == now && e.factorApplied == factor && e.reason == reason
    && e.previousMaxRPM == before.currentMaxRPM && e.newMaxRPM == after.currentMaxRPM
    && e.previousMaxTPM == before.currentMaxTPM && e.newMaxTPM == after.currentMaxTPM
  }

  /** The success completes a streak of twenty below the top. */
  predicate CompletesStreak(b: Bucket, isError: bool) {
    && !isError && b.successStreak >= 19
    && (b.currentMaxRPM < b.config.maxRequestsPerMinute || b.currentMaxTPM < b.config.maxTokensPerMinute)
  }

  /** The adjustment log gains an entry exactly for a throttle of a known provider and for a completed streak. */
  lemma AdjustmentsTold(w: World, op: Op, now: int)
    ensures
      var log, grown := w.adjustments, Step(w, op, now).adjustments;
      var buckets := Step(w, op, now).providers;
      if op.Throttle? && op.providerId in w.providers then
        var b := w.providers[op.providerId];
        && |grown| == |log| + 1 && grown[..|log|] == log && op.providerId in buckets
        && Tells(grown[|log|], op.providerId, b, buckets[op.providerId], "Scale down: " + op.report.reason,
                 b.config.scaleDownFactor, now)
      else if op.Release? && op.providerId in w.providers &&
              CompletesStreak(w.providers[op.providerId], op.isError) then
        var b := w.providers[op.providerId];
        && |grown| == |log| + 1 && grown[..|log|] == log && op.providerId in buckets
        && Tells(grown[|log|], op.providerId, b, buckets[op.providerId], "Scale up on success streak",
                 b.config.scaleUpFactor, now)
      else grown == log
  {}

  /** Every throttle is logged as it was reported, whether or not its provider is known. */
  lemma ThrottlesTold(w: World, op: Op, now: int)
    ensures
      var log, grown := w.throttleEvents, Step(w, op, now).throttleEvents;
      if op.Throttle? then grown == log + [ThrottleEvent(op.providerId, op.report, now)] else grown == log
  {}
}
