/** The budget controller's state and its transitions, as values. */
module BudgetModel {
  import opened Base

  datatype Profile = Profile(totalTokensLimit: int, burstAllowance: int, softCapRatio: real, maxSpendUSD: real,
                             resetIntervalMs: int, allowBurst: bool)

  datatype ProfileState = ProfileState(profile: Profile, promptTokensUsed: int, completionTokensUsed: int,
                                       totalSpendUSD: real, burstTokensUsed: int, lastResetTimestamp: int)

  datatype RateConfig = RateConfig(maxRequestsPerMinute: real, maxTokensPerMinute: real, maxConcurrentRequests: int,
                                   windowSizeMs: int, minRequestsPerMinute: real, minTokensPerMinute: real,
                                   scaleUpFactor: real, scaleDownFactor: real, cooldownPeriodMs: int)

  datatype WindowRecord = WindowRecord(timestamp: int, promptTokens: int, completionTokens: int, latencyMs: real,
                                       isError: bool)

  datatype Breaker = Closed | Open | HalfOpen

  datatype Bucket = Bucket(config: RateConfig, currentMaxRPM: real, currentMaxTPM: real, activeConcurrency: int,
                           lastAdjustmentTimestamp: int, circuitBreaker: Breaker, circuitBreakerResetAt: int,
                           failureStreak: int, successStreak: int, history: seq<WindowRecord>)

  /** `RateCeilingAdjustment` */
  datatype Adjustment = Adjustment(providerId: string, previousMaxRPM: real, newMaxRPM: real, previousMaxTPM: real,
                                   newMaxTPM: real, reason: string, timestamp: int, factorApplied: real)

  /** What a caller reports about a throttled request; the generated identifier comes with it. */
  datatype ThrottleReport = ThrottleReport(id: string, modelId: string, reason: string, severity: string,
                                           action: string, retryAfterMs: int, promptTokens: int, estimatedTokens: int,
                                           context: string)

  datatype ThrottleEvent = ThrottleEvent(providerId: string, report: ThrottleReport, timestamp: int)

  datatype Action = Allow | Delay | Reject

  datatype Decision = Decision(allowed: bool, action: Action, retryAfterMs: int)

  const ALLOWED: Decision := Decision(true, Allow, 0)
  const REJECTED: Decision := Decision(false, Reject, 0)

  function Delayed(ms: int): Decision {
    Decision(false, Delay, ms)
  }

  function MaxReal(a: real, b: real): real {
    if a < b then b else a
  }

  function MinReal(a: real, b: real): real {
    if b < a then b else a
  }

  // ----- profiles

  function NewProfile(profile: Profile, now: int): ProfileState {
    ProfileState(profile, 0, 0, 0.0, 0, now)
  }

  function TotalUsed(p: ProfileState): int {
    p.promptTokensUsed + p.completionTokensUsed
  }

  /** `resetProfileIfDue` */
  function ResetIfDue(p: ProfileState, now: int): ProfileState {
    if now - p.lastResetTimestamp >= p.profile.resetIntervalMs then NewProfile(p.profile, now) else p
  }

  datatype UsageState = Normal | Warning | Exhausted | Bursting

  datatype UsageSnapshot = UsageSnapshot(profileId: string, promptTokensUsed: int, completionTokensUsed: int,
                                         totalTokensUsed: int, totalSpendUSD: real, state: UsageState,
                                         utilizationRatio: real, remainingTokens: int, remainingSpendUSD: real,
                                         burstTokensUsed: int, timestamp: int)

  function Ratio(used: int, limit: int): real {
    if limit > 0 then used as real / limit as real else 0.0
  }

  function UsageStateOf(p: ProfileState): UsageState {
    var ratio := Ratio(TotalUsed(p), p.profile.totalTokensLimit);
    if ratio >= 1.0 then if p.burstTokensUsed > 0 then Bursting else Exhausted
    else if ratio >= p.profile.softCapRatio then Warning
    else Normal
  }

  /** What `getUsageSnapshot` reports about a profile, after the reset. */
  function SnapshotOf(id: string, p: ProfileState, now: int): UsageSnapshot {
    UsageSnapshot(id, p.promptTokensUsed, p.completionTokensUsed, TotalUsed(p), p.totalSpendUSD, UsageStateOf(p),
                  MinReal(1.0, Ratio(TotalUsed(p), p.profile.totalTokensLimit)),
                  Max(0, p.profile.totalTokensLimit - TotalUsed(p)),
                  MaxReal(0.0, p.profile.maxSpendUSD - p.totalSpendUSD), p.burstTokensUsed, now)
  }

  /** The budget part of `canExecute`, after the reset: `None` lets the request pass on to the provider's limits. */
  function BudgetRefusal(p: ProfileState, estimatedTokens: int): Option<Decision> {
    var projected := TotalUsed(p) + estimatedTokens;
    var limit := p.profile.totalTokensLimit;
    if p.totalSpendUSD >= p.profile.maxSpendUSD then Some(REJECTED)
    else if projected > limit && p.profile.allowBurst &&
            projected - limit > p.profile.burstAllowance - p.burstTokensUsed then Some(REJECTED)
    else if projected > limit && !p.profile.allowBurst then Some(REJECTED)
    else None
  }

  /** The profile part of `releaseSlot`. */
  function Charge(p0: ProfileState, promptTokens: int, completionTokens: int, costUSD: real, now: int): ProfileState {
    var p := ResetIfDue(p0, now);
    var charged := p.(promptTokensUsed := p.promptTokensUsed + promptTokens,
                      completionTokensUsed := p.completionTokensUsed + completionTokens,
                      totalSpendUSD := p.totalSpendUSD + costUSD);
    var over := TotalUsed(charged) - p.profile.totalTokensLimit;
    if over > 0 then charged.(burstTokensUsed := Min(p.profile.burstAllowance, Max(0, over))) else charged
  }

  // ----- rate buckets

  function NewBucket(config: RateConfig, now: int): Bucket {
    Bucket(config, config.maxRequestsPerMinute, config.maxTokensPerMinute, 0, now, Closed, 0, 0, 0, [])
  }

  /** The records at or after `cutoff`. */
  function Since(records: seq<WindowRecord>, cutoff: int): seq<WindowRecord> {
    if records == [] then []
    else Since(records[..|records| - 1], cutoff) +
         if records[|records| - 1].timestamp >= cutoff then [records[|records| - 1]] else []
  }

  function Tokens(records: seq<WindowRecord>): int {
    if records == [] then 0
    else
      var last := records[|records| - 1];
      Tokens(records[..|records| - 1]) + last.promptTokens + last.completionTokens
  }

  function Latency(records: seq<WindowRecord>): real {
    if records == [] then 0.0 else Latency(records[..|records| - 1]) + records[|records| - 1].latencyMs
  }

  function Errors(records: seq<WindowRecord>): nat {
    if records == [] then 0 else Errors(records[..|records| - 1]) + if records[|records| - 1].isError then 1 else 0
  }

  datatype WindowStats = WindowStats(requestCount: nat, tokenCount: int, currentRPM: real, currentTPM: real,
                                     averageLatencyMs: real, errorCount: nat, windowStart: int, windowEnd: int)

  /** `computeRateWindowStats` */
  function StatsOf(b: Bucket, now: int): WindowStats {
    var count, minutes := |b.history|, b.config.windowSizeMs as real / 60000.0;
    WindowStats(count, Tokens(b.history), if minutes > 0.0 then count as real / minutes else 0.0,
                if minutes > 0.0 then Tokens(b.history) as real / minutes else 0.0,
                if count > 0 then Latency(b.history) / count as real else 0.0,
                Errors(b.history), now - b.config.windowSizeMs, now)
  }

  datatype RateLimitState = RateLimitState(providerId: string, currentMaxRPM: real, currentMaxTPM: real,
                                           activeConcurrency: int, maxConcurrency: int, lastAdjustmentTimestamp: int,
                                           windowStats: WindowStats, circuitBreakerState: Breaker, failureStreak: int,
                                           successStreak: int)

  /** What `getDynamicRateLimitState` reports about a pruned bucket. */
  function RateStateOf(id: string, b: Bucket, now: int): RateLimitState {
    RateLimitState(id, b.currentMaxRPM, b.currentMaxTPM, b.activeConcurrency, b.config.maxConcurrentRequests,
                   b.lastAdjustmentTimestamp, StatsOf(b, now), b.circuitBreaker, b.failureStreak, b.successStreak)
  }

  /** `pruneRateHistory` */
  function Prune(b: Bucket, now: int): Bucket {
    b.(history := Since(b.history, now - b.config.windowSizeMs))
  }

  /** The breaker's move in `canExecute`. */
  function TryHalfOpen(b: Bucket, now: int): Bucket {
    if b.circuitBreaker == Open && now >= b.circuitBreakerResetAt then b.(circuitBreaker := HalfOpen) else b
  }

  /** The provider part of `canExecute` on a pruned bucket. */
  function RateDecision(b: Bucket, estimatedTokens: int, now: int): Decision {
    if b.circuitBreaker == Open then Delayed(Max(0, b.circuitBreakerResetAt - now))
    else if b.activeConcurrency >= b.config.maxConcurrentRequests then Delayed(250)
    else if |b.history| as real >= b.currentMaxRPM then Delayed(1000)
    else if (Tokens(b.history) + estimatedTokens) as real > b.currentMaxTPM then Delayed(1000)
    else ALLOWED
  }

  function AcquireSlot(b: Bucket): Bucket {
    if b.activeConcurrency >= b.config.maxConcurrentRequests then b
      else b.(activeConcurrency := b.activeConcurrency + 1)
  }

  function Lowered(ceiling: real, least: real, factor: real): real {
    MaxReal(least, (ceiling * factor).Floor as real)
  }

  function Raised(ceiling: real, most: real, factor: real): real {
    MinReal(most, Ceiling(ceiling * factor) as real)
  }

  /** `scaleDownCeiling` */
  function ScaleDown(b: Bucket, now: int): Bucket {
    b.(currentMaxRPM := Lowered(b.currentMaxRPM, b.config.minRequestsPerMinute, b.config.scaleDownFactor),
       currentMaxTPM := Lowered(b.currentMaxTPM, b.config.minTokensPerMinute, b.config.scaleDownFactor),
       lastAdjustmentTimestamp := now, successStreak := 0)
  }

  predicate AtTop(b: Bucket) {
    b.currentMaxRPM >= b.config.maxRequestsPerMinute && b.currentMaxTPM >= b.config.maxTokensPerMinute
  }

  /** `scaleUpCeiling` */
  function ScaleUp(b: Bucket, now: int): Bucket {
    if AtTop(b) then b
    else
      b.(currentMaxRPM := Raised(b.currentMaxRPM, b.config.maxRequestsPerMinute, b.config.scaleUpFactor),
         currentMaxTPM := Raised(b.currentMaxTPM, b.config.maxTokensPerMinute, b.config.scaleUpFactor),
         lastAdjustmentTimestamp := now, successStreak := 0)
  }

  /** The entry that a change of ceilings leaves in the adjustment log. */
  function AdjustmentOf(id: string, before: Bucket, after: Bucket, reason: string, factor: real, now: int): Adjustment {
    Adjustment(id, before.currentMaxRPM, after.currentMaxRPM, before.currentMaxTPM, after.currentMaxTPM, reason, now,
               factor)
  }

  function ScaleDownEntry(id: string, b: Bucket, reason: string, now: int): Adjustment {
    AdjustmentOf(id, b, ScaleDown(b, now), "Scale down: " + reason, b.config.scaleDownFactor, now)
  }

  function ScaleUpEntry(id: string, b: Bucket, now: int): Option<Adjustment> {
    if AtTop(b) then None
    else Some(AdjustmentOf(id, b, ScaleUp(b, now), "Scale up on success streak", b.config.scaleUpFactor, now))
  }

  /** A release raises the ceilings after twenty successes in a row. */
  function ReleaseEntry(id: string, b: Bucket, record: WindowRecord, now: int): Option<Adjustment> {
    if !record.isError && b.successStreak + 1 >= 20 then ScaleUpEntry(id, b, now) else None
  }

  /** The bucket part of `releaseSlot`. */
  function ReleaseSlot(b0: Bucket, record: WindowRecord, now: int): Bucket {
    var b := b0.(activeConcurrency := Max(0, b0.activeConcurrency - 1), history := b0.history + [record]);
    if record.isError then
      var failed := b.(failureStreak := b.failureStreak + 1, successStreak := 0);
      if failed.failureStreak >= 5 then
        failed.(circuitBreaker := Open, circuitBreakerResetAt := now + b.config.cooldownPeriodMs)
      else failed
    else
      var succeeded := b.(successStreak := b.successStreak + 1, failureStreak := 0,
                          circuitBreaker := if b.circuitBreaker == HalfOpen then Closed else b.circuitBreaker);
      if succeeded.successStreak >= 20 then ScaleUp(succeeded, now) else succeeded
  }

  // ----- the whole controller

  datatype World = World(profiles: map<string, ProfileState>, providers: map<string, Bucket>,
                         adjustments: seq<Adjustment>, throttleEvents: seq<ThrottleEvent>)

  const EMPTY: World := World(map[], map[], [], [])

  datatype Op =
    | RegisterProfile(profileId: string, profile: Profile)
    | RegisterProvider(providerId: string, config: RateConfig)
    | CanExecute(profileId: string, providerId: string, estimatedTokens: int)
    | Acquire(providerId: string)
    | Release(profileId: string, providerId: string, promptTokens: int, completionTokens: int, latencyMs: real,
              costUSD: real, isError: bool)
    | Throttle(providerId: string, report: ThrottleReport)
    | ReadUsage(profileId: string)
    | ReadRates(providerId: string)

  /** The request gets as far as the provider's limits. */
  predicate PassesBudget(w: World, profileId: string, estimatedTokens: int, now: int) {
    profileId in w.profiles && BudgetRefusal(ResetIfDue(w.profiles[profileId], now), estimatedTokens).None?
  }

  /** The answer of `canExecute`. */
  function Answer(w: World, profileId: string, providerId: string, estimatedTokens: int, now: int): Decision {
    if profileId !in w.profiles then REJECTED
    else if !PassesBudget(w, profileId, estimatedTokens, now)
      then BudgetRefusal(ResetIfDue(w.profiles[profileId], now), estimatedTokens).value
    else if providerId !in w.providers then ALLOWED
    else RateDecision(TryHalfOpen(Prune(w.providers[providerId], now), now), estimatedTokens, now)
  }

  /** The record a release leaves in the window. */
  function RecordOf(op: Op, now: int): WindowRecord
    requires op.Release?
  {
    WindowRecord(now, op.promptTokens, op.completionTokens, op.latencyMs, op.isError)
  }

  /** The profiles after one operation at time `now`: only the one it names can change. */
  function StepProfiles(w: World, op: Op, now: int): map<string, ProfileState> {
    var profiles := w.profiles;
    match op
    case RegisterProfile(id, profile) => profiles[id := NewProfile(profile, now)]
    case CanExecute(id, _, _) => if id in profiles then profiles[id := ResetIfDue(profiles[id], now)] else profiles
    case Release(id, _, prompt, completion, _, cost, _) =>
      if id in profiles then profiles[id := Charge(profiles[id], prompt, completion, cost, now)] else profiles
    case ReadUsage(id) => if id in profiles then profiles[id := ResetIfDue(profiles[id], now)] else profiles
    case _ => profiles
  }

  /** The buckets after one operation: only the one it names can change. */
  function StepBuckets(w: World, op: Op, now: int): map<string, Bucket> {
    var buckets := w.providers;
    match op
    case RegisterProvider(id, config) => buckets[id := NewBucket(config, now)]
    case CanExecute(profileId, id, tokens) =>
      if id in buckets && PassesBudget(w, profileId, tokens, now)
        then buckets[id := TryHalfOpen(Prune(buckets[id], now), now)] else buckets
    case Acquire(id) => if id in buckets then buckets[id := AcquireSlot(buckets[id])] else buckets
    case Release(_, id, prompt, completion, latency, _, isError) =>
      var record := WindowRecord(now, prompt, completion, latency, isError);
      if id in buckets then buckets[id := ReleaseSlot(buckets[id], record, now)] else buckets
    case Throttle(id, _) => if id in buckets then buckets[id := ScaleDown(buckets[id], now)] else buckets
    case ReadRates(id) => if id in buckets then buckets[id := Prune(buckets[id], now)] else buckets
    case _ => buckets
  }

  function Logged(log: seq<Adjustment>, entry: Option<Adjustment>): seq<Adjustment> {
    if entry.Some? then log + [entry.value] else log
  }

  /** The adjustment log after one operation. */
  function StepAdjustments(w: World, op: Op, now: int): seq<Adjustment> {
    match op
    case Release(_, id, _, _, _, _, _) =>
      if id in w.providers then Logged(w.adjustments, ReleaseEntry(id, w.providers[id], RecordOf(op, now), now))
        else w.adjustments
    case Throttle(id, report) =>
      if id in w.providers then w.adjustments + [ScaleDownEntry(id, w.providers[id], report.reason, now)]
        else w.adjustments
    case _ => w.adjustments
  }

  function StepEvents(w: World, op: Op, now: int): seq<ThrottleEvent> {
    if op.Throttle? then w.throttleEvents + [ThrottleEvent(op.providerId, op.report, now)] else w.throttleEvents
  }

  function Step(w: World, op: Op, now: int): World {
    World(StepProfiles(w, op, now), StepBuckets(w, op, now), StepAdjustments(w, op, now), StepEvents(w, op, now))
  }
}
