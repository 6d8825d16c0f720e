/** Whole runs of the budget controller: any operations, at any nondecreasing times, from an empty controller. */
module BudgetRuns {
  import opened Base
  import opened BudgetModel

  datatype Event = Event(op: Op, now: int)

  /** The controller after a trace. */
  function Run(trace: seq<Event>): World {
    if trace == [] then EMPTY
    else Step(Run(trace[..|trace| - 1]), trace[|trace| - 1].op, trace[|trace| - 1].now)
  }

  predicate Monotone(trace: seq<Event>) {
    forall i, j :: 0 <= i < j < |trace| ==> trace[i].now <= trace[j].now
  }

  // ----- the sliding window refines the full log

  function NextLog(log: seq<WindowRecord>, op: Op, now: int, id: string): seq<WindowRecord> {
    match op
    case RegisterProvider(p, _) => if p == id then [] else log
    case Release(_, p, _, _, _, _, _) => if p == id then log + [RecordOf(op, now)] else log
    case _ => log
  }

  /** Every release to a provider since it was last registered; nothing is ever dropped from it. */
  function Log(trace: seq<Event>, id: string): seq<WindowRecord> {
    if trace == [] then []
    else NextLog(Log(trace[..|trace| - 1], id), trace[|trace| - 1].op, trace[|trace| - 1].now, id)
  }

  lemma {:induction false} SinceTwice(records: seq<WindowRecord>, early: int, late: int)
    requires early <= late
    ensures Since(Since(records, early), late) == Since(records, late)
  {
    if records != [] {
      var front, last := records[..|records| - 1], records[|records| - 1];
      SinceTwice(front, early, late);
      if last.timestamp >= early {
        var kept := Since(front, early) + [last];
        assert kept[..|kept| - 1] == Since(front, early);
      } else {
        assert Since(records, early) == Since(front, early);
      }
    }
  }

  lemma SinceAppend(records: seq<WindowRecord>, r: WindowRecord, cutoff: int)
    ensures Since(records + [r], cutoff) == Since(records, cutoff) + if r.timestamp >= cutoff then [r] else []
  {
    assert (records + [r])[..|records|] == records;
  }

  predicate SameWindow(b: Bucket, log: seq<WindowRecord>, now: int) {
    Since(b.history, now - b.config.windowSizeMs) == Since(log, now - b.config.windowSizeMs)
  }

  /** The bucket kept under `id` after one operation. */
  function NextBucket(w: World, op: Op, now: int, id: string): Bucket
    requires id in StepBuckets(w, op, now)
  {
    StepBuckets(w, op, now)[id]
  }

  lemma PruneKeepsWindow(b: Bucket, log: seq<WindowRecord>, at: int, now: int)
    requires at <= now && SameWindow(b, log, now)
    ensures SameWindow(Prune(b, at), log, now)
  {
    SinceTwice(b.history, at - b.config.windowSizeMs, now - b.config.windowSizeMs);
  }

  lemma ReleaseAppends(b: Bucket, r: WindowRecord, at: int)
    ensures ReleaseSlot(b, r, at).history == b.history + [r] && ReleaseSlot(b, r, at).config == b.config
  {
  }

  predicate IsRelease(op: Op, id: string) {
    op.Release? && op.providerId == id
  }

  predicate IsRegistration(op: Op, id: string) {
    op.RegisterProvider? && op.providerId == id
  }

  /** An operation appends to the history, prunes it, or leaves it. */
  lemma HistoryStep(w: World, op: Op, at: int, id: string)
    requires id in w.providers && !IsRegistration(op, id)
    ensures NextBucket(w, op, at, id).config == w.providers[id].config
    ensures IsRelease(op, id) ==> NextBucket(w, op, at, id).history == w.providers[id].history + [RecordOf(op, at)]
    ensures
      IsRelease(op, id) || NextBucket(w, op, at, id).history == w.providers[id].history
      || NextBucket(w, op, at, id).history == Prune(w.providers[id], at).history
  {
    if IsRelease(op, id) {
      ReleaseAppends(w.providers[id], RecordOf(op, at), at);
    }
  }

  lemma AppendKeepsWindow(b: Bucket, after: Bucket, log: seq<WindowRecord>, r: WindowRecord, now: int)
    requires SameWindow(b, log, now) && after.config == b.config && after.history == b.history + [r]
    ensures SameWindow(after, log + [r], now)
  {
    SinceAppend(b.history, r, now - b.config.windowSizeMs);
    SinceAppend(log, r, now - b.config.windowSizeMs);
  }

  lemma WindowStep(w: World, op: Op, at: int, id: string, log: seq<WindowRecord>, now: int)
    requires id in w.providers && !IsRegistration(op, id) && at <= now && SameWindow(w.providers[id], log, now)
    ensures SameWindow(NextBucket(w, op, at, id), NextLog(log, op, at, id), now)
  {
    var b, after := w.providers[id], NextBucket(w, op, at, id);
    HistoryStep(w, op, at, id);
    if IsRelease(op, id) {
      AppendKeepsWindow(b, after, log, RecordOf(op, at), now);
    } else {
      PruneKeepsWindow(b, log, at, now);
      assert SameWindow(after, log, now) && NextLog(log, op, at, id) == log;
    }
  }

  predicate PastOf(trace: seq<Event>, now: int) {
    Monotone(trace) && (trace != [] ==> trace[|trace| - 1].now <= now)
  }

  lemma {:induction false} WindowInvariant(trace: seq<Event>, id: string, now: int)
    requires PastOf(trace, now) && id in Run(trace).providers
    ensures SameWindow(Run(trace).providers[id], Log(trace, id), now)
  {
    var front, last := trace[..|trace| - 1], trace[|trace| - 1];
    assert Run(trace) == Step(Run(front), last.op, last.now);
    if IsRegistration(last.op, id) {
      assert Log(trace, id) == [];
    } else {
      WindowInvariant(front, id, now);
      WindowStep(Run(front), last.op, last.now, id, Log(front, id), now);
    }
  }

  /** A prune at any later time leaves exactly the logged releases inside the window, whatever was pruned before. */
  lemma WindowRefinesLog(trace: seq<Event>, id: string, now: int)
    requires PastOf(trace, now) && id in Run(trace).providers
    ensures Prune(Run(trace).providers[id], now).history
            == Since(Log(trace, id), now - Run(trace).providers[id].config.windowSizeMs)
  {
    WindowInvariant(trace, id, now);
  }

  // ----- ceilings, concurrency, streaks

  /** The two ceilings of a bucket: requests and tokens per minute. */
  datatype Axis = Rpm | Tpm

  function Least(c: RateConfig, axis: Axis): real {
    if axis == Rpm then c.minRequestsPerMinute else c.minTokensPerMinute
  }

  function Most(c: RateConfig, axis: Axis): real {
    if axis == Rpm then c.maxRequestsPerMinute else c.maxTokensPerMinute
  }

  function CeilingOf(b: Bucket, axis: Axis): real {
    if axis == Rpm then b.currentMaxRPM else b.currentMaxTPM
  }

  predicate LegalFactors(c: RateConfig) {
    0.0 <= c.scaleDownFactor <= 1.0 <= c.scaleUpFactor
  }

  predicate InRange(b: Bucket, axis: Axis) {
    Least(b.config, axis) <= CeilingOf(b, axis) <= Most(b.config, axis)
  }

  /** A range with a nonnegative top, and legal factors. */
  predicate SoundAxis(c: RateConfig, axis: Axis) {
    LegalFactors(c) && Least(c, axis) <= Most(c, axis) && 0.0 <= Most(c, axis)
  }

  predicate AxisSound(b: Bucket, axis: Axis) {
    SoundAxis(b.config, axis) ==> InRange(b, axis) && 0.0 <= CeilingOf(b, axis)
  }

  predicate BucketSound(b: Bucket) {
    && AxisSound(b, Rpm) && AxisSound(b, Tpm)
    && 0 <= b.activeConcurrency <= Max(0, b.config.maxConcurrentRequests)
    && 0 <= b.failureStreak && 0 <= b.successStreak
    && (b.failureStreak == 0 || b.successStreak == 0)
    && (b.circuitBreaker == Closed ==> b.failureStreak < 5)
  }

  lemma FloorOfShrunk(x: real, f: real)
    requires 0.0 <= x && 0.0 <= f <= 1.0
    ensures 0 <= (x * f).Floor && (x * f).Floor as real <= x
  {
    assert 0.0 <= x * f <= x * 1.0;
  }

  lemma CeilingOfGrown(x: real, f: real)
    requires 0.0 <= x && 1.0 <= f
    ensures Ceiling(x * f) as real >= x
  {
    assert x * f >= x * 1.0;
  }

  /**
   * Scaling a nonnegative ceiling either way keeps it nonnegative and in its range, whatever the sign of the minimum.
   */
  lemma ScalesWithinRange(least: real, most: real, c: real, down: real, up: real)
    requires 0.0 <= c && least <= c <= most && 0.0 <= down <= 1.0 <= up
    ensures 0.0 <= Lowered(c, least, down) && least <= Lowered(c, least, down) <= most
    ensures 0.0 <= Raised(c, most, up) && least <= Raised(c, most, up) <= most
  {
    FloorOfShrunk(c, down);
    CeilingOfGrown(c, up);
  }

  lemma AxisScales(b: Bucket, axis: Axis, now: int)
    requires AxisSound(b, axis)
    ensures AxisSound(ScaleDown(b, now), axis) && AxisSound(ScaleUp(b, now), axis)
  {
    var c := b.config;
    if SoundAxis(c, axis) {
      ScalesWithinRange(Least(c, axis), Most(c, axis), CeilingOf(b, axis), c.scaleDownFactor, c.scaleUpFactor);
    }
  }

  lemma ScaleDownSound(b: Bucket, now: int)
    requires BucketSound(b)
    ensures BucketSound(ScaleDown(b, now))
  {
    AxisScales(b, Rpm, now);
    AxisScales(b, Tpm, now);
  }

  lemma ScaleUpSound(b: Bucket, now: int)
    requires BucketSound(b)
    ensures BucketSound(ScaleUp(b, now))
  {
    AxisScales(b, Rpm, now);
    AxisScales(b, Tpm, now);
  }

  lemma ReleaseSound(b: Bucket, record: WindowRecord, now: int)
    requires BucketSound(b)
    ensures BucketSound(ReleaseSlot(b, record, now))
  {
    if !record.isError {
      var given := b.(activeConcurrency := Max(0, b.activeConcurrency - 1), history := b.history + [record]);
      var succeeded := given.(successStreak := b.successStreak + 1, failureStreak := 0,
                              circuitBreaker := if b.circuitBreaker == HalfOpen then Closed else b.circuitBreaker);
      assert BucketSound(succeeded);
      ScaleUpSound(succeeded, now);
    }
  }

  lemma NewBucketSound(config: RateConfig, now: int)
    ensures BucketSound(NewBucket(config, now))
  {
  }

  lemma AdmitSound(b: Bucket, now: int)
    requires BucketSound(b)
    ensures BucketSound(Prune(b, now)) && BucketSound(TryHalfOpen(Prune(b, now), now)) && BucketSound(AcquireSlot(b))
  {
  }

  lemma BucketStepSound(w: World, op: Op, now: int, id: string)
    requires id in w.providers && BucketSound(w.providers[id])
    ensures BucketSound(NextBucket(w, op, now, id))
  {
    var b := w.providers[id];
    match op
    case RegisterProvider(_, config) => NewBucketSound(config, now);
    case Release(_, _, _, _, _, _, _) => ReleaseSound(b, RecordOf(op, now), now);
    case Throttle(_, _) => ScaleDownSound(b, now);
    case _ => AdmitSound(b, now);
  }

  /**
   * After every run every bucket is sound: ceilings in range, concurrency bounded, streaks exclusive, closed below five
   * failures.
   */
  lemma {:induction false} BucketsStaySound(trace: seq<Event>, id: string)
    requires id in Run(trace).providers
    ensures BucketSound(Run(trace).providers[id])
  {
    var front, last := trace[..|trace| - 1], trace[|trace| - 1];
    assert Run(trace) == Step(Run(front), last.op, last.now);
    if id in Run(front).providers {
      BucketsStaySound(front, id);
      BucketStepSound(Run(front), last.op, last.now, id);
    } else {
      NewBucketSound(last.op.config, last.now);
    }
  }

  /** The ceiling of one axis is in range, in a bucket with legal factors and this range. */
  predicate CeilingHolds(trace: seq<Event>, id: string, axis: Axis, least: real, most: real) {
    id !in Run(trace).providers ||
    var b := Run(trace).providers[id];
    LegalFactors(b.config) && Least(b.config, axis) == least && Most(b.config, axis) == most ==> InRange(b, axis)
  }

  lemma ThrottledOnce(config: RateConfig, report: ThrottleReport)
    ensures
      var trace := [Event(RegisterProvider("p", config), 0), Event(Throttle("p", report), 0)];
      "p" in Run(trace).providers && Run(trace).providers["p"] == ScaleDown(NewBucket(config, 0), 0)
  {
    var trace := [Event(RegisterProvider("p", config), 0), Event(Throttle("p", report), 0)];
    assert trace[..1][..0] == [] && trace[..1][0] == trace[0];
    assert Run(trace[..1]) == Step(EMPTY, trace[0].op, 0);
  }

  /** A ceiling starts at its maximum; scaled by zero it leaves a range that is negative throughout. */
  lemma NegativeTopBreaks(axis: Axis, least: real, most: real)
    requires least <= most < 0.0
    ensures exists trace, id :: !CeilingHolds(trace, id, axis, least, most)
  {
    var config := RateConfig(most, most, 1, 1, least, least, 1.0, 0.0, 1);
    var report := ThrottleReport("", "", "", "", "", 0, 0, 0, "");
    var trace := [Event(RegisterProvider("p", config), 0), Event(Throttle("p", report), 0)];
    ThrottledOnce(config, report);
    assert Lowered(most, least, 0.0) == 0.0;
    assert !CeilingHolds(trace, "p", axis, least, most);
  }

  /**
   * With legal factors a ceiling stays in its range in every run exactly when the top of the range is not negative;
   * a negative bottom does no harm, since a ceiling starts at the top and never becomes negative.
   */
  lemma CeilingsExact(axis: Axis, least: real, most: real)
    requires least <= most
    ensures (forall trace, id :: CeilingHolds(trace, id, axis, least, most)) <==> 0.0 <= most
  {
    if 0.0 <= most {
      forall trace, id ensures CeilingHolds(trace, id, axis, least, most) {
        if id in Run(trace).providers {
          BucketsStaySound(trace, id);
        }
      }
    } else {
      NegativeTopBreaks(axis, least, most);
    }
  }

  // ----- the circuit breaker

  predicate NotReregistered(trace: seq<Event>, id: string, from: nat) {
    forall k :: from <= k < |trace| ==> !IsRegistration(trace[k].op, id)
  }

  predicate BreakerAt(trace: seq<Event>, k: nat, id: string, state: Breaker)
    requires k <= |trace|
  {
    id in Run(trace[..k]).providers && Run(trace[..k]).providers[id].circuitBreaker == state
  }

  /** Event `k` is a `canExecute` no earlier than `time` that moves the breaker from open to half-open. */
  predicate HalfOpensAt(trace: seq<Event>, k: nat, id: string, time: int) {
    && k < |trace| && trace[k].op.CanExecute? && trace[k].op.providerId == id && trace[k].now >= time
    && BreakerAt(trace, k, id, Open) && BreakerAt(trace, k + 1, id, HalfOpen)
  }

  /** Release `i` fails and trips the breaker. */
  predicate OpensAt(trace: seq<Event>, i: nat, id: string) {
    && i < |trace| && trace[i].op.Release? && trace[i].op.providerId == id && trace[i].op.isError
    && BreakerAt(trace, i + 1, id, Open) && Run(trace[..i + 1]).providers[id].failureStreak >= 5
  }

  lemma PrefixOf(trace: seq<Event>, k: nat)
    requires k < |trace|
    ensures Run(trace[..k + 1]) == Step(Run(trace[..k]), trace[k].op, trace[k].now)
  {
    assert trace[..k + 1][..k] == trace[..k];
  }

  predicate HalfOpenedBetween(trace: seq<Event>, i: nat, j: nat, id: string, due: int) {
    exists k: nat :: i < k < j && HalfOpensAt(trace, k, id, due)
  }

  /** Open, and not to be half-opened before `due`. */
  predicate OpenUntil(b: Bucket, due: int) {
    b.circuitBreaker == Open && b.circuitBreakerResetAt >= due
  }

  /** One operation leaves an open breaker open, with no earlier reset time, unless it is a due `canExecute`. */
  lemma OpenStep(w: World, op: Op, now: int, id: string, due: int)
    requires id in w.providers && OpenUntil(w.providers[id], due)
    requires !IsRegistration(op, id)
    requires now + w.providers[id].config.cooldownPeriodMs >= due
    ensures NextBucket(w, op, now, id).config == w.providers[id].config
    ensures
      || OpenUntil(NextBucket(w, op, now, id), due)
      || (op.CanExecute? && op.providerId == id && now >= due && NextBucket(w, op, now, id).circuitBreaker == HalfOpen)
  {
  }

  predicate WaitsAt(trace: seq<Event>, j: nat, id: string, cooldown: int, due: int)
    requires j <= |trace|
  {
    var buckets := Run(trace[..j]).providers;
    id in buckets && buckets[id].config.cooldownPeriodMs == cooldown && OpenUntil(buckets[id], due)
  }

  lemma WaitStep(trace: seq<Event>, j: nat, id: string, cooldown: int, due: int)
    requires j < |trace| && WaitsAt(trace, j, id, cooldown, due)
    requires !IsRegistration(trace[j].op, id) && trace[j].now + cooldown >= due
    ensures WaitsAt(trace, j + 1, id, cooldown, due) || HalfOpensAt(trace, j, id, due)
  {
    PrefixOf(trace, j);
    OpenStep(Run(trace[..j]), trace[j].op, trace[j].now, id, due);
  }

  lemma {:induction false} WaitsUntilHalfOpened(trace: seq<Event>, i: nat, j: nat, id: string, cooldown: int, due: int)
    requires i < j <= |trace| && WaitsAt(trace, i + 1, id, cooldown, due)
    requires forall k :: i < k < |trace| ==> !IsRegistration(trace[k].op, id) && trace[k].now + cooldown >= due
    ensures HalfOpenedBetween(trace, i, j, id, due) || WaitsAt(trace, j, id, cooldown, due)
  {
    if j > i + 1 {
      WaitsUntilHalfOpened(trace, i, j - 1, id, cooldown, due);
      if HalfOpenedBetween(trace, i, j - 1, id, due) {
        var k: nat :| i < k < j - 1 && HalfOpensAt(trace, k, id, due);
        assert HalfOpensAt(trace, k, id, due);
      } else {
        WaitStep(trace, j - 1, id, cooldown, due);
      }
    }
  }

  /** A failed release that trips the breaker sets its reset time. */
  lemma OpeningSetsReset(w: World, op: Op, now: int, id: string)
    requires IsRelease(op, id) && op.isError && id in w.providers
    requires NextBucket(w, op, now, id).failureStreak >= 5
    ensures OpenUntil(NextBucket(w, op, now, id), now + w.providers[id].config.cooldownPeriodMs)
    ensures NextBucket(w, op, now, id).config == w.providers[id].config
  {
  }

  /**
   * A breaker opened at `t` is found closed later only if a `canExecute` at `t + cooldown` or later half-opened it in
   * between.
   */
  lemma ClosedOnlyAfterCooldown(trace: seq<Event>, i: nat, j: nat, id: string) returns (k: nat)
    requires Monotone(trace) && NotReregistered(trace, id, i + 1) && OpensAt(trace, i, id) && i < j <= |trace|
    requires BreakerAt(trace, j, id, Closed)
    ensures i < k < j
    ensures HalfOpensAt(trace, k, id, trace[i].now + Run(trace[..i + 1]).providers[id].config.cooldownPeriodMs)
  {
    PrefixOf(trace, i);
    OpeningSetsReset(Run(trace[..i]), trace[i].op, trace[i].now, id);
    var cooldown := Run(trace[..i + 1]).providers[id].config.cooldownPeriodMs;
    var due := trace[i].now + cooldown;
    WaitsUntilHalfOpened(trace, i, j, id, cooldown, due);
    k :| i < k < j && HalfOpensAt(trace, k, id, due);
  }
}
