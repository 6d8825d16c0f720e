/** `BudgetController`: mutable profiles and rate buckets, method by method against the transitions of `BudgetModel`. */
module BudgetController {
  import opened Base
  import opened BudgetModel

  class InternalProfileState {
    var profile: Profile
    var promptTokensUsed: int
    var completionTokensUsed: int
    var totalSpendUSD: real
    var burstTokensUsed: int
    var lastResetTimestamp: int

    constructor (profile: Profile, now: int)
      ensures View() == NewProfile(profile, now)
    {
      this.profile := profile;
      promptTokensUsed, completionTokensUsed, totalSpendUSD, burstTokensUsed := 0, 0, 0.0, 0;
      lastResetTimestamp := now;
    }

    function View(): ProfileState
      reads this
    {
      ProfileState(profile, promptTokensUsed, completionTokensUsed, totalSpendUSD, burstTokensUsed, lastResetTimestamp)
    }

    /** `resetProfileIfDue` */
    method ResetProfileIfDue(now: int)
      modifies this
      ensures View() == ResetIfDue(old(View()), now)
    {
      if now - lastResetTimestamp >= profile.resetIntervalMs {
        promptTokensUsed := 0;
        completionTokensUsed := 0;
        totalSpendUSD := 0.0;
        burstTokensUsed := 0;
        lastResetTimestamp := now;
      }
    }

    /** The profile part of `releaseSlot` */
    method ChargeTokens(promptTokens: int, completionTokens: int, costUSD: real, now: int)
      modifies this
      ensures View() == Charge(old(View()), promptTokens, completionTokens, costUSD, now)
    {
      ResetProfileIfDue(now);
      promptTokensUsed := promptTokensUsed + promptTokens;
      completionTokensUsed := completionTokensUsed + completionTokens;
      totalSpendUSD := totalSpendUSD + costUSD;
      var newTotal := promptTokensUsed + completionTokensUsed;
      if newTotal > profile.totalTokensLimit {
        var over := newTotal - profile.totalTokensLimit;
        burstTokensUsed := Min(profile.burstAllowance, Max(0, over));
      }
    }
  }

  predicate HasFreeSlot(b: Bucket) {
    b.activeConcurrency < b.config.maxConcurrentRequests
  }

  class ProviderRateBucket {
    var config: RateConfig
    var currentMaxRPM: real
    var currentMaxTPM: real
    var activeConcurrency: int
    var lastAdjustmentTimestamp: int
    var circuitBreaker: Breaker
    var circuitBreakerResetAt: int
    var failureStreak: int
    var successStreak: int
    var history: seq<WindowRecord>

    constructor (config: RateConfig, now: int)
      ensures View() == NewBucket(config, now)
    {
      this.config := config;
      currentMaxRPM, currentMaxTPM := config.maxRequestsPerMinute, config.maxTokensPerMinute;
      activeConcurrency, lastAdjustmentTimestamp := 0, now;
      circuitBreaker, circuitBreakerResetAt := Closed, 0;
      failureStreak, successStreak := 0, 0;
      history := [];
    }

    function View(): Bucket
      reads this
    {
      Bucket(config, currentMaxRPM, currentMaxTPM, activeConcurrency, lastAdjustmentTimestamp, circuitBreaker,
             circuitBreakerResetAt, failureStreak, successStreak, history)
    }

    /** `pruneRateHistory`: the filter keeps the records inside the window, in order. */
    method PruneRateHistory(now: int)
      modifies this`history
      ensures View() == Prune(old(View()), now)
    {
      var cutoff := now - config.windowSizeMs;
      var kept: seq<WindowRecord> := [];
      for n := 0 to |history|
        invariant kept == Since(history[..n], cutoff)
        invariant history == old(history)
      {
        assert history[..n + 1][..n] == history[..n];
        if history[n].timestamp >= cutoff {
          kept := kept + [history[n]];
        }
      }
      assert history[..|history|] == history;
      history := kept;
    }

    /** `computeRateWindowStats`: one pass over the history. */
    method ComputeRateWindowStats(now: int) returns (stats: WindowStats)
      ensures stats == StatsOf(View(), now)
    {
      var tokens, latencySum, errors := 0, 0.0, 0;
      for n := 0 to |history|
        invariant tokens == Tokens(history[..n]) && latencySum == Latency(history[..n])
        invariant errors == Errors(history[..n])
      {
        assert history[..n + 1][..n] == history[..n];
        tokens := tokens + history[n].promptTokens + history[n].completionTokens;
        latencySum := latencySum + history[n].latencyMs;
        if history[n].isError {
          errors := errors + 1;
        }
      }
      assert history[..|history|] == history;
      var count, minutes := |history|, config.windowSizeMs as real / 60000.0;
      stats := WindowStats(count, tokens, if minutes > 0.0 then count as real / minutes else 0.0,
                           if minutes > 0.0 then tokens as real / minutes else 0.0,
                           if count > 0 then latencySum / count as real
                             else 0.0, errors, now - config.windowSizeMs, now);
    }

    /** The provider part of `canExecute` */
    method Admit(estimatedTokens: int, now: int) returns (d: Decision)
      modifies this
      ensures View() == TryHalfOpen(Prune(old(View()), now), now)
      ensures d == RateDecision(View(), estimatedTokens, now)
    {
      PruneRateHistory(now);
      if circuitBreaker == Open {
        if now >= circuitBreakerResetAt {
          circuitBreaker := HalfOpen;
        } else {
          return Delayed(Max(0, circuitBreakerResetAt - now));
        }
      }
      if activeConcurrency >= config.maxConcurrentRequests {
        return Delayed(250);
      }
      if |history| as real >= currentMaxRPM {
        return Delayed(1000);
      }
      if (Tokens(history) + estimatedTokens) as real > currentMaxTPM {
        return Delayed(1000);
      }
      return ALLOWED;
    }

    method TakeSlot() returns (taken: bool)
      modifies this`activeConcurrency
      ensures View() == AcquireSlot(old(View()))
      ensures taken <==> old(activeConcurrency) < config.maxConcurrentRequests
    {
      if activeConcurrency >= config.maxConcurrentRequests {
        return false;
      }
      activeConcurrency := activeConcurrency + 1;
      return true;
    }

    /** `scaleDownCeiling`, with the entry for the adjustment log */
    method ScaleDownCeiling(providerId: string, reason: string, now: int) returns (entry: Adjustment)
      modifies this
      ensures View() == ScaleDown(old(View()), now)
      ensures entry == ScaleDownEntry(providerId, old(View()), reason, now)
    {
      var prevRPM, prevTPM := currentMaxRPM, currentMaxTPM;
      currentMaxRPM := Lowered(currentMaxRPM, config.minRequestsPerMinute, config.scaleDownFactor);
      currentMaxTPM := Lowered(currentMaxTPM, config.minTokensPerMinute, config.scaleDownFactor);
      lastAdjustmentTimestamp := now;
      successStreak := 0;
      entry := Adjustment(providerId, prevRPM, currentMaxRPM, prevTPM, currentMaxTPM, "Scale down: " + reason, now,
                          config.scaleDownFactor);
    }

    /** `scaleUpCeiling`, with its entry unless both ceilings are at the top */
    method ScaleUpCeiling(providerId: string, now: int) returns (entry: Option<Adjustment>)
      modifies this
      ensures View() == ScaleUp(old(View()), now)
      ensures entry == ScaleUpEntry(providerId, old(View()), now)
    {
      if currentMaxRPM >= config.maxRequestsPerMinute && currentMaxTPM >= config.maxTokensPerMinute {
        return None;
      }
      var prevRPM, prevTPM := currentMaxRPM, currentMaxTPM;
      currentMaxRPM := Raised(currentMaxRPM, config.maxRequestsPerMinute, config.scaleUpFactor);
      currentMaxTPM := Raised(currentMaxTPM, config.maxTokensPerMinute, config.scaleUpFactor);
      lastAdjustmentTimestamp := now;
      successStreak := 0;
      entry := Some(Adjustment(providerId, prevRPM, currentMaxRPM, prevTPM, currentMaxTPM, "Scale up on success streak",
                               now, config.scaleUpFactor));
    }

    /** The bucket part of `releaseSlot` */
    method GiveBackSlot(providerId: string, record: WindowRecord, now: int) returns (entry: Option<Adjustment>)
      modifies this
      ensures View() == ReleaseSlot(old(View()), record, now)
      ensures entry == ReleaseEntry(providerId, old(View()), record, now)
    {
      entry := None;
      activeConcurrency := Max(0, activeConcurrency - 1);
      history := history + [record];
      if record.isError {
        failureStreak := failureStreak + 1;
        successStreak := 0;
        if failureStreak >= 5 {
          circuitBreaker := Open;
          circuitBreakerResetAt := now + config.cooldownPeriodMs;
        }
      } else {
        successStreak := successStreak + 1;
        failureStreak := 0;
        if circuitBreaker == HalfOpen {
          circuitBreaker := Closed;
        }
        if successStreak >= 20 {
          entry := ScaleUpCeiling(providerId, now);
        }
      }
    }
  }

  lemma ThrottleKnown(w: World, id: string, report: ThrottleReport, now: int)
    requires id in w.providers
    ensures Step(w, Op.Throttle(id, report), now) ==
            World(w.profiles, w.providers[id := ScaleDown(w.providers[id], now)],
                  w.adjustments + [ScaleDownEntry(id, w.providers[id], report.reason, now)],
                  w.throttleEvents + [ThrottleEvent(id, report, now)])
  {
  }

  lemma ThrottleUnknown(w: World, id: string, report: ThrottleReport, now: int)
    requires id !in w.providers
    ensures Step(w, Op.Throttle(id, report), now)
            == w.(throttleEvents := w.throttleEvents + [ThrottleEvent(id, report, now)])
  {
  }

  class BudgetController {
    var profiles: map<string, InternalProfileState>
    var providers: map<string, ProviderRateBucket>
    var adjustments: seq<Adjustment>
    var throttleEvents: seq<ThrottleEvent>

    /** Different keys hold different objects. */
    ghost predicate Valid()
      reads this
    {
      && (forall a, b :: a in profiles && b in profiles && a != b ==> profiles[a] != profiles[b])
      && (forall a, b :: a in providers && b in providers && a != b ==> providers[a] != providers[b])
    }

    ghost function ProfileObjects(): set<object>
      reads this
    {
      set id | id in profiles :: profiles[id]
    }

    ghost function BucketObjects(): set<object>
      reads this
    {
      set id | id in providers :: providers[id]
    }

    ghost function Profiles(): map<string, ProfileState>
      reads this, ProfileObjects()
    {
      map id | id in profiles :: profiles[id].View()
    }

    ghost function Buckets(): map<string, Bucket>
      reads this, BucketObjects()
    {
      map id | id in providers :: providers[id].View()
    }

    ghost function View(): World
      reads this, ProfileObjects(), BucketObjects()
    {
      World(Profiles(), Buckets(), adjustments, throttleEvents)
    }

    constructor ()
      ensures Valid() && View() == EMPTY
    {
      profiles, providers := map[], map[];
      adjustments, throttleEvents := [], [];
    }

    method RegisterProfile(id: string, profile: Profile, now: int)
      requires Valid()
      modifies this`profiles
      ensures Valid() && View() == Step(old(View()), Op.RegisterProfile(id, profile), now)
      ensures BucketObjects() == old(BucketObjects()) && fresh(ProfileObjects() - old(ProfileObjects()))
    {
      var state := new InternalProfileState(profile, now);
      profiles := profiles[id := state];
      assert Buckets() == old(Buckets());
      assert Profiles() == old(Profiles())[id := NewProfile(profile, now)];
    }

    method RegisterProviderCeiling(id: string, config: RateConfig, now: int)
      requires Valid()
      modifies this`providers
      ensures Valid() && View() == Step(old(View()), Op.RegisterProvider(id, config), now)
      ensures ProfileObjects() == old(ProfileObjects()) && fresh(BucketObjects() - old(BucketObjects()))
    {
      var bucket := new ProviderRateBucket(config, now);
      providers := providers[id := bucket];
      assert Profiles() == old(Profiles());
      assert Buckets() == old(Buckets())[id := NewBucket(config, now)];
    }

    /** `checkAndResetProfile` */
    method CheckAndResetProfile(id: string, now: int)
      requires Valid() && id in profiles
      modifies ProfileObjects()
      ensures Profiles() == old(Profiles())[id := ResetIfDue(old(profiles[id].View()), now)]
      ensures Buckets() == old(Buckets())
    {
      profiles[id].ResetProfileIfDue(now);
    }

    /** `canExecute` */
    method CanExecute(profileId: string, providerId: string, estimatedTokens: int, now: int) returns (d: Decision)
      requires Valid()
      modifies ProfileObjects(), BucketObjects()
      ensures View() == Step(old(View()), Op.CanExecute(profileId, providerId, estimatedTokens), now)
      ensures d == Answer(old(View()), profileId, providerId, estimatedTokens, now)
    {
      if profileId !in profiles {
        return REJECTED;
      }
      CheckAndResetProfile(profileId, now);
      assert profiles[profileId].View() == Profiles()[profileId];
      var refusal := BudgetRefusal(profiles[profileId].View(), estimatedTokens);
      if refusal.Some? {
        return refusal.value;
      }
      if providerId !in providers {
        return ALLOWED;
      }
      d := AdmitTo(providerId, estimatedTokens, now);
    }

    /** The provider part of `canExecute` */
    method AdmitTo(id: string, estimatedTokens: int, now: int) returns (d: Decision)
      requires Valid() && id in providers
      modifies BucketObjects()
      ensures Profiles() == old(Profiles())
      ensures Buckets() == old(Buckets())[id := TryHalfOpen(Prune(old(providers[id].View()), now), now)]
      ensures d == RateDecision(Buckets()[id], estimatedTokens, now)
    {
      d := providers[id].Admit(estimatedTokens, now);
    }

    /** `acquireSlot` */
    method AcquireSlot(providerId: string) returns (acquired: bool)
      requires Valid()
      modifies BucketObjects()
      ensures forall now :: View() == Step(old(View()), Op.Acquire(providerId), now)
      ensures acquired <==> providerId !in old(Buckets()) || HasFreeSlot(old(Buckets())[providerId])
    {
      if providerId !in providers {
        return true;
      }
      acquired := providers[providerId].TakeSlot();
      assert Profiles() == old(Profiles());
      assert Buckets() == old(Buckets())[providerId := BudgetModel.AcquireSlot(old(providers[providerId].View()))];
    }

    /** `releaseSlot` */
    method ReleaseSlot(profileId: string, providerId: string, promptTokens: int, completionTokens: int, latencyMs: real,
                       costUSD: real, isError: bool, now: int)
      requires Valid()
      modifies this`adjustments, ProfileObjects(), BucketObjects()
      ensures View() == Step(old(View()),
                             Op.Release(profileId, providerId, promptTokens, completionTokens, latencyMs, costUSD,
                                        isError), now)
    {
      if providerId in providers {
        GiveBackSlotTo(providerId, WindowRecord(now, promptTokens, completionTokens, latencyMs, isError), now);
      }
      if profileId in profiles {
        ChargeTokensTo(profileId, promptTokens, completionTokens, costUSD, now);
      }
    }

    /** The bucket part of `releaseSlot` */
    method GiveBackSlotTo(id: string, record: WindowRecord, now: int)
      requires Valid() && id in providers
      modifies this`adjustments, BucketObjects()
      ensures Profiles() == old(Profiles())
      ensures Buckets() == old(Buckets())[id := BudgetModel.ReleaseSlot(old(providers[id].View()), record, now)]
      ensures adjustments == Logged(old(adjustments), ReleaseEntry(id, old(providers[id].View()), record, now))
    {
      var entry := providers[id].GiveBackSlot(id, record, now);
      if entry.Some? {
        adjustments := adjustments + [entry.value];
      }
    }

    /** The profile part of `releaseSlot` */
    method ChargeTokensTo(id: string, promptTokens: int, completionTokens: int, costUSD: real, now: int)
      requires Valid() && id in profiles
      modifies ProfileObjects()
      ensures Profiles() == old(Profiles())[id := Charge(old(profiles[id].View()), promptTokens, completionTokens,
                                                         costUSD, now)]
      ensures Buckets() == old(Buckets())
    {
      profiles[id].ChargeTokens(promptTokens, completionTokens, costUSD, now);
    }

    /** `recordThrottleEvent` */
    method RecordThrottleEvent(providerId: string, report: ThrottleReport, now: int) returns (event: ThrottleEvent)
      requires Valid()
      modifies this`throttleEvents, this`adjustments, BucketObjects()
      ensures View() == Step(old(View()), Op.Throttle(providerId, report), now)
      ensures event == ThrottleEvent(providerId, report, now)
    {
      ghost var before := View();
      event := ThrottleEvent(providerId, report, now);
      throttleEvents := throttleEvents + [event];
      assert View() == before.(throttleEvents := before.throttleEvents + [event]);
      if providerId in providers {
        assert providers[providerId].View() == before.providers[providerId];
        ScaleDownOf(providerId, report.reason, now);
        ThrottleKnown(before, providerId, report, now);
      } else {
        ThrottleUnknown(before, providerId, report, now);
      }
    }

    /** `scaleDownCeiling` of one bucket, and its entry in the log */
    method ScaleDownOf(id: string, reason: string, now: int)
      requires Valid() && id in providers
      modifies this`adjustments, BucketObjects()
      ensures Profiles() == old(Profiles())
      ensures Buckets() == old(Buckets())[id := ScaleDown(old(providers[id].View()), now)]
      ensures adjustments == old(adjustments) + [ScaleDownEntry(id, old(providers[id].View()), reason, now)]
    {
      var entry := providers[id].ScaleDownCeiling(id, reason, now);
      adjustments := adjustments + [entry];
    }

    /** `getUsageSnapshot` */
    method GetUsageSnapshot(profileId: string, now: int) returns (snapshot: Option<UsageSnapshot>)
      requires Valid()
      modifies ProfileObjects()
      ensures View() == Step(old(View()), Op.ReadUsage(profileId), now)
      ensures snapshot == if profileId in Profiles() then Some(SnapshotOf(profileId, Profiles()[profileId], now))
              else None
    {
      if profileId !in profiles {
        return None;
      }
      CheckAndResetProfile(profileId, now);
      var p := profiles[profileId];
      assert Profiles()[profileId] == p.View();
      var totalUsed, limit := p.promptTokensUsed + p.completionTokensUsed, p.profile.totalTokensLimit;
      var ratio := Ratio(totalUsed, limit);
      var state := Normal;
      if ratio >= 1.0 {
        state := if p.burstTokensUsed > 0 then Bursting else Exhausted;
      } else if ratio >= p.profile.softCapRatio {
        state := Warning;
      }
      return Some(UsageSnapshot(profileId, p.promptTokensUsed, p.completionTokensUsed, totalUsed, p.totalSpendUSD,
                                state, MinReal(1.0, ratio), Max(0, limit - totalUsed),
                                MaxReal(0.0, p.profile.maxSpendUSD - p.totalSpendUSD), p.burstTokensUsed, now));
    }

    /** `pruneHistory` */
    method PruneHistory(id: string, now: int)
      requires Valid() && id in providers
      modifies BucketObjects()
      ensures Profiles() == old(Profiles())
      ensures Buckets() == old(Buckets())[id := Prune(old(providers[id].View()), now)]
    {
      providers[id].PruneRateHistory(now);
    }

    /** `getDynamicRateLimitState` */
    method GetDynamicRateLimitState(providerId: string, now: int) returns (state: Option<RateLimitState>)
      requires Valid()
      modifies BucketObjects()
      ensures View() == Step(old(View()), Op.ReadRates(providerId), now)
      ensures state == if providerId in Buckets() then Some(RateStateOf(providerId, Buckets()[providerId], now))
              else None
    {
      if providerId !in providers {
        return None;
      }
      PruneHistory(providerId, now);
      var b := providers[providerId];
      assert Buckets()[providerId] == b.View();
      var stats := b.ComputeRateWindowStats(now);
      return Some(RateLimitState(providerId, b.currentMaxRPM, b.currentMaxTPM, b.activeConcurrency,
                                 b.config.maxConcurrentRequests, b.lastAdjustmentTimestamp, stats, b.circuitBreaker,
                                 b.failureStreak, b.successStreak));
    }
  }
}
