/** What `canExecute` decides, told by the operations so far: the sliding window, the open breaker, the budget. */
module BudgetAdmission {
  import opened Base
  import opened BudgetModel
  import opened BudgetRuns

  // ----- the window, counted from the log

  /** The logged releases at or after `cutoff`. */
  function CountSince(log: seq<WindowRecord>, cutoff: int): nat {
    if log == [] then 0
    else CountSince(log[..|log| - 1], cutoff) + if log[|log| - 1].timestamp >= cutoff then 1 else 0
  }

  /** Their prompt and completion tokens. */
  function TokensSince(log: seq<WindowRecord>, cutoff: int): int {
    if log == [] then 0
    else
      var last := log[|log| - 1];
      TokensSince(log[..|log| - 1], cutoff) +
      if last.timestamp >= cutoff then last.promptTokens + last.completionTokens else 0
  }

  lemma TokensSnoc(records: seq<WindowRecord>, r: WindowRecord)
    ensures Tokens(records + [r]) == Tokens(records) + r.promptTokens + r.completionTokens
  {
    assert (records + [r])[..|records|] == records;
  }

  lemma {:induction false} SinceCounts(log: seq<WindowRecord>, cutoff: int)
    ensures |Since(log, cutoff)| == CountSince(log, cutoff)
    ensures Tokens(Since(log, cutoff)) == TokensSince(log, cutoff)
  {
    if log != [] {
      var front, last := log[..|log| - 1], log[|log| - 1];
      SinceCounts(front, cutoff);
      TokensSnoc(Since(front, cutoff), last);
      assert Since(front, cutoff) + [] == Since(front, cutoff);
    }
  }

  // ----- a request that passes the budget of a known provider

  /** The bucket as the decision finds it, pruned and perhaps half-opened. */
  lemma AskedBucket(w: World, profileId: string, id: string, tokens: int, now: int)
    requires id in w.providers && PassesBudget(w, profileId, tokens, now)
    ensures
      var b := Step(w, CanExecute(profileId, id, tokens), now).providers[id];
      && b == TryHalfOpen(Prune(w.providers[id], now), now)
      && Answer(w, profileId, id, tokens, now) == RateDecision(b, tokens, now)
  {}

  /** The provider has room: a free slot, and both rates of the window below their ceilings. */
  predicate HasRoom(b: Bucket, log: seq<WindowRecord>, tokens: int, now: int) {
    var cutoff := now - b.config.windowSizeMs;
    && b.activeConcurrency < b.config.maxConcurrentRequests
    && CountSince(log, cutoff) as real < b.currentMaxRPM
    && (TokensSince(log, cutoff) + tokens) as real <= b.currentMaxTPM
  }

  predicate StaysOpen(b: Bucket, now: int) {
    b.circuitBreaker == Open && now < b.circuitBreakerResetAt
  }

  /**
   * A request within its budget is allowed exactly when the breaker does not stay open and the provider has room, the
   * window being the logged releases of the last `windowSizeMs`. Otherwise it is delayed: until the breaker's reset
   * time, by 250 milliseconds for want of a slot, or else by a second.
   */
  lemma AdmittedExactly(trace: seq<Event>, profileId: string, id: string, tokens: int, now: int)
    requires PastOf(trace, now) && id in Run(trace).providers && PassesBudget(Run(trace), profileId, tokens, now)
    ensures
      var b, answer := Run(trace).providers[id], Answer(Run(trace), profileId, id, tokens, now);
      && (answer.allowed <==> !StaysOpen(b, now) && HasRoom(b, Log(trace, id), tokens, now))
      && (answer.allowed ==> answer.action == Allow && answer.retryAfterMs == 0)
      && (!answer.allowed ==> answer.action == Delay && answer.retryAfterMs > 0)
      && (StaysOpen(b, now) ==> answer.retryAfterMs == b.circuitBreakerResetAt - now)
      && (!StaysOpen(b, now) && !answer.allowed ==>
            answer.retryAfterMs == if b.activeConcurrency < b.config.maxConcurrentRequests then 1000 else 250)
    ensures
      var b := Run(trace).providers[id];
      var after := Step(Run(trace), CanExecute(profileId, id, tokens), now).providers[id];
      after.circuitBreaker == if StaysOpen(b, now) then Open else if b.circuitBreaker == Open then HalfOpen
        else b.circuitBreaker
  {
    var b := Run(trace).providers[id];
    AskedBucket(Run(trace), profileId, id, tokens, now);
    WindowRefinesLog(trace, id, now);
    SinceCounts(Log(trace, id), now - b.config.windowSizeMs);
  }

  // ----- an open breaker stops every request

  lemma TripWaits(trace: seq<Event>, i: nat, j: nat, id: string)
    requires Monotone(trace) && NotReregistered(trace, id, i + 1) && OpensAt(trace, i, id) && i < j < |trace|
    requires trace[j].now < trace[i].now + Run(trace[..i + 1]).providers[id].config.cooldownPeriodMs
    ensures WaitsAt(trace, j, id, Run(trace[..i + 1]).providers[id].config.cooldownPeriodMs,
                    trace[i].now + Run(trace[..i + 1]).providers[id].config.cooldownPeriodMs)
  {
    PrefixOf(trace, i);
    OpeningSetsReset(Run(trace[..i]), trace[i].op, trace[i].now, id);
    var cooldown := Run(trace[..i + 1]).providers[id].config.cooldownPeriodMs;
    var due := trace[i].now + cooldown;
    WaitsUntilHalfOpened(trace, i, j, id, cooldown, due);
  }

  /**
   * After the breaker of a provider has tripped, no request to it is allowed before its cooldown is over; one that
   * passes its budget is delayed until the breaker's reset time, which is no earlier.
   */
  lemma OpenBreakerStops(trace: seq<Event>, i: nat, j: nat, id: string)
    requires Monotone(trace) && NotReregistered(trace, id, i + 1) && OpensAt(trace, i, id) && i < j < |trace|
    requires trace[j].op.CanExecute? && trace[j].op.providerId == id
    requires trace[j].now < trace[i].now + Run(trace[..i + 1]).providers[id].config.cooldownPeriodMs
    ensures
      var due := trace[i].now + Run(trace[..i + 1]).providers[id].config.cooldownPeriodMs;
      var w, op, now := Run(trace[..j]), trace[j].op, trace[j].now;
      var answer := Answer(w, op.profileId, id, op.estimatedTokens, now);
      && !answer.allowed && id in w.providers && w.providers[id].circuitBreakerResetAt >= due
      && (PassesBudget(w, op.profileId, op.estimatedTokens, now) ==>
            answer == Decision(false, Delay, w.providers[id].circuitBreakerResetAt - now))
  {
    TripWaits(trace, i, j, id);
    var w, op, now := Run(trace[..j]), trace[j].op, trace[j].now;
    if PassesBudget(w, op.profileId, op.estimatedTokens, now) {
      AskedBucket(w, op.profileId, id, op.estimatedTokens, now);
    }
  }

  // ----- the budget, from the operations on the profile

  /** The operation looks at the profile, which resets it when that is due. */
  predicate Touches(op: Op, id: string) {
    match op
    case CanExecute(p, _, _) => p == id
    case Release(p, _, _, _, _, _, _) => p == id
    case ReadUsage(p) => p == id
    case _ => false
  }

  /** What is known of a profile: its limits, when it was last reset, and what has been charged to it since. */
  datatype Ledger = Ledger(profile: Profile, resetAt: int, prompt: int, completion: int, spent: real)

  /** The ledger carried over to `now`: empty again when a whole interval has passed. */
  function Carried(l: Ledger, now: int): Ledger {
    if now >= l.resetAt + l.profile.resetIntervalMs then Ledger(l.profile, now, 0, 0, 0.0) else l
  }

  function LedgerOf(trace: seq<Event>, id: string): Option<Ledger> {
    if trace == [] then None
    else
      var before, op, now := LedgerOf(trace[..|trace| - 1], id), trace[|trace| - 1].op, trace[|trace| - 1].now;
      if op.RegisterProfile? && op.profileId == id then Some(Ledger(op.profile, now, 0, 0, 0.0))
      else if before.None? || !Touches(op, id) then before
      else
        var l := Carried(before.value, now);
        Some(if op.Release?
             then l.(prompt := l.prompt + op.promptTokens, completion := l.completion + op.completionTokens,
                     spent := l.spent + op.costUSD)
             else l)
  }

  predicate Agrees(l: Ledger, p: ProfileState) {
    && p.profile == l.profile && p.lastResetTimestamp == l.resetAt
    && p.promptTokensUsed == l.prompt && p.completionTokensUsed == l.completion && p.totalSpendUSD == l.spent
  }

  lemma CarriedAgrees(l: Ledger, p: ProfileState, now: int)
    requires Agrees(l, p)
    ensures Agrees(Carried(l, now), ResetIfDue(p, now))
  {}

  lemma LedgerStep(w: World, op: Op, now: int, id: string, l: Ledger)
    requires id in w.profiles && Agrees(l, w.profiles[id]) && !(op.RegisterProfile? && op.profileId == id)
    ensures id in StepProfiles(w, op, now)
    ensures !Touches(op, id) ==> StepProfiles(w, op, now)[id] == w.profiles[id]
    ensures Touches(op, id) && !op.Release? ==> Agrees(Carried(l, now), StepProfiles(w, op, now)[id])
    ensures Touches(op, id) && op.Release? ==>
      var c := Carried(l, now);
      Agrees(c.(prompt := c.prompt + op.promptTokens, completion := c.completion + op.completionTokens,
                spent := c.spent + op.costUSD), StepProfiles(w, op, now)[id])
  {
    CarriedAgrees(l, w.profiles[id], now);
  }

  /** A profile holds exactly what was charged to it since its last reset. */
  lemma {:induction false} LedgerHolds(trace: seq<Event>, id: string)
    ensures id in Run(trace).profiles <==> LedgerOf(trace, id).Some?
    ensures id in Run(trace).profiles ==> Agrees(LedgerOf(trace, id).value, Run(trace).profiles[id])
  {
    if trace != [] {
      var front, last := trace[..|trace| - 1], trace[|trace| - 1];
      LedgerHolds(front, id);
      if id in Run(front).profiles && !(last.op.RegisterProfile? && last.op.profileId == id) {
        LedgerStep(Run(front), last.op, last.now, id, LedgerOf(front, id).value);
      }
    }
  }

  /** The request fits what is left: of the money, and of the tokens or the burst allowance. */
  predicate Fits(l: Ledger, burstUsed: int, tokens: int) {
    var projected := l.prompt + l.completion + tokens;
    && l.spent < l.profile.maxSpendUSD
    && (projected <= l.profile.totalTokensLimit ||
        (l.profile.allowBurst && projected - l.profile.totalTokensLimit <= l.profile.burstAllowance - burstUsed))
  }

  /** A request passes its budget exactly when it fits the ledger of its profile; if it does not, it is rejected. */
  lemma BudgetPassedExactly(trace: seq<Event>, profileId: string, id: string, tokens: int, now: int)
    ensures profileId in Run(trace).profiles <==> LedgerOf(trace, profileId).Some?
    ensures
      PassesBudget(Run(trace), profileId, tokens, now) <==>
      profileId in Run(trace).profiles &&
      Fits(Carried(LedgerOf(trace, profileId).value, now),
           ResetIfDue(Run(trace).profiles[profileId], now).burstTokensUsed, tokens)
    ensures !PassesBudget(Run(trace), profileId, tokens, now) ==>
            Answer(Run(trace), profileId, id, tokens, now) == Decision(false, Reject, 0)
    ensures PassesBudget(Run(trace), profileId, tokens, now) && id !in Run(trace).providers ==>
            Answer(Run(trace), profileId, id, tokens, now) == Decision(true, Allow, 0)
  {
    LedgerHolds(trace, profileId);
    if profileId in Run(trace).profiles {
      CarriedAgrees(LedgerOf(trace, profileId).value, Run(trace).profiles[profileId], now);
    }
  }
}
