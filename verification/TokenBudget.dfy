/**
 * The token budget over whole runs: what the burst counter means, and when guarded requests stay inside the allocation.
 */
module TokenBudget {
  import opened Base
  import opened BudgetModel
  import opened BudgetRuns

  predicate NonnegativeTokens(op: Op) {
    op.Release? ==> op.promptTokens >= 0 && op.completionTokens >= 0
  }

  predicate TokensNonnegative(trace: seq<Event>) {
    forall k :: 0 <= k < |trace| ==> NonnegativeTokens(trace[k].op)
  }

  // ----- the burst counter

  /** What the counter is for: the part of the usage above the limit, capped by the allowance. */
  predicate BurstIsOverrun(p: ProfileState) {
    p.burstTokensUsed == Min(p.profile.burstAllowance, Max(0, TotalUsed(p) - p.profile.totalTokensLimit))
  }

  predicate UsableAllocation(profile: Profile) {
    if profile.totalTokensLimit >= 0 then profile.burstAllowance >= 0 else profile.burstAllowance == 0
  }

  predicate BurstSound(p: ProfileState) {
    0 <= p.promptTokensUsed && 0 <= p.completionTokensUsed && (UsableAllocation(p.profile) ==> BurstIsOverrun(p))
  }

  lemma FreshBurst(profile: Profile, now: int)
    ensures BurstSound(NewProfile(profile, now))
    ensures BurstIsOverrun(NewProfile(profile, now)) <==> UsableAllocation(profile)
  {
  }

  lemma ChargeBurst(p: ProfileState, prompt: int, completion: int, cost: real, now: int)
    requires BurstSound(p) && prompt >= 0 && completion >= 0
    ensures BurstSound(Charge(p, prompt, completion, cost, now))
  {
  }

  lemma {:induction false} BurstStaysSound(trace: seq<Event>, id: string)
    requires TokensNonnegative(trace) && id in Run(trace).profiles
    ensures BurstSound(Run(trace).profiles[id])
  {
    var front, last := trace[..|trace| - 1], trace[|trace| - 1];
    var before := Run(front).profiles;
    if id in before {
      BurstStaysSound(front, id);
      assert NonnegativeTokens(last.op);
      match last.op {
        case Release(_, _, prompt, completion, _, cost, _) =>
          ChargeBurst(before[id], prompt, completion, cost, last.now);
        case _ =>
      }
    }
  }

  predicate HasProfile(trace: seq<Event>, id: string, profile: Profile) {
    id in Run(trace).profiles && Run(trace).profiles[id].profile == profile
  }

  predicate BurstHolds(trace: seq<Event>, id: string, profile: Profile) {
    TokensNonnegative(trace) && HasProfile(trace, id, profile) ==> BurstIsOverrun(Run(trace).profiles[id])
  }

  lemma RunRegistered(id: string, profile: Profile, now: int)
    ensures Run([Event(RegisterProfile(id, profile), now)]) == World(map[id := NewProfile(profile, now)], map[], [], [])
  {
    var trace := [Event(RegisterProfile(id, profile), now)];
    assert trace[..0] == [];
  }

  /** The counter is the capped overrun in every run of a profile exactly when its allocation is usable. */
  lemma BurstCounterExact(profile: Profile)
    ensures (forall trace, id :: BurstHolds(trace, id, profile)) <==> UsableAllocation(profile)
  {
    if UsableAllocation(profile) {
      forall trace, id ensures BurstHolds(trace, id, profile) {
        if TokensNonnegative(trace) && HasProfile(trace, id, profile) {
          BurstStaysSound(trace, id);
        }
      }
    } else {
      var trace := [Event(RegisterProfile("p", profile), 0)];
      RunRegistered("p", profile, 0);
      FreshBurst(profile, 0);
      assert !BurstHolds(trace, "p", profile);
    }
  }

  // ----- guarded sequential requests

  function NextCredit(credit: Option<int>, w: World, e: Event, id: string): Option<int> {
    match e.op
    case RegisterProfile(p, _) => if p == id then None else credit
    case CanExecute(p, provider, tokens) =>
      if p == id && Answer(w, p, provider, tokens, e.now).allowed then Some(tokens) else credit
    case Release(p, _, _, _, _, _, _) => if p == id then None else credit
    case _ => credit
  }

  /** The estimate of the last allowed request that has not been released yet. */
  function Credit(trace: seq<Event>, id: string): Option<int> {
    if trace == [] then None
    else NextCredit(Credit(trace[..|trace| - 1], id), Run(trace[..|trace| - 1]), trace[|trace| - 1], id)
  }

  /** A release uses no more than the estimate of the request it follows. */
  predicate Covered(credit: Option<int>, op: Op, id: string) {
    !(op.Release? && op.profileId == id)
    || (NonnegativeTokens(op) && credit.Some? && op.promptTokens + op.completionTokens <= credit.value)
  }

  /** Requests on a profile are sequential: each release follows an allowed `canExecute` of its own. */
  predicate Guarded(trace: seq<Event>, id: string) {
    trace == [] || (Guarded(trace[..|trace| - 1], id) &&
                    Covered(Credit(trace[..|trace| - 1], id), trace[|trace| - 1].op, id))
  }

  function Capacity(profile: Profile): int {
    profile.totalTokensLimit + if profile.allowBurst then profile.burstAllowance else 0
  }

  /**
   * The allocation can be honoured: it is not negative, and a request can be allowed only when the burst allowance is
   * not either.
   */
  predicate HonourableAllocation(profile: Profile) {
    Capacity(profile) >= 0 && (profile.allowBurst && profile.maxSpendUSD > 0.0 ==> profile.burstAllowance >= 0)
  }

  /** Without money nothing is ever allowed. */
  predicate Untouched(p: ProfileState, credit: Option<int>) {
    credit == None && TotalUsed(p) == 0 && p.totalSpendUSD == 0.0
  }

  predicate WithinCapacity(p: ProfileState, credit: Option<int>) {
    && 0 <= TotalUsed(p) <= Capacity(p.profile) && (p.profile.allowBurst ==> 0 <= p.burstTokensUsed)
    && (credit.Some? ==> credit.value <= Capacity(p.profile) && TotalUsed(p) + credit.value <= Capacity(p.profile))
  }

  predicate BudgetInvariant(p: ProfileState, credit: Option<int>) {
    HonourableAllocation(p.profile) ==>
      if p.profile.maxSpendUSD > 0.0 then WithinCapacity(p, credit) else Untouched(p, credit)
  }

  lemma ResetKeeps(p: ProfileState, credit: Option<int>, now: int)
    requires BudgetInvariant(p, credit)
    ensures BudgetInvariant(ResetIfDue(p, now), credit)
  {
  }

  lemma AllowedKeeps(p: ProfileState, credit: Option<int>, tokens: int)
    requires BudgetInvariant(p, credit) && BudgetRefusal(p, tokens).None?
    ensures BudgetInvariant(p, Some(tokens))
  {
  }

  lemma ChargeKeeps(p: ProfileState, credit: Option<int>, prompt: int, completion: int, cost: real, now: int)
    requires BudgetInvariant(p, credit) && prompt >= 0 && completion >= 0
    requires credit.Some? && prompt + completion <= credit.value
    ensures BudgetInvariant(Charge(p, prompt, completion, cost, now), None)
  {
    ResetKeeps(p, credit, now);
  }

  lemma BudgetStep(w: World, e: Event, id: string, credit: Option<int>)
    requires id in w.profiles && BudgetInvariant(w.profiles[id], credit) && Covered(credit, e.op, id)
    ensures BudgetInvariant(StepProfiles(w, e.op, e.now)[id], NextCredit(credit, w, e, id))
  {
    var p := w.profiles[id];
    match e.op {
      case CanExecute(q, provider, tokens) =>
        ResetKeeps(p, credit, e.now);
        if q == id && Answer(w, id, provider, tokens, e.now).allowed {
          AllowedKeeps(ResetIfDue(p, e.now), credit, tokens);
        }
      case ReadUsage(_) => ResetKeeps(p, credit, e.now);
      case Release(q, _, prompt, completion, _, cost, _) =>
        if q == id {
          ChargeKeeps(p, credit, prompt, completion, cost, e.now);
        }
      case _ =>
    }
  }

  lemma {:induction false} BudgetHolds(trace: seq<Event>, id: string)
    requires Guarded(trace, id) && id in Run(trace).profiles
    ensures BudgetInvariant(Run(trace).profiles[id], Credit(trace, id))
  {
    var front, last := trace[..|trace| - 1], trace[|trace| - 1];
    assert Run(trace) == Step(Run(front), last.op, last.now);
    if id in Run(front).profiles {
      BudgetHolds(front, id);
      BudgetStep(Run(front), last, id, Credit(front, id));
    } else {
      assert Run(trace).profiles[id] == NewProfile(last.op.profile, last.now);
      assert Credit(trace, id) == None;
    }
  }

  predicate CapHolds(trace: seq<Event>, id: string, profile: Profile) {
    Guarded(trace, id) && HasProfile(trace, id, profile) ==> TotalUsed(Run(trace).profiles[id]) <= Capacity(profile)
  }

  lemma Extended(trace: seq<Event>, e: Event, id: string)
    ensures Run(trace + [e]) == Step(Run(trace), e.op, e.now)
    ensures Credit(trace + [e], id) == NextCredit(Credit(trace, id), Run(trace), e, id)
    ensures Guarded(trace + [e], id) <==> Guarded(trace, id) && Covered(Credit(trace, id), e.op, id)
  {
    assert (trace + [e])[..|trace|] == trace;
  }

  lemma BreachAtRegistration(profile: Profile)
    requires Capacity(profile) < 0
    ensures exists trace, id :: !CapHolds(trace, id, profile)
  {
    var trace := [Event(RegisterProfile("p", profile), 0)];
    RunRegistered("p", profile, 0);
    Extended([], trace[0], "p");
    assert !CapHolds(trace, "p", profile);
  }

  /** With a negative allowance a request for the whole limit still passes the check, and breaches the capacity. */
  lemma BreachByNegativeAllowance(profile: Profile)
    requires profile.allowBurst && profile.burstAllowance < 0 && profile.maxSpendUSD > 0.0 && Capacity(profile) >= 0
    ensures exists trace, id :: !CapHolds(trace, id, profile)
  {
    var limit := profile.totalTokensLimit;
    var register, ask, release :=
      Event(RegisterProfile("p", profile), 0), Event(CanExecute("p", "", limit), 0),
      Event(Release("p", "", limit, 0, 0.0, 0.0, false), 0);
    RunRegistered("p", profile, 0);
    Extended([], register, "p");
    Extended([register], ask, "p");
    assert Credit([register] + [ask], "p") == Some(limit);
    Extended([register] + [ask], release, "p");
    assert TotalUsed(Run([register] + [ask] + [release]).profiles["p"]) == limit;
    assert !CapHolds([register] + [ask] + [release], "p", profile);
  }

  /**
   * Guarded sequential requests stay within limit plus allowance, across resets, in every run of a profile exactly when
   * it is honourable.
   */
  lemma CapacityExact(profile: Profile)
    ensures (forall trace, id :: CapHolds(trace, id, profile)) <==> HonourableAllocation(profile)
  {
    if HonourableAllocation(profile) {
      forall trace, id ensures CapHolds(trace, id, profile) {
        if Guarded(trace, id) && HasProfile(trace, id, profile) {
          BudgetHolds(trace, id);
        }
      }
    } else if Capacity(profile) < 0 {
      BreachAtRegistration(profile);
    } else {
      BreachByNegativeAllowance(profile);
    }
  }

  /**
   * Two requests in flight at once are each allowed up to the whole capacity and together use twice of it: the
   * guarantee needs sequential requests.
   */
  lemma ConcurrentOverrun(profile: Profile)
    requires Capacity(profile) > 0 && HonourableAllocation(profile) && profile.maxSpendUSD > 0.0
    requires profile.resetIntervalMs > 0
    ensures
      var c := Capacity(profile);
      var ask, release := CanExecute("p", "", c), Release("p", "", c, 0, 0.0, 0.0, false);
      var w0 := World(map["p" := NewProfile(profile, 0)], map[], [], []);
      var w1 := Step(w0, ask, 0);
      var w2 := Step(w1, ask, 0);
      && Answer(w0, "p", "", c, 0).allowed && Answer(w1, "p", "", c, 0).allowed
      && "p" in Step(Step(w2, release, 0), release, 0).profiles
      && TotalUsed(Step(Step(w2, release, 0), release, 0).profiles["p"]) == 2 * c
  {
    var c := Capacity(profile);
    var unused := NewProfile(profile, 0);
    var w0 := World(map["p" := unused], map[], [], []);
    assert BudgetRefusal(unused, c) == None;
    var w2 := Step(Step(w0, CanExecute("p", "", c), 0), CanExecute("p", "", c), 0);
    assert w2.profiles["p"] == unused;
    var once := Step(w2, Release("p", "", c, 0, 0.0, 0.0, false), 0);
    assert once.profiles["p"] == Charge(unused, c, 0, 0.0, 0);
  }

  // ----- the label of a usage snapshot

  lemma RatioAtLeastOne(used: int, limit: int)
    requires limit > 0
    ensures Ratio(used, limit) >= 1.0 <==> used >= limit
  {
    var r := Ratio(used, limit);
    assert r * limit as real == used as real;
  }

  /** In every run of a usable allocation with a positive limit the label tells the three sides of the limit apart. */
  lemma UsageLabelMeans(trace: seq<Event>, id: string)
    requires TokensNonnegative(trace) && id in Run(trace).profiles
    requires UsableAllocation(Run(trace).profiles[id].profile) && Run(trace).profiles[id].profile.totalTokensLimit > 0
    ensures
      var p := Run(trace).profiles[id];
      var limit := p.profile.totalTokensLimit;
      && (UsageStateOf(p) in {Normal, Warning} <==> TotalUsed(p) < limit)
      && (UsageStateOf(p) == Bursting <==> TotalUsed(p) > limit && p.profile.burstAllowance > 0)
      && (UsageStateOf(p) == Exhausted <==>
          TotalUsed(p) == limit || (TotalUsed(p) > limit && p.profile.burstAllowance == 0))
  {
    BurstStaysSound(trace, id);
    var p := Run(trace).profiles[id];
    RatioAtLeastOne(TotalUsed(p), p.profile.totalTokensLimit);
  }
}
