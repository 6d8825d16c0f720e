/** Report snapshots: provenance counts, and the self-checks that guard them. */
module ReportSnapshot {
  import opened Base
  import opened Numbers
  import opened AuthorityTypes
  import opened BenchmarkAuthority
  import opened RunRecords
  import opened RunQuery
  import opened QueryStore
  import opened Aggregation
  import opened Leaderboard
  import opened LeaderboardTheorems

  const ModeOf := (r: RunRecord) => r.mode
  const CohortOf := (r: RunRecord) => r.authority.cohort
  const EligibilityOf := (r: RunRecord) => r.authority.eligibility
  const EvaluationOf := (r: RunRecord) => StatusOf(r.authority.evaluation)
  const EvidenceOf := (r: RunRecord) => r.authority.evidence.status
  const LifecycleOf := (r: RunRecord) => r.status
  const IsSimulated := (r: RunRecord) => r.simulated
  const IsNotSimulated := (r: RunRecord) => !r.simulated
  const IsEligible := (r: RunRecord) => r.authority.eligibility == Eligible

  const EXECUTION_MODES: seq<ExecutionMode> := [Fake, Live]
  const COHORTS: seq<Cohort> := [EligibleCohort, ValidationCohort, OperationalCohort]
  const ELIGIBILITIES: seq<EligibilityStatus> := [Eligible, Ineligible, UnknownEligibility]
  const EVALUATIONS: seq<EvaluationStatus> := [NotRequestedStatus, NotEvaluatedStatus, EvaluatedStatus, InvalidStatus]
  const EVIDENCE_STATES: seq<EvidenceStatus> := [Unavailable, Collecting, Complete, EvidenceBroken]
  const RUN_STATUSES: seq<Lifecycle> := [CompletedRun, FailedRun, TimedOutRun, AbortedRun]

  // ----- counts

  /** `countValues`: one count for each allowed value. */
  function CountValues<K(==)>(runs: seq<RunRecord>, key: RunRecord -> K, allowed: seq<K>): seq<nat> {
    seq(|allowed|, i requires 0 <= i < |allowed| => |Group(runs, key, allowed[i])|)
  }

  /** `sumCounts` */
  function Total(counts: seq<nat>): nat {
    if counts == [] then 0 else Total(counts[..|counts| - 1]) + counts[|counts| - 1]
  }

  lemma {:induction false} TotalIsGroups<K(!new)>(runs: seq<RunRecord>, key: RunRecord -> K, allowed: seq<K>)
    ensures Total(CountValues(runs, key, allowed)) == GroupTotal(runs, key, allowed)
  {
    if allowed != [] {
      var n := |allowed| - 1;
      TotalIsGroups(runs, key, allowed[..n]);
      assert CountValues(runs, key, allowed)[..n] == CountValues(runs, key, allowed[..n]);
    }
  }

  /** The counts add up to the runs exactly when every run has an allowed value. */
  lemma CountsCoverExactly<K(!new)>(runs: seq<RunRecord>, key: RunRecord -> K, allowed: seq<K>)
    requires Distinct(allowed)
    ensures Total(CountValues(runs, key, allowed)) == |runs| <==>
            forall i :: 0 <= i < |runs| ==> key(runs[i]) in allowed
  {
    TotalIsGroups(runs, key, allowed);
    GroupsCoverExactly(runs, key, allowed);
  }

  lemma {:induction false} SplitInTwo(runs: seq<RunRecord>)
    ensures |Matching(runs, IsSimulated)| + |Matching(runs, IsNotSimulated)| == |runs|
  {
    if runs != [] {
      SplitInTwo(runs[..|runs| - 1]);
    }
  }

  // ----- reasons

  function Occurrences(runs: seq<RunRecord>, reason: Reason): nat {
    if runs == [] then 0
    else Occurrences(runs[..|runs| - 1], reason) + multiset(runs[|runs| - 1].authority.eligibilityReasons)[reason]
  }

  /** The nested loops of `buildProvenance` over the reasons of every run. */
  method CountReasons(runs: seq<RunRecord>) returns (reasonCounts: map<Reason, nat>)
    ensures forall reason :: reason in reasonCounts <==> Occurrences(runs, reason) > 0
    ensures forall reason :: reason in reasonCounts ==> reasonCounts[reason] == Occurrences(runs, reason)
  {
    reasonCounts := map[];
    for i := 0 to |runs|
      invariant forall reason :: reason in reasonCounts <==> Occurrences(runs[..i], reason) > 0
      invariant forall reason :: reason in reasonCounts ==> reasonCounts[reason] == Occurrences(runs[..i], reason)
    {
      ghost var before := runs[..i];
      assert runs[..i + 1][..i] == before;
      var reasons := runs[i].authority.eligibilityReasons;
      reasonCounts := AddReasons(reasonCounts, reasons, before);
    }
    assert runs[..|runs|] == runs;
  }

  method AddReasons(given: map<Reason, nat>, reasons: seq<Reason>, ghost before: seq<RunRecord>)
    returns (counts: map<Reason, nat>)
    requires forall reason :: reason in given <==> Occurrences(before, reason) > 0
    requires forall reason :: reason in given ==> given[reason] == Occurrences(before, reason)
    ensures forall reason :: reason in counts <==> Occurrences(before, reason) + multiset(reasons)[reason] > 0
    ensures forall reason :: reason in counts ==>
            counts[reason] == Occurrences(before, reason) + multiset(reasons)[reason]
  {
    counts := given;
    for j := 0 to |reasons|
      invariant forall reason :: reason in counts <==> Occurrences(before, reason) + multiset(reasons[..j])[reason] > 0
      invariant forall reason ::
                reason in counts ==> counts[reason] == Occurrences(before, reason) + multiset(reasons[..j])[reason]
    {
      assert reasons[..j + 1] == reasons[..j] + [reasons[j]];
      counts := counts[reasons[j] := (if reasons[j] in counts then counts[reasons[j]] else 0) + 1];
    }
    assert reasons[..|reasons|] == reasons;
  }

  /** `benchmarkReasonOrder.flatMap(...)`: the occurring reasons in their order, with their counts. */
  function ReasonCounts(runs: seq<RunRecord>, order: seq<Reason>): seq<(Reason, nat)> {
    if order == [] then []
    else
      var last := order[|order| - 1];
      ReasonCounts(runs, order[..|order| - 1])
        + if Occurrences(runs, last) > 0 then [(last, Occurrences(runs, last))] else []
  }

  /** Each listed reason comes with its occurrences, and no occurring one is missing. */
  lemma {:induction false} ReasonCountsAre(runs: seq<RunRecord>, order: seq<Reason>, reason: Reason, count: nat)
    ensures (reason, count) in ReasonCounts(runs, order) <==> reason in order && count == Occurrences(runs, reason) > 0
  {
    if order != [] {
      ReasonCountsAre(runs, order[..|order| - 1], reason, count);
      assert order == order[..|order| - 1] + [order[|order| - 1]];
    }
  }

  // ----- provenance

  datatype Provenance = Provenance(executionModeCounts: seq<nat>, simulatedRunCount: nat, nonSimulatedRunCount: nat,
                                   cohortCounts: seq<nat>, eligibilityCounts: seq<nat>,
                                   evaluationStatusCounts: seq<nat>, evidenceStatusCounts: seq<nat>,
                                   lifecycleStatusCounts: seq<nat>, eligibilityReasonCounts: seq<(Reason, nat)>,
                                   evidenceThrough: Option<string>)

  /** The latest completion. */
  function EvidenceThrough(runs: seq<RunRecord>): Option<string> {
    if runs == [] then None
    else
      var latest, run := EvidenceThrough(runs[..|runs| - 1]), runs[|runs| - 1];
      if latest.None? || !StrLe(run.completedAt, latest.value) then Some(run.completedAt) else latest
  }

  lemma {:induction false} EvidenceThroughIsLatest(runs: seq<RunRecord>)
    ensures EvidenceThrough(runs).None? <==> runs == []
    ensures runs != [] ==> exists i :: 0 <= i < |runs| && runs[i].completedAt == EvidenceThrough(runs).value
    ensures forall i :: 0 <= i < |runs| ==> StrLe(runs[i].completedAt, EvidenceThrough(runs).value)
  {
    if runs != [] {
      var front, last := runs[..|runs| - 1], runs[|runs| - 1];
      EvidenceThroughIsLatest(front);
      StrLeTotal(last.completedAt, last.completedAt);
      if front == [] {
        assert runs[0].completedAt == last.completedAt;
      } else {
        var before, now := EvidenceThrough(front).value, EvidenceThrough(runs).value;
        StrLeTotal(last.completedAt, before);
        var j :| 0 <= j < |front| && front[j].completedAt == before;
        assert runs[j].completedAt == before && runs[|front|].completedAt == last.completedAt;
        forall i | 0 <= i < |runs| ensures StrLe(runs[i].completedAt, now) {
          if i < |front| {
            assert runs[i] == front[i];
            StrLeTransitive(runs[i].completedAt, before, now);
          }
        }
      }
    }
  }

  /** `buildProvenance` */
  function ProvenanceOf(runs: seq<RunRecord>): Provenance {
    Provenance(CountValues(runs, ModeOf, EXECUTION_MODES), |Matching(runs, IsSimulated)|,
               |Matching(runs, IsNotSimulated)|, CountValues(runs, CohortOf, COHORTS),
               CountValues(runs, EligibilityOf, ELIGIBILITIES), CountValues(runs, EvaluationOf, EVALUATIONS),
               CountValues(runs, EvidenceOf, EVIDENCE_STATES), CountValues(runs, LifecycleOf, RUN_STATUSES),
               ReasonCounts(runs, REASON_ORDER), EvidenceThrough(runs))
  }

  /** `assertProvenanceCounts` does not throw. */
  predicate ProvenanceCountsHold(p: Provenance, expected: nat) {
    && Total(p.executionModeCounts) == expected && p.simulatedRunCount + p.nonSimulatedRunCount == expected
    && Total(p.cohortCounts) == expected && Total(p.eligibilityCounts) == expected
    && Total(p.evaluationStatusCounts) == expected
    && Total(p.evidenceStatusCounts) == expected && Total(p.lifecycleStatusCounts) == expected
  }

  lemma Covered<K(!new)>(runs: seq<RunRecord>, key: RunRecord -> K, allowed: seq<K>)
    requires Distinct(allowed) && forall k :: k in allowed
    ensures Total(CountValues(runs, key, allowed)) == |runs|
  {
    CountsCoverExactly(runs, key, allowed);
  }

  lemma EverythingListed()
    ensures forall k: ExecutionMode :: k in EXECUTION_MODES
    ensures forall k: Cohort :: k in COHORTS
    ensures forall k: EligibilityStatus :: k in ELIGIBILITIES
    ensures forall k: EvaluationStatus :: k in EVALUATIONS
    ensures forall k: EvidenceStatus :: k in EVIDENCE_STATES
  {
    forall k: ExecutionMode ensures k in EXECUTION_MODES {
      assert k == EXECUTION_MODES[0] || k == EXECUTION_MODES[1];
    }
    forall k: Cohort ensures k in COHORTS {
      assert k == COHORTS[0] || k == COHORTS[1] || k == COHORTS[2];
    }
    forall k: EligibilityStatus ensures k in ELIGIBILITIES {
      assert k == ELIGIBILITIES[0] || k == ELIGIBILITIES[1] || k == ELIGIBILITIES[2];
    }
    forall k: EvaluationStatus ensures k in EVALUATIONS {
      assert k == EVALUATIONS[0] || k == EVALUATIONS[1] || k == EVALUATIONS[2] || k == EVALUATIONS[3];
    }
    forall k: EvidenceStatus ensures k in EVIDENCE_STATES {
      assert k == EVIDENCE_STATES[0] || k == EVIDENCE_STATES[1] || k == EVIDENCE_STATES[2] || k == EVIDENCE_STATES[3];
    }
  }

  predicate AllTyped(runs: seq<RunRecord>) {
    forall i :: 0 <= i < |runs| ==> TypedStatus(runs[i].status)
  }

  /** The provenance self-check passes exactly when every run has one of the four lifecycle statuses. */
  lemma ProvenanceHoldsExactly(runs: seq<RunRecord>)
    ensures ProvenanceCountsHold(ProvenanceOf(runs), |runs|) <==> AllTyped(runs)
  {
    EverythingListed();
    SplitInTwo(runs);
    Covered(runs, ModeOf, EXECUTION_MODES);
    Covered(runs, CohortOf, COHORTS);
    Covered(runs, EligibilityOf, ELIGIBILITIES);
    Covered(runs, EvaluationOf, EVALUATIONS);
    Covered(runs, EvidenceOf, EVIDENCE_STATES);
    LifecycleCovers(runs);
  }

  lemma LifecycleCovers(runs: seq<RunRecord>)
    ensures Total(CountValues(runs, LifecycleOf, RUN_STATUSES)) == |runs| <==> AllTyped(runs)
  {
    CountsCoverExactly(runs, LifecycleOf, RUN_STATUSES);
    forall i | 0 <= i < |runs| ensures LifecycleOf(runs[i]) in RUN_STATUSES <==> TypedStatus(runs[i].status) {
    }
  }

  // ----- the snapshot

  /** What the leaderboard sees of an eligible run. */
  function ObservationOf(r: RunRecord): Observation {
    var a := r.authority;
    Observation(r.category, r.skillId, r.scenarioId, r.modelId, r.providerId, a.passedBenchmark == Some(true),
                if a.compositeScore.Some? && a.compositeScore.value.Fin? then a.compositeScore.value.v
                  else 0.0, r.wallClockMs, r.cacheHitRatio,
                if a.cost.VerifiedCost? && a.actualCostUSD.Some? && a.actualCostUSD.value.Fin?
                  then Some(a.actualCostUSD.value.v) else None)
  }

  /**
   * An eligible record that passes the authority check has a finite score in range and a finite cost, so no sample is
   * invented.
   */
  lemma ObservationFaithful(r: RunRecord)
    requires Consistent(r.authority) && r.authority.eligibility == Eligible
    ensures r.authority.compositeScore == Some(Fin(ObservationOf(r).score)) && 0.0 <= ObservationOf(r).score <= 100.0
    ensures r.authority.passedBenchmark == Some(ObservationOf(r).passed)
    ensures r.authority.cost.VerifiedCost? <==> ObservationOf(r).verifiedCost.Some?
    ensures ObservationOf(r).verifiedCost.Some? ==>
            r.authority.actualCostUSD == Some(Fin(ObservationOf(r).verifiedCost.value))
  {
  }

  datatype Failure =
    | AuthorityContradictory | OutsideFilter | LeaderboardContradictory | CountContradictory | ProvenanceContradictory

  datatype Snapshot = Snapshot(filter: RunFilter, matchedRunCount: nat, eligibleRunCount: nat, diagnosticRunCount: int,
                               provenance: Provenance, leaderboard: seq<Ranked>)

  datatype Outcome = Built(snapshot: Snapshot) | Thrown(failure: Failure)

  function EligibleObservations(runs: seq<RunRecord>): seq<Observation> {
    MapSeq(Matching(runs, IsEligible), ObservationOf)
  }

  /** The self-checks at the end of `buildReportSnapshot`. */
  function Assemble(runs: seq<RunRecord>, filter: RunFilter, eligibleCount: nat,
                    leaderboard: Option<seq<Ranked>>): Outcome {
    if leaderboard.None? then Thrown(LeaderboardContradictory)
    else
      var snapshot := Snapshot(filter, |runs|, eligibleCount, |runs| - eligibleCount, ProvenanceOf(runs),
                               leaderboard.value);
      if RunsCounted(snapshot.leaderboard) != eligibleCount as real then Thrown(CountContradictory)
      else if !ProvenanceCountsHold(snapshot.provenance, snapshot.matchedRunCount) then Thrown(ProvenanceContradictory)
      else Built(snapshot)
  }

  predicate AllConsistent(runs: seq<RunRecord>) {
    forall i :: 0 <= i < |runs| ==> Consistent(runs[i].authority)
  }

  predicate AllInside(runs: seq<RunRecord>, filter: RunFilter) {
    forall i :: 0 <= i < |runs| ==> MatchesReport(runs[i], filter)
  }

  /** `buildReportSnapshot` over a normalized filter. */
  function BuildReportSnapshot(runs: seq<RunRecord>, filter: RunFilter, locale: (string, string) -> bool): Outcome {
    if !AllConsistent(runs) then Thrown(AuthorityContradictory)
    else if !AllInside(runs, filter) then Thrown(OutsideFilter)
    else Assemble(runs, filter, |EligibleObservations(runs)|, BuildLeaderboard(EligibleObservations(runs), locale))
  }

  lemma AssembledExactly(runs: seq<RunRecord>, filter: RunFilter, eligibleCount: nat, leaderboard: Option<seq<Ranked>>)
    requires leaderboard.Some? ==> RunsCounted(leaderboard.value) == eligibleCount as real
    ensures Assemble(runs, filter, eligibleCount, leaderboard).Built? <==> leaderboard.Some? && AllTyped(runs)
    ensures Assemble(runs, filter, eligibleCount, leaderboard) != Thrown(CountContradictory)
  {
    ProvenanceHoldsExactly(runs);
  }

  /**
   * Over consistent runs inside the filter the snapshot is built exactly when the group keys are faithful and every
   * status is typed; the leaderboard self-check never throws.
   */
  lemma SnapshotBuiltExactly(runs: seq<RunRecord>, filter: RunFilter, locale: (string, string) -> bool)
    requires TotalOrder(locale) && AllConsistent(runs) && AllInside(runs, filter)
    ensures BuildReportSnapshot(runs, filter, locale).Built? <==>
            KeysFaithful(EligibleObservations(runs)) && AllTyped(runs)
    ensures BuildReportSnapshot(runs, filter, locale) != Thrown(CountContradictory)
  {
    var eligible := EligibleObservations(runs);
    var leaderboard := BuildLeaderboard(eligible, locale);
    ThrowsExactly(eligible, locale);
    if leaderboard.Some? {
      LeaderboardCountsRuns(eligible, locale);
    }
    AssembledExactly(runs, filter, |eligible|, leaderboard);
  }

  lemma AssembledShows(runs: seq<RunRecord>, filter: RunFilter, eligibleCount: nat, leaderboard: Option<seq<Ranked>>)
    requires Assemble(runs, filter, eligibleCount, leaderboard).Built?
    ensures Some(Assemble(runs, filter, eligibleCount, leaderboard).snapshot.leaderboard) == leaderboard
  {
  }

  lemma EligiblePermutation(a: seq<RunRecord>, b: seq<RunRecord>)
    requires multiset(a) == multiset(b)
    ensures multiset(EligibleObservations(a)) == multiset(EligibleObservations(b))
  {
    MatchingPermutation(a, b, IsEligible);
    MapPermutation(Matching(a, IsEligible), Matching(b, IsEligible), ObservationOf);
  }

  /** The leaderboard of a snapshot does not depend on the order in which the runs were read. */
  lemma SnapshotOrderIndependent(a: seq<RunRecord>, b: seq<RunRecord>, filter: RunFilter,
                                 locale: (string, string) -> bool)
    requires TotalOrder(locale) && multiset(a) == multiset(b)
    requires BuildReportSnapshot(a, filter, locale).Built? && BuildReportSnapshot(b, filter, locale).Built?
    ensures BuildReportSnapshot(a, filter, locale).snapshot.leaderboard
            == BuildReportSnapshot(b, filter, locale).snapshot.leaderboard
  {
    EligiblePermutation(a, b);
    OrderIndependent(EligibleObservations(a), EligibleObservations(b), locale);
    AssembledShows(a, filter, |EligibleObservations(a)|, BuildLeaderboard(EligibleObservations(a), locale));
    AssembledShows(b, filter, |EligibleObservations(b)|, BuildLeaderboard(EligibleObservations(b), locale));
  }
}
