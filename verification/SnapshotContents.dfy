/** What a report snapshot counts and shows of its runs. */
module SnapshotContents {
  import opened Base
  import opened AuthorityTypes
  import opened RunRecords
  import opened RunQuery
  import opened Aggregation
  import opened Leaderboard
  import opened ReportSnapshot

  // ----- one run more

  /** The counts after one run more, in the order of the listed values: only the count of its own value has grown. */
  predicate Grown<K(==)>(after: seq<nat>, before: seq<nat>, listed: seq<K>, value: K) {
    |after| == |before| == |listed| &&
    forall i :: 0 <= i < |listed| ==> after[i] == before[i] + if listed[i] == value then 1 else 0
  }

  lemma OneMore<K(!new)>(runs: seq<RunRecord>, r: RunRecord, key: RunRecord -> K, allowed: seq<K>)
    ensures Grown(CountValues(runs + [r], key, allowed), CountValues(runs, key, allowed), allowed, key(r))
  {
    assert (runs + [r])[..|runs|] == runs;
  }

  lemma MatchingSnoc(runs: seq<RunRecord>, r: RunRecord, p: RunRecord -> bool)
    ensures |Matching(runs + [r], p)| == |Matching(runs, p)| + if p(r) then 1 else 0
  {
    assert (runs + [r])[..|runs|] == runs;
  }

  /** Mode, simulation and cohort of a run are counted, each under its own value. */
  predicate RunCounted(after: Provenance, before: Provenance, r: RunRecord) {
    && Grown(after.executionModeCounts, before.executionModeCounts, [Fake, Live], r.mode)
    && after.simulatedRunCount == before.simulatedRunCount + (if r.simulated then 1 else 0)
    && after.nonSimulatedRunCount == before.nonSimulatedRunCount + (if r.simulated then 0 else 1)
    && Grown(after.cohortCounts, before.cohortCounts, [EligibleCohort, ValidationCohort, OperationalCohort],
             r.authority.cohort)
    && Grown(after.lifecycleStatusCounts, before.lifecycleStatusCounts,
             [CompletedRun, FailedRun, TimedOutRun, AbortedRun], r.status)
  }

  /** So are the statuses of its verdict. */
  predicate VerdictCounted(after: Provenance, before: Provenance, a: Authority) {
    && Grown(after.eligibilityCounts, before.eligibilityCounts, [Eligible, Ineligible, UnknownEligibility],
             a.eligibility)
    && Grown(after.evaluationStatusCounts, before.evaluationStatusCounts,
             [NotRequestedStatus, NotEvaluatedStatus, EvaluatedStatus, InvalidStatus], StatusOf(a.evaluation))
    && Grown(after.evidenceStatusCounts, before.evidenceStatusCounts,
             [Unavailable, Collecting, Complete, EvidenceBroken], a.evidence.status)
  }

  predicate AllZero(counts: seq<nat>, n: nat) {
    |counts| == n && forall i :: 0 <= i < n ==> counts[i] == 0
  }

  /** Without runs nothing is counted ... */
  lemma NothingCounted()
    ensures
      var p := ProvenanceOf([]);
      && AllZero(p.executionModeCounts, 2) && p.simulatedRunCount == 0 == p.nonSimulatedRunCount
      && AllZero(p.cohortCounts, 3) && AllZero(p.eligibilityCounts, 3) && AllZero(p.evaluationStatusCounts, 4)
      && AllZero(p.evidenceStatusCounts, 4) && AllZero(p.lifecycleStatusCounts, 4) && p.evidenceThrough == None
  {}

  /** ... and each run adds one to the counts of its own mode, cohort and statuses, and to no other. */
  lemma ProvenanceGrows(runs: seq<RunRecord>, r: RunRecord)
    ensures RunCounted(ProvenanceOf(runs + [r]), ProvenanceOf(runs), r)
    ensures VerdictCounted(ProvenanceOf(runs + [r]), ProvenanceOf(runs), r.authority)
  {
    OneMore(runs, r, ModeOf, EXECUTION_MODES);
    OneMore(runs, r, CohortOf, COHORTS);
    OneMore(runs, r, EligibilityOf, ELIGIBILITIES);
    OneMore(runs, r, ReportSnapshot.EvaluationOf, EVALUATIONS);
    OneMore(runs, r, ReportSnapshot.EvidenceOf, EVIDENCE_STATES);
    OneMore(runs, r, LifecycleOf, RUN_STATUSES);
    MatchingSnoc(runs, r, IsSimulated);
    MatchingSnoc(runs, r, IsNotSimulated);
  }

  // ----- the snapshot

  function EligibleRuns(runs: seq<RunRecord>): nat {
    if runs == [] then 0
    else EligibleRuns(runs[..|runs| - 1]) + if runs[|runs| - 1].authority.eligibility == Eligible then 1 else 0
  }

  lemma {:induction false} EligibleCounted(runs: seq<RunRecord>)
    ensures |EligibleObservations(runs)| == EligibleRuns(runs)
  {
    if runs != [] {
      EligibleCounted(runs[..|runs| - 1]);
    }
  }

  /** The fields of a snapshot. */
  predicate SnapshotHolds(s: Snapshot, runs: seq<RunRecord>, filter: RunFilter, eligible: nat,
                          leaderboard: Option<seq<Ranked>>) {
    && s.filter == filter && s.matchedRunCount == |runs| && s.eligibleRunCount == eligible
    && s.eligibleRunCount + s.diagnosticRunCount == s.matchedRunCount && s.provenance == ProvenanceOf(runs)
    && Some(s.leaderboard) == leaderboard
  }

  lemma AssembledHolds(runs: seq<RunRecord>, filter: RunFilter, eligible: nat, leaderboard: Option<seq<Ranked>>)
    requires Assemble(runs, filter, eligible, leaderboard).Built?
    ensures SnapshotHolds(Assemble(runs, filter, eligible, leaderboard).snapshot, runs, filter, eligible, leaderboard)
  {}

  /** A snapshot repeats its filter, and counts its runs, the eligible ones and the others. */
  lemma SnapshotShows(runs: seq<RunRecord>, filter: RunFilter, locale: (string, string) -> bool)
    requires BuildReportSnapshot(runs, filter, locale).Built?
    ensures SnapshotHolds(BuildReportSnapshot(runs, filter, locale).snapshot, runs, filter, EligibleRuns(runs),
                  BuildLeaderboard(EligibleObservations(runs), locale))
  {
    EligibleCounted(runs);
    AssembledHolds(runs, filter, |EligibleObservations(runs)|, BuildLeaderboard(EligibleObservations(runs), locale));
  }

  /** What the leaderboard sees of a run: where it belongs, what it measured, and what it cost if that is verified. */
  lemma ObservationShows(r: RunRecord)
    ensures
      var o := ObservationOf(r);
      && o.category == r.category && o.skillId == r.skillId && o.scenarioId == r.scenarioId && o.modelId == r.modelId
      && o.providerId == r.providerId && o.wallClockMs == r.wallClockMs && o.cacheHitRatio == r.cacheHitRatio
  {}

  /** The eligible runs, in order, are what the leaderboard sees. */
  lemma {:induction false} EligibleObserved(runs: seq<RunRecord>, i: nat)
    requires i < |runs| && runs[i].authority.eligibility == Eligible
    ensures EligibleRuns(runs[..i]) < |EligibleObservations(runs)|
    ensures EligibleObservations(runs)[EligibleRuns(runs[..i])] == ObservationOf(runs[i])
  {
    var n := |runs| - 1;
    EligibleCounted(runs[..i]);
    if i < n {
      EligibleObserved(runs[..n], i);
      assert runs[..n][..i] == runs[..i];
    }
  }
}
