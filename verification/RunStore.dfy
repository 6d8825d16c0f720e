/** The store of run records: saving, the terminal identity conflict, and reading back. */
module RunStore {
  import opened Base
  import opened Numbers
  import opened AuthorityTypes
  import opened BenchmarkAuthority
  import opened RunRecords

  /** A row written by the migration of a version-one database. */
  predicate LegacyRow(row: Row) {
    && row.benchmarkCohort == OperationalCohort && row.eligibilityStatus == UnknownEligibility
    && row.eligibilityReasons == [EvidenceInvalid]
    && row.evidenceStatus == Unavailable && row.evaluationStatus == NotEvaluatedStatus
    && row.artifactIntegrity == Unverified
    && row.checksDeclared.None? && row.checksExecuted.None? && row.checksPassed.None?
    && row.evaluatorId.None? && row.evaluatorVersion.None? && row.evidenceDigest.None? && row.evidenceIdentity.None?
    && row.compositeScore.None? && row.passedBenchmark.None? && row.actualCostUSD.None?
    && row.costStatus == UnverifiedStatus && FiniteNonnegative(row.operationalCostUSD)
    && row.evaluation.None? && row.simulated in {0, 1} && row.dryRun == 0
  }

  /** The authority that a migrated row carries. */
  function LegacyAuthority(costUSD: Num): Authority {
    Authority(OperationalCohort, UnknownEligibility, [EvidenceInvalid],
              Evidence(Unavailable, ZERO, ZERO, ZERO, Unverified, None, None, None, None),
              Unevaluated(NotEvaluated, [EvidenceInvalid]), UnverifiedCost(costUSD), None, None, None)
  }

  lemma LegacyAuthorityConsistent(costUSD: Num)
    requires FiniteNonnegative(costUSD)
    ensures Consistent(LegacyAuthority(costUSD))
  {
    LastReasonSorted();
    var a := LegacyAuthority(costUSD);
    assert ValidCounts(a.evidence);
  }

  /** Migrated rows load, as diagnostic records of unknown eligibility. */
  lemma LegacyRowLoads(row: Row)
    requires LegacyRow(row)
    ensures Load(row).Some? && Load(row).value.authority == LegacyAuthority(row.operationalCostUSD)
  {
    LegacyAuthorityConsistent(row.operationalCostUSD);
    assert AuthorityOf(row) == Some(LegacyAuthority(row.operationalCostUSD));
  }

  lemma LastReasonSorted()
    ensures SortReasons(Elements([EvidenceInvalid])) == [EvidenceInvalid]
  {
    assert Elements([EvidenceInvalid]) == {EvidenceInvalid};
    FilterNone(REASON_ORDER[..22], {EvidenceInvalid});
    assert REASON_ORDER == REASON_ORDER[..22] + [EvidenceInvalid];
    FilterConcatenation(REASON_ORDER[..22], [EvidenceInvalid], {EvidenceInvalid});
  }

  lemma {:induction false} FilterNone(order: seq<Reason>, present: set<Reason>)
    requires forall x :: x in order ==> x !in present
    ensures Filter(order, present) == []
  {
    if order != [] {
      FilterNone(order[1..], present);
    }
  }

  lemma {:induction false} FilterConcatenation(a: seq<Reason>, b: seq<Reason>, present: set<Reason>)
    ensures Filter(a + b, present) == Filter(a, present) + Filter(b, present)
  {
    if a == [] {
      assert a + b == b;
    } else {
      FilterConcatenation(a[1..], b, present);
      assert (a + b)[1..] == a[1..] + b;
    }
  }

  /** `row` is the stored form of `source`, or a migrated row. */
  ghost predicate WrittenFrom(row: Row, id: string, source: Option<RunRecord>) {
    && row.runId == id
    && (source.Some? ==> Gated(source.value) && TypedStatus(source.value.status) && row == RowOf(source.value))
    && (source.None? ==> LegacyRow(row))
  }

  datatype SaveOutcome = Saved | RefusedByGate | IdentityConflict | ConstraintViolated

  /** Tables `runs` and `run_claims`. */
  class ReportingStore {
    var runs: map<string, Row>
    var claims: set<string>
    /** Where each row came from: a saved record, or none for a migrated row. */
    ghost var origin: map<string, Option<RunRecord>>

    /** Every row was written by a save of a gated record, or by the migration. */
    ghost predicate Valid()
      reads this
    {
      && runs.Keys == origin.Keys
      && (forall id :: id in runs ==> WrittenFrom(runs[id], id, origin[id]))
    }

    /** A migrated database. */
    constructor (legacy: map<string, Row>)
      requires forall id :: id in legacy ==> LegacyRow(legacy[id]) && legacy[id].runId == id
      ensures Valid() && runs == legacy && claims == {}
      ensures forall id :: id in legacy ==> origin[id].None?
    {
      runs := legacy;
      claims := {};
      origin := map id | id in legacy :: None;
    }

    /** `saveRunRecord` (on an already sanitized record) */
    method SaveRunRecord(record: RunRecord) returns (outcome: SaveOutcome)
      requires Valid() && TypedStatus(record.status)
      modifies this
      ensures Valid()
      ensures !Gated(record) <==> outcome == RefusedByGate
      ensures outcome == IdentityConflict <==> Gated(record) && record.runId in old(runs)
      ensures outcome == ConstraintViolated <==>
                Gated(record) && record.runId !in old(runs) && !MeasurementChecks(RowOf(record))
      ensures outcome == Saved ==>
                && runs == old(runs)[record.runId := RowOf(record)]
                && origin == old(origin)[record.runId := Some(record)]
                && claims == old(claims) - {record.runId}
      ensures outcome != Saved ==> runs == old(runs) && origin == old(origin) && claims == old(claims)
    {
      if !Gated(record) {
        return RefusedByGate;
      }
      SavedRowChecks(record);
      var row := RowOf(record);
      if row.runId in runs {
        return IdentityConflict;
      }
      if !AuthorityChecks(row) || !MeasurementChecks(row) {
        return ConstraintViolated;
      }
      runs := runs[row.runId := row];
      origin := origin[row.runId := Some(record)];
      claims := claims - {record.runId};
      return Saved;
    }

    /** `getRunRecord`: whatever was stored is read back, and reading never throws. */
    method GetRunRecord(runId: string) returns (found: bool, record: Option<RunRecord>)
      requires Valid()
      ensures found <==> runId in runs
      ensures found ==> record.Some?
      ensures found && origin[runId].Some? ==> record == Some(Filled(origin[runId].value))
    {
      found := runId in runs;
      record := None;
      if found {
        record := Load(runs[runId]);
        if origin[runId].Some? {
          SaveLoadRoundTrip(origin[runId].value);
        } else {
          LegacyRowLoads(runs[runId]);
        }
      }
    }
  }
}
