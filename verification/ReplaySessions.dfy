/** Exporting a replay session and reading it back. */
module ReplaySessions {
  import opened Base
  import opened Numbers
  import opened ReplayEvents
  import opened ReplayProjector
  import opened ReplayIdentity
  import A = AuthorityTypes

  predicate NonblankIfAny(text: Option<string>) {
    text.Some? ==> Nonblank(text.value)
  }

  predicate ReasonsNonblank(reasons: Option<seq<string>>) {
    reasons.Some? ==> AllNonblank(reasons.value)
  }

  predicate ProvenanceReadable(p: Provenance) {
    && p.source == "persisted-events" && NonblankIfAny(p.sweepId) && NonblankIfAny(p.cellId)
    && NonblankIfAny(p.planFingerprint)
    && ReasonsNonblank(p.eligibilityReasons)
  }

  predicate CanonicalMetadataReadable(m: Metadata) {
    && |m.skillIds| == 1 && Nonblank(m.skillIds[0]) && Nonblank(m.runId) && Nonblank(m.scenarioId)
    && Nonblank(m.modelId)
    && m.providerId.Some? && Nonblank(m.providerId.value) && m.executionMode.Some? && m.simulated.Some?
    && m.startedAt.Some? && Nonblank(m.startedAt.value) && m.completedAt.Some? && Nonblank(m.completedAt.value)
    && Nonblank(m.terminationReason) && FiniteNonnegative(m.durationMs) && Count(m.totalTurns)
    && m.totalTokens.Some? && Count(m.totalTokens.value) && FiniteNonnegative(m.totalCostUSD)
  }

  /** `rejectDirectIdentityClaims` lets these through: nothing a direct replay could not know. */
  predicate NoClaims(p: Provenance, m: Metadata) {
    && p.sweepId.None? && p.cellId.None? && p.planFingerprint.None? && p.benchmarkCohort.None?
    && p.eligibilityStatus.None?
    && p.eligibilityReasons.None? && p.evaluationStatus.None?
    && m.providerId.None? && m.executionMode.None? && m.simulated.None? && m.startedAt.None? && m.completedAt.None?
    && m.totalTokens.None?
  }

  /** The identity that an exported session still carries. */
  function ExportedIdentity(p: Provenance, m: Metadata): Option<Identity> {
    if !ProvenanceReadable(p) then None
    else if p.sourceKind.CanonicalRun? && !CanonicalMetadataReadable(m) then None
    else if p.sourceKind.Direct? && !NoClaims(p, m) then None
    else
      var common := NO_IDENTITY.(sourceKind := Some(p.sourceKind), sweepId := p.sweepId, cellId := p.cellId,
                                 planFingerprint := p.planFingerprint, benchmarkCohort := p.benchmarkCohort,
                                 eligibilityStatus := p.eligibilityStatus,
                                 eligibilityReasons := p.eligibilityReasons, evaluationStatus := p.evaluationStatus);
      Some(if p.sourceKind.Direct? then common
           else common.(providerId := m.providerId, executionMode := m.executionMode, simulated := m.simulated,
                        startedAt := m.startedAt, completedAt := m.completedAt, totalTokens := m.totalTokens))
  }

  /** `readExportedIdentity`: fills the identity field by field, in the order of the checks. */
  method ReadExportedIdentity(p: Provenance, m: Metadata) returns (identity: Option<Identity>)
    ensures identity == ExportedIdentity(p, m)
  {
    if p.source != "persisted-events" {
      return None;
    }
    var read := NO_IDENTITY.(sourceKind := Some(p.sourceKind));
    if p.sweepId.Some? {
      if !Nonblank(p.sweepId.value) {
        return None;
      }
      read := read.(sweepId := p.sweepId);
    }
    if p.cellId.Some? {
      if !Nonblank(p.cellId.value) {
        return None;
      }
      read := read.(cellId := p.cellId);
    }
    if p.planFingerprint.Some? {
      if !Nonblank(p.planFingerprint.value) {
        return None;
      }
      read := read.(planFingerprint := p.planFingerprint);
    }
    read := read.(benchmarkCohort := p.benchmarkCohort, eligibilityStatus := p.eligibilityStatus);
    if p.eligibilityReasons.Some? {
      if !AllNonblank(p.eligibilityReasons.value) {
        return None;
      }
      read := read.(eligibilityReasons := p.eligibilityReasons);
    }
    read := read.(evaluationStatus := p.evaluationStatus);
    if p.sourceKind.CanonicalRun? {
      if !CanonicalMetadataReadable(m) {
        return None;
      }
      read := read.(providerId := m.providerId);
      read := read.(executionMode := m.executionMode);
      read := read.(simulated := m.simulated);
      read := read.(startedAt := m.startedAt);
      read := read.(completedAt := m.completedAt);
      read := read.(totalTokens := m.totalTokens);
    } else if !NoClaims(p, m) {
      return None;
    }
    return Some(read);
  }

  /** What `parseReplaySessionJson` accepts: the session itself, or nothing. */
  function ParseSession(candidate: Session, parseDiff: string -> seq<string>): Option<Session> {
    if candidate.schemaVersion != SCHEMA_VERSION || !CanonicalTrace(candidate.sourceEvents) then None
    else
      var identity := ExportedIdentity(candidate.provenance, candidate.metadata);
      if identity.None? then None
      else
        var rebuilt := Project(candidate.sourceEvents, identity.value, parseDiff);
        if rebuilt == Some(candidate) then rebuilt else None
  }

  method ParseReplaySession(candidate: Session, parseDiff: string -> seq<string>) returns (session: Option<Session>)
    ensures session == ParseSession(candidate, parseDiff)
  {
    if candidate.schemaVersion != SCHEMA_VERSION {
      return None;
    }
    var canonical := ValidateCanonicalEvents(candidate.sourceEvents);
    if !canonical {
      return None;
    }
    var identity := ReadExportedIdentity(candidate.provenance, candidate.metadata);
    if identity.None? {
      return None;
    }
    var rebuilt := Project(candidate.sourceEvents, identity.value, parseDiff);
    return if rebuilt == Some(candidate) then rebuilt else None;
  }

  // ----- export and import undo each other

  /** The two identities project to the same session: they agree on everything the projection shows. */
  predicate SameShown(a: Identity, b: Identity) {
    && ProvenanceOf(a) == ProvenanceOf(b) && a.providerId == b.providerId && a.executionMode == b.executionMode
    && a.simulated == b.simulated
    && a.startedAt == b.startedAt && a.completedAt == b.completedAt && a.totalTokens == b.totalTokens
  }

  /** An identity that expects nothing of the trace. */
  predicate ExpectsNothing(id: Identity) {
    && id.runId.None? && id.scenarioId.None? && id.modelId.None? && id.skillId.None? && id.terminationReason.None?
    && id.status.None?
    && id.durationMs.None? && id.totalCostUSD.None? && id.totalTurns.None?
  }

  lemma ProjectionShowsOnly(events: seq<Event>, a: Identity, b: Identity, parseDiff: string -> seq<string>)
    requires CanonicalTrace(events) && Project(events, a, parseDiff).Some? && SameShown(a, b) && ExpectsNothing(b)
    ensures Project(events, b, parseDiff) == Project(events, a, parseDiff)
  {
    assert MatchesTrace(b, events);
    assert MetadataOf(events, a) == MetadataOf(events, b);
  }

  lemma EndsOk(events: seq<Event>)
    requires CanonicalTrace(events)
    ensures PayloadOk(events[0].runId, events[0].payload) && PayloadOk(events[0].runId, events[|events| - 1].payload)
    ensures Nonblank(events[0].runId)
  {
    assert EventOk(events[0], events[0].runId, 0) && EventOk(events[|events| - 1], events[0].runId, |events| - 1);
  }

  lemma ReasonsNonblankEach()
    ensures forall reason :: reason in TERMINATION_REASONS ==> Nonblank(reason)
  {
    forall reason | reason in TERMINATION_REASONS ensures Nonblank(reason) {
      assert !IsSpace(reason[0]);
    }
  }

  lemma CanonicalReadable(events: seq<Event>, identity: Identity)
    requires CanonicalTrace(events) && CanonicalIdentity(identity) && MatchesTrace(identity, events)
    ensures CanonicalMetadataReadable(MetadataOf(events, identity))
  {
    EndsOk(events);
    ReasonsNonblankEach();
    assert events[0].payload.skillIds == [identity.skillId.value];
    assert Nonblank(events[0].payload.skillIds[0]);
  }

  /** A direct replay always survives export and import. */
  lemma DirectRoundTrip(events: seq<Event>, expectation: Option<Identity>, parseDiff: string -> seq<string>)
    requires CanonicalTrace(events) && DirectExpectation(expectation).Some?
    requires Project(events, DirectExpectation(expectation).value, parseDiff).Some?
    ensures ParseSession(Project(events, DirectExpectation(expectation).value, parseDiff).value, parseDiff)
            == Project(events, DirectExpectation(expectation).value, parseDiff)
  {
    var identity := DirectExpectation(expectation).value;
    var session := Project(events, identity, parseDiff).value;
    assert NoClaims(session.provenance, session.metadata);
    var read := ExportedIdentity(session.provenance, session.metadata).value;
    ProjectionShowsOnly(events, identity, read, parseDiff);
  }

  /** A canonical session survives exactly when every eligibility reason of its result artifact is nonblank. */
  lemma CanonicalRoundTrip(events: seq<Event>, m: Manifest, r: ResultArtifact, expected: Identity,
                           parseDiff: string -> seq<string>)
    requires CanonicalTrace(events) && ParseArtifactIdentity(m, r, expected).Some?
    requires Project(events, ParseArtifactIdentity(m, r, expected).value, parseDiff).Some?
    ensures ParseSession(Project(events, ParseArtifactIdentity(m, r, expected).value, parseDiff).value, parseDiff)
            == if AllNonblank(r.eligibilityReasons)
              then Project(events, ParseArtifactIdentity(m, r, expected).value, parseDiff) else None
  {
    var identity := ParseArtifactIdentity(m, r, expected).value;
    var session := Project(events, identity, parseDiff).value;
    ParsedIdentityCanonical(m, r, expected);
    CanonicalReadable(events, identity);
    if AllNonblank(r.eligibilityReasons) {
      var read := ExportedIdentity(session.provenance, session.metadata).value;
      ProjectionShowsOnly(events, identity, read, parseDiff);
    }
  }

  // ----- which sessions are accepted

  /** The session is what some identity that the direct path lets through projects to. */
  ghost predicate DirectExport(s: Session, parseDiff: string -> seq<string>) {
    CanonicalTrace(s.sourceEvents) &&
    exists e :: DirectExpectation(e).Some? && Project(s.sourceEvents, DirectExpectation(e).value, parseDiff) == Some(s)
  }

  predicate ExportOf(s: Session, m: Manifest, r: ResultArtifact, e: Identity, parseDiff: string -> seq<string>) {
    && CanonicalTrace(s.sourceEvents) && ParseArtifactIdentity(m, r, e).Some?
    && Project(s.sourceEvents, ParseArtifactIdentity(m, r, e).value, parseDiff) == Some(s)
  }

  /** The session is what the artifacts of some canonical run project to. */
  ghost predicate CanonicalExport(s: Session, parseDiff: string -> seq<string>) {
    exists m, r, e :: ExportOf(s, m, r, e, parseDiff)
  }

  /** The provenance fields that every canonical run has, and that the importer does not ask for. */
  predicate FullProvenance(p: Provenance) {
    && p.sweepId.Some? && p.cellId.Some? && p.planFingerprint.Some? && p.benchmarkCohort.Some?
    && p.eligibilityStatus.Some?
    && p.eligibilityReasons.Some? && p.evaluationStatus.Some?
  }

  /** What an accepted candidate is known to be: the projection of its own events under the identity it shows. */
  lemma AcceptedRebuilt(s: Session, parseDiff: string -> seq<string>) returns (id: Identity)
    requires ParseSession(s, parseDiff).Some?
    ensures ExportedIdentity(s.provenance, s.metadata) == Some(id) && ExpectsNothing(id)
    ensures CanonicalTrace(s.sourceEvents)
    ensures Project(s.sourceEvents, id, parseDiff) == Some(s)
    ensures s.provenance == ProvenanceOf(id) && s.metadata == MetadataOf(s.sourceEvents, id)
    ensures SpanRepresentable(s.sourceEvents)
  {
    id := ExportedIdentity(s.provenance, s.metadata).value;
  }

  /** The candidate's own events under any identity that shows the same and matches the trace are the candidate. */
  lemma SameShownProjects(s: Session, shown: Identity, id: Identity, parseDiff: string -> seq<string>)
    requires CanonicalTrace(s.sourceEvents) && Project(s.sourceEvents, shown, parseDiff) == Some(s)
    requires SameShown(shown, id) && MatchesTrace(id, s.sourceEvents)
    ensures Project(s.sourceEvents, id, parseDiff) == Some(s)
  {
    assert MetadataOf(s.sourceEvents, shown) == MetadataOf(s.sourceEvents, id);
  }

  /** The artifacts that a canonical session with full provenance could have come from. */
  function CommonFor(s: Session): Common
    requires CanonicalMetadataReadable(s.metadata) && FullProvenance(s.provenance)
  {
    var p, m := s.provenance, s.metadata;
    Common(m.runId, p.sweepId.value, p.cellId.value, p.planFingerprint.value, ZERO, m.scenarioId, "c", m.skillIds[0],
           m.modelId, m.providerId.value, m.executionMode.value, m.simulated.value, false, m.startedAt.value)
  }

  function ManifestFor(s: Session): Manifest
    requires CanonicalMetadataReadable(s.metadata) && FullProvenance(s.provenance)
  {
    Manifest("1.0.0", "manifest", CommonFor(s), s.metadata.startedAt.value)
  }

  function ResultFor(s: Session): ResultArtifact
    requires CanonicalMetadataReadable(s.metadata) && FullProvenance(s.provenance)
  {
    var p, m := s.provenance, s.metadata;
    ResultArtifact("2.0.0", "result", CommonFor(s), m.completedAt.value, m.executionStatus, m.terminationReason,
                   ToFixed(m.durationMs, 100.0), m.totalTurns, m.totalTokens.value, p.benchmarkCohort.value,
                   p.eligibilityStatus.value, p.eligibilityReasons.value, p.evaluationStatus.value,
                   ToFixed(m.totalCostUSD, 1000000.0), m.completedAt.value)
  }

  lemma ToFixedNonnegative(n: Num, scale: real)
    requires FiniteNonnegative(n) && scale > 0.0
    ensures FiniteNonnegative(ToFixed(n, scale))
  {
    assert n.v * scale >= 0.0;
    RoundedQuotient(Round(n.v * scale), scale);
  }

  lemma RoundedQuotient(k: int, scale: real)
    requires k >= 0 && scale > 0.0
    ensures k as real / scale >= 0.0
  {
  }

  lemma CountZero()
    ensures Count(ZERO) && Nonblank("c")
  {
    assert !IsSpace("c"[0]);
  }

  lemma ArtifactsParse(s: Session, id: Identity)
    requires CanonicalTrace(s.sourceEvents) && s.metadata == MetadataOf(s.sourceEvents, id)
    requires ProvenanceReadable(s.provenance) && CanonicalMetadataReadable(s.metadata) && FullProvenance(s.provenance)
    ensures ParseArtifactIdentity(ManifestFor(s), ResultFor(s), NO_IDENTITY).Some?
  {
    ToFixedNonnegative(s.metadata.durationMs, 100.0);
    ToFixedNonnegative(s.metadata.totalCostUSD, 1000000.0);
    CountZero();
  }

  /** An accepted canonical session with full provenance is the export of the artifacts made up for it. */
  lemma FullProvenanceIsExport(s: Session, parseDiff: string -> seq<string>)
    requires ParseSession(s, parseDiff).Some? && s.provenance.sourceKind == CanonicalRun && FullProvenance(s.provenance)
    ensures CanonicalExport(s, parseDiff)
  {
    var shown := AcceptedRebuilt(s, parseDiff);
    ArtifactsParse(s, shown);
    var id := ParseArtifactIdentity(ManifestFor(s), ResultFor(s), NO_IDENTITY).value;
    assert s.metadata.skillIds == [s.metadata.skillIds[0]];
    SameShownProjects(s, shown, id, parseDiff);
    assert ExportOf(s, ManifestFor(s), ResultFor(s), NO_IDENTITY, parseDiff);
  }

  lemma ExportHasFullProvenance(s: Session, m: Manifest, r: ResultArtifact, e: Identity,
                                parseDiff: string -> seq<string>)
    requires ExportOf(s, m, r, e, parseDiff)
    ensures FullProvenance(s.provenance)
  {
    ParsedIdentityCanonical(m, r, e);
  }

  /**
   * The exact image: an accepted direct session is a direct export; an accepted canonical one is an export of artifacts
   * exactly when its provenance is full.
   */
  lemma AcceptedSessionsExactly(s: Session, parseDiff: string -> seq<string>)
    requires ParseSession(s, parseDiff).Some?
    ensures s.provenance.sourceKind == Direct ==> DirectExport(s, parseDiff)
    ensures s.provenance.sourceKind == CanonicalRun ==>
            (CanonicalExport(s, parseDiff) <==> FullProvenance(s.provenance))
  {
    var shown := AcceptedRebuilt(s, parseDiff);
    if s.provenance.sourceKind == Direct {
      assert DirectExpectation(Some(shown)) == Some(shown);
    } else if FullProvenance(s.provenance) {
      FullProvenanceIsExport(s, parseDiff);
    } else if CanonicalExport(s, parseDiff) {
      var m, r, e :| ExportOf(s, m, r, e, parseDiff);
      ExportHasFullProvenance(s, m, r, e, parseDiff);
    }
  }

  // ----- the inputs on which export and import part

  /** A run of two events. */
  function ShortTrace(): seq<Event> {
    [Event("r", 1, 1, RunStart("r", "s", "m", ["k"])),
     Event("r", 2, 2, RunFinish("r", "success", ZERO, ZERO, ZERO, true))]
  }

  lemma NonblankLetters()
    ensures Nonblank("r") && Nonblank("s") && Nonblank("m") && Nonblank("k") && Nonblank("p") && Nonblank("t")
    ensures !Nonblank("")
    ensures Nonblank("success")
  {
    assert !IsSpace("success"[0]);
    assert !IsSpace("r"[0]) && !IsSpace("s"[0]) && !IsSpace("m"[0]) && !IsSpace("k"[0]) && !IsSpace("p"[0]) &&
           !IsSpace("t"[0]);
  }

  lemma ShortTraceCanonical()
    ensures CanonicalTrace(ShortTrace()) && SpanRepresentable(ShortTrace())
  {
    NonblankLetters();
    CountZero();
    assert AllNonblank(["k"]);
    assert EventOk(ShortTrace()[0], "r", 0) && EventOk(ShortTrace()[1], "r", 1);
  }

  /** A canonical session that names no sweep, cell, plan, cohort, eligibility or evaluation. */
  function ForgedIdentity(): Identity {
    NO_IDENTITY.(sourceKind := Some(CanonicalRun), providerId := Some("p"), executionMode := Some(A.Live),
                 simulated := Some(false), startedAt := Some("t"), completedAt := Some("t"), totalTokens := Some(ZERO))
  }

  /** It is accepted although no artifacts project to it. */
  lemma ForgedSessionAccepted(parseDiff: string -> seq<string>) returns (s: Session)
    ensures ParseSession(s, parseDiff) == Some(s) && s.provenance.sourceKind == CanonicalRun
    ensures !CanonicalExport(s, parseDiff)
  {
    ShortTraceCanonical();
    NonblankLetters();
    CountZero();
    s := Project(ShortTrace(), ForgedIdentity(), parseDiff).value;
    assert CanonicalMetadataReadable(s.metadata);
    assert ExportedIdentity(s.provenance, s.metadata) == Some(ForgedIdentity());
    AcceptedSessionsExactly(s, parseDiff);
  }

  /** Artifacts whose one eligibility reason is blank. */
  function BlankReasonCommon(): Common {
    Common("r", "s", "s", "s", ZERO, "s", "c", "k", "m", "p", A.Live, false, false, "t")
  }

  function BlankReasonManifest(): Manifest {
    Manifest("1.0.0", "manifest", BlankReasonCommon(), "t")
  }

  function BlankReasonResult(): ResultArtifact {
    ResultArtifact("2.0.0", "result", BlankReasonCommon(), "t", Completed, "success", ZERO, ZERO, ZERO,
                   A.EligibleCohort, A.Eligible, [""], A.EvaluatedStatus, ZERO, "t")
  }

  lemma BlankReasonParses()
    ensures ParseArtifactIdentity(BlankReasonManifest(), BlankReasonResult(), NO_IDENTITY).Some?
  {
    NonblankLetters();
    CountZero();
  }

  lemma BlankReasonMatches()
    requires ParseArtifactIdentity(BlankReasonManifest(), BlankReasonResult(), NO_IDENTITY).Some?
    requires CanonicalTrace(ShortTrace())
    ensures MatchesTrace(ParseArtifactIdentity(BlankReasonManifest(), BlankReasonResult(), NO_IDENTITY).value,
                         ShortTrace())
  {
    assert ToFixed(ZERO, 100.0) == ZERO && ToFixed(ZERO, 1000000.0) == ZERO;
  }

  lemma BlankReasonIsBlank()
    ensures !AllNonblank(BlankReasonResult().eligibilityReasons)
  {
    assert !Nonblank(BlankReasonResult().eligibilityReasons[0]);
  }

  /** The artifacts parse, the session is exported, and the importer refuses it. */
  ghost predicate RefusedExport(events: seq<Event>, m: Manifest, r: ResultArtifact, parseDiff: string -> seq<string>) {
    && CanonicalTrace(events) && ParseArtifactIdentity(m, r, NO_IDENTITY).Some?
    && var session := Project(events, ParseArtifactIdentity(m, r, NO_IDENTITY).value, parseDiff);
       session.Some? && ParseSession(session.value, parseDiff) == None
  }

  lemma BlankReasonsRefused(events: seq<Event>, m: Manifest, r: ResultArtifact, parseDiff: string -> seq<string>)
    requires CanonicalTrace(events) && SpanRepresentable(events) && ParseArtifactIdentity(m, r, NO_IDENTITY).Some?
    requires MatchesTrace(ParseArtifactIdentity(m, r, NO_IDENTITY).value, events) && !AllNonblank(r.eligibilityReasons)
    ensures RefusedExport(events, m, r, parseDiff)
  {
    CanonicalRoundTrip(events, m, r, NO_IDENTITY, parseDiff);
  }

  /** They parse and project to a session, which the importer then refuses. */
  lemma BlankReasonRefused(parseDiff: string -> seq<string>)
    ensures RefusedExport(ShortTrace(), BlankReasonManifest(), BlankReasonResult(), parseDiff)
  {
    ShortTraceCanonical();
    BlankReasonParses();
    BlankReasonMatches();
    BlankReasonIsBlank();
    BlankReasonsRefused(ShortTrace(), BlankReasonManifest(), BlankReasonResult(), parseDiff);
  }
}
