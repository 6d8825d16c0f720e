/** What a replay session is, and how it is projected from validated events and an identity. */
module ReplayProjector {
  import opened Base
  import opened Numbers
  import opened ReplayEvents
  import A = AuthorityTypes

  datatype SourceKind = Direct | CanonicalRun
  datatype ExecutionStatus = Completed | Failed | TimedOut | Aborted
  type ExecutionMode = A.ExecutionMode
  type Cohort = A.Cohort
  type EligibilityStatus = A.EligibilityStatus
  type EvaluationStatus = A.EvaluationStatus

  /** `ReplayEvidenceIdentity`: every field may be missing. */
  datatype Identity = Identity(
    sourceKind: Option<SourceKind>, runId: Option<string>, sweepId: Option<string>, cellId: Option<string>,
    planFingerprint: Option<string>, matrixOccurrenceIndex: Option<Num>, scenarioId: Option<string>,
    category: Option<string>, skillId: Option<string>, modelId: Option<string>, providerId: Option<string>,
    executionMode: Option<ExecutionMode>, simulated: Option<bool>, dryRun: Option<bool>, startedAt: Option<string>,
    completedAt: Option<string>, status: Option<ExecutionStatus>, terminationReason: Option<string>,
    durationMs: Option<Num>, totalCostUSD: Option<Num>, totalTurns: Option<Num>, totalTokens: Option<Num>,
    benchmarkCohort: Option<Cohort>, eligibilityStatus: Option<EligibilityStatus>,
    eligibilityReasons: Option<seq<string>>, evaluationStatus: Option<EvaluationStatus>)

  const NO_IDENTITY: Identity :=
    Identity(None, None, None, None, None, None, None, None, None, None, None, None, None, None, None, None, None, None,
             None, None, None, None, None, None, None, None)

  datatype Provenance = Provenance(source: string, sourceKind: SourceKind, sweepId: Option<string>,
                                   cellId: Option<string>, planFingerprint: Option<string>,
                                   benchmarkCohort: Option<Cohort>, eligibilityStatus: Option<EligibilityStatus>,
                                   eligibilityReasons: Option<seq<string>>, evaluationStatus: Option<EvaluationStatus>)

  datatype Metadata = Metadata(runId: string, scenarioId: string, skillIds: seq<string>, modelId: string,
                               providerId: Option<string>, executionMode: Option<ExecutionMode>,
                               simulated: Option<bool>, startTimestampUs: int, endTimestampUs: int,
                               startedAt: Option<string>, completedAt: Option<string>, durationMs: Num,
                               executionStatus: ExecutionStatus, terminationReason: string, totalTurns: Num,
                               totalToolCalls: nat, totalTokens: Option<Num>, totalCostUSD: Num)

  datatype FrameType =
    | SessionStart | SessionEnd | TurnStarted | TurnEnded | Error | ToolCall | ToolResult
    | CommandStart | CommandStream | CommandEnd | ResourceSampled | GitDiffed | Generic

  datatype ToolCallEvent = ToolCallEvent(toolName: string, callId: string, inputPayload: Option<string>,
                                         timestampUs: int, durationMs: Option<Num>, isError: Option<bool>,
                                         exitCode: Option<Num>)

  datatype CommandEvent = CommandEvent(commandId: string, stderr: Option<bool>, chunk: Option<string>,
                                       durationMs: Option<Num>, exitCode: Option<Num>, outputTruncated: Option<bool>)

  datatype TelemetryPoint = TelemetryPoint(timestampMs: Num, cpuPercent: Num, memoryRssMb: Num, memoryLimitMb: Num,
                                           memoryPercent: Num, diskReadKb: Num, diskWriteKb: Num, networkRxKb: Num,
                                           networkTxKb: Num, activePids: Num)

  datatype Details = Details(toolCall: Option<ToolCallEvent>, command: Option<CommandEvent>,
                             telemetry: Option<TelemetryPoint>, diff: Option<string>, totalCostUSD: Option<Num>)

  datatype Frame = Frame(frameIndex: nat, sequenceNumber: int, timestampUs: int, payload: Payload, frameType: FrameType,
                         elapsedUs: int, elapsedMs: real, turnIndex: Option<Num>, details: Details)

  datatype Session = Session(schemaVersion: string, provenance: Provenance, metadata: Metadata, frames: seq<Frame>,
                             telemetrySeries: seq<TelemetryPoint>, diffs: seq<string>, sourceEvents: seq<Event>)

  const SCHEMA_VERSION: string := "1.0.0"

  /** `mapExecutionStatus` */
  function StatusOf(reason: string): ExecutionStatus {
    if reason == "success" then Completed
    else if reason == "timeout" then TimedOut
    else if reason == "aborted" then Aborted
    else Failed
  }

  function DividedBy(n: Num, d: real): Num
    requires d > 0.0
  {
    if n.Fin? then Fin(n.v / d) else n
  }

  function PointOf(s: Sample): TelemetryPoint {
    TelemetryPoint(s.timestampMs, s.cpuPercent, DividedBy(s.memoryRssBytes, 1048576.0),
                   DividedBy(s.memoryLimitBytes, 1048576.0), s.memoryPercent, DividedBy(s.diskReadBytes, 1024.0),
                   DividedBy(s.diskWriteBytes, 1024.0), DividedBy(s.networkRxBytes, 1024.0),
                   DividedBy(s.networkTxBytes, 1024.0), s.activePids)
  }

  const NO_DETAILS: Details := Details(None, None, None, None, None)

  function FrameTypeOf(p: Payload): FrameType {
    match p
    case RunStart(_, _, _, _) => SessionStart
    case RunFinish(_, _, _, _, _, _) => SessionEnd
    case TurnStart(_, _) => TurnStarted
    case TurnFinish(_, _, _, _, _, _) => TurnEnded
    case TurnError(_, _) => Error
    case ToolDispatch(_, _, _, _) => ToolCall
    case ToolFinish(_, _, _, _, _, _) => ToolResult
    case CommandStarted(_) => CommandStart
    case CommandChunk(_, _, _, _, _, _) => CommandStream
    case CommandCompleted(_, _, _, _, _) => CommandEnd
    case ResourceSample(_) => ResourceSampled
    case GitDiff(_) => GitDiffed
    case Other(_, _, _) => Generic
  }

  /** `projectEvent`, the details; `parseDiff` stands for the unified diff parser. */
  function DetailsOf(e: Event, parseDiff: string -> seq<string>): Details {
    match e.payload
    case RunFinish(_, _, _, cost, _, _) => NO_DETAILS.(totalCostUSD := Some(cost))
    case ToolDispatch(_, callId, name, arguments) =>
      NO_DETAILS.(toolCall := Some(ToolCallEvent(name, callId, Some(arguments), e.timestampUs, None, None, None)))
    case ToolFinish(_, callId, name, isError, duration, exitCode) =>
      NO_DETAILS.(toolCall := Some(ToolCallEvent(name, callId, None, e.timestampUs, Some(duration), Some(isError),
                                                 exitCode)))
    case CommandStarted(id) => NO_DETAILS.(command := Some(CommandEvent(id, None, None, None, None, None)))
    case CommandChunk(stderr, id, chunk, truncated, _, _) =>
      NO_DETAILS.(command := Some(CommandEvent(id, Some(stderr), Some(chunk), None, None, Some(truncated))))
    case CommandCompleted(id, exitCode, duration, truncated, _) =>
      NO_DETAILS.(command := Some(CommandEvent(id, None, None, duration, Some(exitCode), Some(truncated))))
    case ResourceSample(sample) => NO_DETAILS.(telemetry := Some(PointOf(sample)))
    case GitDiff(raw) =>
      var deltas := parseDiff(raw);
      NO_DETAILS.(diff := if |deltas| > 0 then Some(deltas[0]) else None)
    case _ => NO_DETAILS
  }

  /** `optionalTurnIndex(event.payload.turnIndex)` */
  function TurnIndexOf(p: Payload): Option<Num> {
    match p
    case TurnStart(turn, _) => Some(turn)
    case TurnFinish(turn, _, _, _, _, _) => Some(turn)
    case TurnError(turn, _) => Some(turn)
    case ToolDispatch(turn, _, _, _) => Some(turn)
    case ToolFinish(turn, _, _, _, _, _) => Some(turn)
    case Other(_, turn, _) => turn
    case _ => None
  }

  /** `projectFrame` */
  function FrameOf(e: Event, index: nat, startUs: int, parseDiff: string -> seq<string>): Frame {
    Frame(index, e.sequenceNumber, e.timestampUs, e.payload, FrameTypeOf(e.payload), e.timestampUs - startUs,
          (e.timestampUs - startUs) as real / 1000.0, TurnIndexOf(e.payload), DetailsOf(e, parseDiff))
  }

  function Frames(events: seq<Event>, startUs: int, parseDiff: string -> seq<string>): (frames: seq<Frame>)
    ensures |frames| == |events|
    ensures forall i :: 0 <= i < |events| ==> frames[i] == FrameOf(events[i], i, startUs, parseDiff)
  {
    seq(|events|, i requires 0 <= i < |events| => FrameOf(events[i], i, startUs, parseDiff))
  }

  function Telemetry(frames: seq<Frame>): seq<TelemetryPoint> {
    if frames == [] then []
    else
      var last := frames[|frames| - 1];
      Telemetry(frames[..|frames| - 1]) + if last.details.telemetry.Some? then [last.details.telemetry.value] else []
  }

  function Diffs(events: seq<Event>, parseDiff: string -> seq<string>): seq<string> {
    if events == [] then []
    else
      var last := events[|events| - 1].payload;
      Diffs(events[..|events| - 1], parseDiff) + if last.GitDiff? then parseDiff(last.rawDiff) else []
  }

  function ToolCalls(events: seq<Event>): nat {
    if events == [] then 0
    else
      var last := events[|events| - 1].payload;
      ToolCalls(events[..|events| - 1]) + if last.ToolDispatch? || last.CommandStarted? then 1 else 0
  }

  /** `requireEqual`: a missing expectation is always met. */
  predicate Meets<T(==)>(expected: Option<T>, actual: T) {
    expected.None? || expected.value == actual
  }

  /** `Number(actual.toFixed(decimals))`, `scale` being the power of ten. */
  function ToFixed(n: Num, scale: real): Num
    requires scale > 0.0
  {
    if n.Fin? then Fin(Round(n.v * scale) as real / scale) else n
  }

  /** `assertExpectedIdentity` */
  predicate MatchesTrace(identity: Identity, events: seq<Event>)
    requires CanonicalTrace(events)
  {
    var start, finish := events[0].payload, events[|events| - 1].payload;
    && Meets(identity.runId, events[0].runId) && Meets(identity.scenarioId, start.scenarioId)
    && Meets(identity.modelId, start.modelId)
    && (identity.skillId.Some? ==> start.skillIds == [identity.skillId.value])
    && Meets(identity.terminationReason, finish.terminationReason)
    && Meets(identity.status, StatusOf(finish.terminationReason))
    && Meets(identity.durationMs, ToFixed(finish.totalDurationMs, 100.0))
    && Meets(identity.totalCostUSD, ToFixed(finish.totalCostUSD, 1000000.0))
    && Meets(identity.totalTurns, finish.totalTurns)
  }

  predicate SpanRepresentable(events: seq<Event>)
    requires CanonicalTrace(events)
  {
    forall i :: 0 <= i < |events| ==> events[i].timestampUs - events[0].timestampUs <= MAX_SAFE_INTEGER
  }

  function MetadataOf(events: seq<Event>, identity: Identity): Metadata
    requires CanonicalTrace(events)
  {
    var first, last := events[0], events[|events| - 1];
    var start, finish := first.payload, last.payload;
    Metadata(first.runId, start.scenarioId, start.skillIds, start.modelId, identity.providerId, identity.executionMode,
             identity.simulated, first.timestampUs, last.timestampUs, identity.startedAt, identity.completedAt,
             finish.totalDurationMs, StatusOf(finish.terminationReason), finish.terminationReason, finish.totalTurns,
             ToolCalls(events), identity.totalTokens, finish.totalCostUSD)
  }

  function ProvenanceOf(identity: Identity): Provenance {
    Provenance("persisted-events", if identity.sourceKind.Some? then identity.sourceKind.value else Direct,
               identity.sweepId, identity.cellId, identity.planFingerprint, identity.benchmarkCohort,
               identity.eligibilityStatus, identity.eligibilityReasons, identity.evaluationStatus)
  }

  /** `projectReplaySession`; `None` where it throws. */
  function Project(events: seq<Event>, identity: Identity, parseDiff: string -> seq<string>): Option<Session>
    requires CanonicalTrace(events)
  {
    if !MatchesTrace(identity, events) || !SpanRepresentable(events) then None
    else
      var frames := Frames(events, events[0].timestampUs, parseDiff);
      Some(Session(SCHEMA_VERSION, ProvenanceOf(identity), MetadataOf(events, identity), frames, Telemetry(frames),
                   Diffs(events, parseDiff), events))
  }

  /** Elapsed times start at zero and strictly increase. */
  lemma ElapsedIncreases(events: seq<Event>, identity: Identity, parseDiff: string -> seq<string>, i: nat, j: nat)
    requires CanonicalTrace(events) && Project(events, identity, parseDiff).Some? && i < j < |events|
    ensures var frames := Project(events, identity, parseDiff).value.frames;
            && |frames| == |events| && frames[0].elapsedUs == 0
            && frames[i].elapsedUs < frames[j].elapsedUs <= MAX_SAFE_INTEGER
            && frames[i].elapsedMs < frames[j].elapsedMs
  {
  }
}
