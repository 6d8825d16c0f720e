/** What a projected session shows: its frames, event by event, and its metadata over the whole run. */
module ReplayContents {
  import opened Base
  import opened Numbers
  import opened ReplayEvents
  import opened ReplayProjector

  // ----- one frame

  predicate IsToolEvent(p: Payload) {
    p.ToolDispatch? || p.ToolFinish?
  }

  predicate IsCommandEvent(p: Payload) {
    p.CommandStarted? || p.CommandChunk? || p.CommandCompleted?
  }

  /** The kinds of frame name the kinds of event. */
  predicate TypeTells(f: FrameType, p: Payload) {
    && (f == SessionStart <==> p.RunStart?) && (f == SessionEnd <==> p.RunFinish?)
    && (f == TurnStarted <==> p.TurnStart?) && (f == TurnEnded <==> p.TurnFinish?) && (f == Error <==> p.TurnError?)
    && (f == ToolCall <==> p.ToolDispatch?) && (f == ToolResult <==> p.ToolFinish?)
    && (f == CommandStart <==> p.CommandStarted?) && (f == CommandStream <==> p.CommandChunk?)
    && (f == CommandEnd <==> p.CommandCompleted?)
    && (f == ResourceSampled <==> p.ResourceSample?) && (f == GitDiffed <==> p.GitDiff?) && (f == Generic <==> p.Other?)
  }

  /** A tool frame shows name, call and time; a result also its duration, its error flag and its exit code. */
  predicate ToolShown(d: Details, e: Event) {
    && (d.toolCall.Some? <==> IsToolEvent(e.payload))
    && (IsToolEvent(e.payload) ==>
          && d.toolCall.value.toolName == e.payload.toolName && d.toolCall.value.callId == e.payload.toolCallId
          && d.toolCall.value.timestampUs == e.timestampUs)
    && (e.payload.ToolDispatch? ==>
          && d.toolCall.value.inputPayload == Some(e.payload.arguments)
          && d.toolCall.value.isError == None && d.toolCall.value.exitCode == None
          && d.toolCall.value.durationMs == None)
    && (e.payload.ToolFinish? ==>
          && d.toolCall.value.isError == Some(e.payload.isError) && d.toolCall.value.exitCode == e.payload.exitCode
          && d.toolCall.value.durationMs == Some(e.payload.durationMs) && d.toolCall.value.inputPayload == None)
  }

  /** A command frame shows its command; a chunk its stream and text, a completion its exit code and duration. */
  predicate CommandShown(d: Details, p: Payload) {
    && (d.command.Some? <==> IsCommandEvent(p))
    && (IsCommandEvent(p) ==> d.command.value.commandId == p.commandId)
    && (p.CommandChunk? ==>
          && d.command.value.stderr == Some(p.stderr) && d.command.value.chunk == Some(p.chunk)
          && d.command.value.outputTruncated == Some(p.outputTruncated))
    && (p.CommandCompleted? ==>
          && d.command.value.exitCode == Some(p.commandExitCode) && d.command.value.durationMs == p.commandDurationMs
          && d.command.value.outputTruncated == Some(p.outputTruncated))
  }

  /** `shown`, in units of `unit`, is `n`. */
  predicate InUnits(shown: Num, n: Num, unit: real) {
    if n.Fin? then shown.Fin? && shown.v * unit == n.v else shown == n
  }

  predicate SampleShown(t: TelemetryPoint, s: Sample) {
    && t.timestampMs == s.timestampMs && t.cpuPercent == s.cpuPercent && t.memoryPercent == s.memoryPercent
    && t.activePids == s.activePids
    && InUnits(t.memoryRssMb, s.memoryRssBytes, 1048576.0) && InUnits(t.memoryLimitMb, s.memoryLimitBytes, 1048576.0)
    && InUnits(t.diskReadKb, s.diskReadBytes, 1024.0) && InUnits(t.diskWriteKb, s.diskWriteBytes, 1024.0)
    && InUnits(t.networkRxKb, s.networkRxBytes, 1024.0) && InUnits(t.networkTxKb, s.networkTxBytes, 1024.0)
  }

  /** What frame `f` shows of event `e`, number `i` of a run that began at `startUs`. */
  predicate Shows(f: Frame, e: Event, i: nat, startUs: int) {
    && f.frameIndex == i && f.sequenceNumber == e.sequenceNumber && f.timestampUs == e.timestampUs
    && f.payload == e.payload && TypeTells(f.frameType, e.payload)
    && f.elapsedUs == e.timestampUs - startUs && f.elapsedMs * 1000.0 == f.elapsedUs as real
    && ToolShown(f.details, e) && CommandShown(f.details, e.payload)
    && (f.details.telemetry.Some? <==> e.payload.ResourceSample?)
    && (e.payload.ResourceSample? ==> SampleShown(f.details.telemetry.value, e.payload.sample))
    && f.details.totalCostUSD == (if e.payload.RunFinish? then Some(e.payload.totalCostUSD) else None)
    && (e.payload.TurnStart? || e.payload.TurnFinish? || e.payload.TurnError? || IsToolEvent(e.payload) ==>
          f.turnIndex == Some(e.payload.turnIndex))
  }

  lemma UnitsAre(n: Num, unit: real)
    requires unit > 0.0
    ensures InUnits(DividedBy(n, unit), n, unit)
  {}

  lemma SampleIsShown(s: Sample)
    ensures SampleShown(PointOf(s), s)
  {
    UnitsAre(s.memoryRssBytes, 1048576.0);
    UnitsAre(s.memoryLimitBytes, 1048576.0);
    UnitsAre(s.diskReadBytes, 1024.0);
    UnitsAre(s.diskWriteBytes, 1024.0);
    UnitsAre(s.networkRxBytes, 1024.0);
    UnitsAre(s.networkTxBytes, 1024.0);
  }

  lemma FrameIsShown(e: Event, i: nat, startUs: int, parseDiff: string -> seq<string>)
    ensures Shows(FrameOf(e, i, startUs, parseDiff), e, i, startUs)
  {
    if e.payload.ResourceSample? {
      SampleIsShown(e.payload.sample);
    }
  }

  /** Each frame of a session shows its own event, and nothing else. */
  lemma FramesShow(events: seq<Event>, identity: Identity, parseDiff: string -> seq<string>, i: nat)
    requires CanonicalTrace(events) && Project(events, identity, parseDiff).Some? && i < |events|
    ensures |Project(events, identity, parseDiff).value.frames| == |events|
    ensures Shows(Project(events, identity, parseDiff).value.frames[i], events[i], i, events[0].timestampUs)
  {
    FrameIsShown(events[i], i, events[0].timestampUs, parseDiff);
  }

  // ----- the session as a whole

  /** How many of the frames are of type `t`. */
  function CountType(frames: seq<Frame>, t: FrameType): nat {
    if frames == [] then 0
    else CountType(frames[..|frames| - 1], t) + if frames[|frames| - 1].frameType == t then 1 else 0
  }

  predicate IsCall(p: Payload) {
    p.ToolDispatch? || p.CommandStarted?
  }

  predicate IsCallFrame(f: FrameType) {
    f == ToolCall || f == CommandStart
  }

  lemma CallTells(f: FrameType, p: Payload)
    requires TypeTells(f, p)
    ensures IsCall(p) <==> IsCallFrame(f)
  {}

  lemma {:induction false} ToolCallsCounted(events: seq<Event>, frames: seq<Frame>)
    requires |frames| == |events|
    requires forall i :: 0 <= i < |events| ==> (IsCall(events[i].payload) <==> IsCallFrame(frames[i].frameType))
    ensures ToolCalls(events) == CountType(frames, ToolCall) + CountType(frames, CommandStart)
  {
    if events != [] {
      var n := |events| - 1;
      ToolCallsCounted(events[..n], frames[..n]);
      assert IsCall(events[n].payload) <==> IsCallFrame(frames[n].frameType);
    }
  }

  lemma {:induction false} TelemetryCounted(frames: seq<Frame>)
    requires forall i :: 0 <= i < |frames| ==>
             (frames[i].details.telemetry.Some? <==> frames[i].frameType == ResourceSampled)
    ensures |Telemetry(frames)| == CountType(frames, ResourceSampled)
  {
    if frames != [] {
      TelemetryCounted(frames[..|frames| - 1]);
    }
  }

  /** The status a run is shown with, and the reason it ended for. */
  predicate StatusTells(status: ExecutionStatus, reason: string) {
    && (status == Completed <==> reason == "success") && (status == TimedOut <==> reason == "timeout")
    && (status == Aborted <==> reason == "aborted")
  }

  /** The metadata repeats the first and the last event, tells the status by the reason, and counts the frames. */
  lemma MetadataShows(events: seq<Event>, identity: Identity, parseDiff: string -> seq<string>)
    requires CanonicalTrace(events) && Project(events, identity, parseDiff).Some?
    ensures
      var s := Project(events, identity, parseDiff).value;
      var m, start, finish := s.metadata, events[0].payload, events[|events| - 1].payload;
      && m.runId == events[0].runId == start.runId == finish.runId
      && m.scenarioId == start.scenarioId && m.skillIds == start.skillIds && m.modelId == start.modelId
      && m.startTimestampUs == events[0].timestampUs && m.endTimestampUs == events[|events| - 1].timestampUs
      && m.durationMs == finish.totalDurationMs && m.totalTurns == finish.totalTurns
      && m.totalCostUSD == finish.totalCostUSD && m.terminationReason == finish.terminationReason
      && StatusTells(m.executionStatus, finish.terminationReason)
      && m.totalToolCalls == CountType(s.frames, ToolCall) + CountType(s.frames, CommandStart)
      && |s.telemetrySeries| == CountType(s.frames, ResourceSampled) && s.sourceEvents == events
  {
    var frames := Project(events, identity, parseDiff).value.frames;
    forall i | 0 <= i < |events|
      ensures IsCall(events[i].payload) <==> IsCallFrame(frames[i].frameType)
      ensures frames[i].details.telemetry.Some? <==> frames[i].frameType == ResourceSampled
    {
      FramesShow(events, identity, parseDiff, i);
      CallTells(frames[i].frameType, events[i].payload);
    }
    ToolCallsCounted(events, frames);
    TelemetryCounted(frames);
    assert EventOk(events[0], events[0].runId, 0);
    assert EventOk(events[|events| - 1], events[0].runId, |events| - 1);
  }

  // ----- which traces are projected for an identity

  /** `x` is `n` rounded to as many decimals as `scale` has zeros. */
  predicate Nearest(x: Num, n: Num, scale: real) {
    x.Fin? && n.Fin? && NearestWhole(x.v * scale, n.v * scale)
  }

  /** `z` is the whole number next to `y`, the upper one where two are. */
  predicate NearestWhole(z: real, y: real) {
    z == z.Floor as real && z - 0.5 <= y < z + 0.5
  }

  lemma QuotientTimes(k: int, x: real, scale: real)
    requires scale > 0.0
    ensures x == k as real / scale <==> x * scale == k as real
  {}

  lemma FloorIs(y: real, m: int)
    requires m as real <= y < m as real + 1.0
    ensures y.Floor == m
  {}

  lemma RoundIs(y: real, m: int)
    ensures m == Round(y) <==> m as real - 0.5 <= y < m as real + 0.5
  {
    if m as real - 0.5 <= y < m as real + 0.5 {
      FloorIs(y + 0.5, m);
    }
  }

  /** `z` stands for `x` scaled. */
  lemma NearestReal(x: real, y: real, z: real, scale: real)
    requires scale > 0.0 && z == x * scale
    ensures x == Round(y) as real / scale <==> NearestWhole(z, y)
  {
    QuotientTimes(Round(y), x, scale);
    RoundIs(y, Round(y));
    RoundIs(y, z.Floor);
  }

  lemma NearestIs(x: Num, n: Num, scale: real)
    requires scale > 0.0 && n.Fin?
    ensures x == ToFixed(n, scale) <==> Nearest(x, n, scale)
  {
    if x.Fin? {
      NearestReal(x.v, n.v * scale, x.v * scale, scale);
    }
  }

  /** What the identity expects is what the trace shows; times to two decimals, costs to six. */
  predicate Expects(identity: Identity, first: Event, last: Event)
    requires first.payload.RunStart? && last.payload.RunFinish?
  {
    var start, finish := first.payload, last.payload;
    && (identity.runId.Some? ==> identity.runId.value == first.runId)
    && (identity.scenarioId.Some? ==> identity.scenarioId.value == start.scenarioId)
    && (identity.modelId.Some? ==> identity.modelId.value == start.modelId)
    && (identity.skillId.Some? ==> start.skillIds == [identity.skillId.value])
    && (identity.terminationReason.Some? ==> identity.terminationReason.value == finish.terminationReason)
    && (identity.status.Some? ==> StatusTells(identity.status.value, finish.terminationReason))
    && (identity.durationMs.Some? ==> Nearest(identity.durationMs.value, finish.totalDurationMs, 100.0))
    && (identity.totalCostUSD.Some? ==> Nearest(identity.totalCostUSD.value, finish.totalCostUSD, 1000000.0))
    && (identity.totalTurns.Some? ==> identity.totalTurns.value == finish.totalTurns)
  }

  /**
   * A trace is projected exactly when it is the one the identity expects, and no longer than a safe integer can tell.
   */
  lemma ProjectedExactly(events: seq<Event>, identity: Identity, parseDiff: string -> seq<string>)
    requires CanonicalTrace(events)
    ensures Project(events, identity, parseDiff).Some? <==>
            Expects(identity, events[0], events[|events| - 1]) &&
            events[|events| - 1].timestampUs - events[0].timestampUs <= 0x1F_FFFF_FFFF_FFFF
  {
    var finish := events[|events| - 1].payload;
    assert EventOk(events[|events| - 1], events[0].runId, |events| - 1);
    if identity.durationMs.Some? {
      NearestIs(identity.durationMs.value, finish.totalDurationMs, 100.0);
    }
    if identity.totalCostUSD.Some? {
      NearestIs(identity.totalCostUSD.value, finish.totalCostUSD, 1000000.0);
    }
    assert SpanRepresentable(events) <==>
           events[|events| - 1].timestampUs - events[0].timestampUs <= 0x1F_FFFF_FFFF_FFFF;
  }

  /** The session shows what the identity knows beyond the trace; a run of unknown origin is a direct one. */
  lemma IdentityShown(events: seq<Event>, identity: Identity, parseDiff: string -> seq<string>)
    requires CanonicalTrace(events) && Project(events, identity, parseDiff).Some?
    ensures
      var s := Project(events, identity, parseDiff).value;
      var p, m := s.provenance, s.metadata;
      && s.schemaVersion == SCHEMA_VERSION && p.source == "persisted-events"
      && (identity.sourceKind == None ==> p.sourceKind == Direct)
      && (identity.sourceKind.Some? ==> p.sourceKind == identity.sourceKind.value)
      && p.sweepId == identity.sweepId && p.cellId == identity.cellId && p.planFingerprint == identity.planFingerprint
      && p.benchmarkCohort == identity.benchmarkCohort && p.eligibilityStatus == identity.eligibilityStatus
      && p.eligibilityReasons == identity.eligibilityReasons && p.evaluationStatus == identity.evaluationStatus
      && m.providerId == identity.providerId && m.executionMode == identity.executionMode
      && m.simulated == identity.simulated && m.startedAt == identity.startedAt
      && m.completedAt == identity.completedAt && m.totalTokens == identity.totalTokens
  {}

  // ----- diffs

  /** How many diffs the captured ones parse to. */
  function DiffCount(events: seq<Event>, parseDiff: string -> seq<string>): nat {
    if events == [] then 0
    else
      var last := events[|events| - 1].payload;
      DiffCount(events[..|events| - 1], parseDiff) + if last.GitDiff? then |parseDiff(last.rawDiff)| else 0
  }

  lemma {:induction false} DiffsCounted(events: seq<Event>, parseDiff: string -> seq<string>)
    ensures |Diffs(events, parseDiff)| == DiffCount(events, parseDiff)
  {
    if events != [] {
      DiffsCounted(events[..|events| - 1], parseDiff);
    }
  }

  /** The session's diffs are those of the captured ones, in order. */
  lemma {:induction false} DiffsShown(events: seq<Event>, parseDiff: string -> seq<string>, i: nat)
    requires i < |events| && events[i].payload.GitDiff?
    ensures
      var from, to := DiffCount(events[..i], parseDiff), DiffCount(events[..i + 1], parseDiff);
      && from <= to <= |Diffs(events, parseDiff)| == DiffCount(events, parseDiff)
      && Diffs(events, parseDiff)[from..to] == parseDiff(events[i].payload.rawDiff)
  {
    var n := |events| - 1;
    var from := DiffCount(events[..i], parseDiff);
    DiffsCounted(events, parseDiff);
    DiffsCounted(events[..i], parseDiff);
    assert events[..i + 1][..i] == events[..i];
    if i < n {
      DiffsShown(events[..n], parseDiff, i);
      assert events[..n][..i] == events[..i] && events[..n][..i + 1] == events[..i + 1];
      var to := DiffCount(events[..i + 1], parseDiff);
      assert Diffs(events, parseDiff)[from..to] == Diffs(events[..n], parseDiff)[from..to];
    } else {
      assert events[..i + 1] == events;
    }
  }
}
