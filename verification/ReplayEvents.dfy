/** Telemetry events and the language of traces that the envelope validator accepts. */
module ReplayEvents {
  import opened Base
  import opened Numbers

  datatype Sample = Sample(timestampMs: Num, cpuPercent: Num, cpuUserUs: Num, cpuKernelUs: Num, memoryRssBytes: Num,
                           memoryCacheBytes: Num, memoryLimitBytes: Num, memoryPercent: Num, diskReadBytes: Num,
                           diskWriteBytes: Num, networkRxBytes: Num, networkTxBytes: Num, activePids: Num)

  /** The payload of a known event type, or of any other type. */
  datatype Payload =
    | RunStart(runId: string, scenarioId: string, modelId: string, skillIds: seq<string>)
    | RunFinish(runId: string, terminationReason: string, totalDurationMs: Num, totalCostUSD: Num, totalTurns: Num,
                completed: bool)
    | TurnStart(turnIndex: Num, messageCount: Num)
    | TurnFinish(turnIndex: Num, turnCostUSD: Num, turnDurationMs: Num, toolCallsCount: Num, toolErrorsCount: Num,
                 finishReason: string)
    | TurnError(turnIndex: Num, error: string)
    | ToolDispatch(turnIndex: Num, toolCallId: string, toolName: string, arguments: string)
    | ToolFinish(turnIndex: Num, toolCallId: string, toolName: string, isError: bool, durationMs: Num,
                 exitCode: Option<Num>)
    | CommandStarted(commandId: string)
    | CommandChunk(stderr: bool, commandId: string, chunk: string, outputTruncated: bool, bytesRecorded: Num,
                   limitBytes: Num)
    | CommandCompleted(commandId: string, commandExitCode: Num, commandDurationMs: Option<Num>, outputTruncated: bool,
                       totalBytes: Num)
    | ResourceSample(sample: Sample)
    | GitDiff(rawDiff: string)
    | Other(eventType: string, turn: Option<Num>, body: string)

  /** An event; a timestamp is the number its positive decimal text stands for. */
  datatype Event = Event(runId: string, sequenceNumber: int, timestampUs: int, payload: Payload)

  const KNOWN_TYPES: set<string> := {
    "run:start", "run:finish", "turn:start", "turn:finish", "turn:error", "tool:dispatch", "tool:finish",
    "TOOL_CALL_STARTED", "TOOL_STDOUT_CHUNK", "TOOL_STDERR_CHUNK", "TOOL_CALL_COMPLETED", "RESOURCE_SAMPLE",
    "GIT_DIFF_CAPTURED"
  }

  const TERMINATION_REASONS: set<string> := {
    "success", "max_turns", "timeout", "budget_exceeded", "aborted", "tool_error_loop", "persistence_failed", "error"
  }

  predicate SafeInteger(n: Num) {
    IsInteger(n) && IsSafeInteger(n.v.Floor)
  }

  predicate Count(n: Num) {
    SafeInteger(n) && n.v >= 0.0
  }

  predicate SampleOk(s: Sample) {
    && FiniteNonnegative(s.timestampMs) && FiniteNonnegative(s.cpuPercent) && FiniteNonnegative(s.cpuUserUs)
    && FiniteNonnegative(s.cpuKernelUs)
    && FiniteNonnegative(s.memoryRssBytes) && FiniteNonnegative(s.memoryCacheBytes)
    && FiniteNonnegative(s.memoryLimitBytes)
    && FiniteNonnegative(s.memoryPercent) && FiniteNonnegative(s.diskReadBytes) && FiniteNonnegative(s.diskWriteBytes)
    && FiniteNonnegative(s.networkRxBytes) && FiniteNonnegative(s.networkTxBytes) && Count(s.activePids)
  }

  /** `validateKnownPayload` */
  predicate PayloadOk(runId: string, p: Payload) {
    match p
    case RunStart(id, scenarioId, modelId, skillIds) =>
      id == runId && Nonblank(id) && Nonblank(scenarioId) && Nonblank(modelId) && |skillIds| > 0 &&
        AllNonblank(skillIds)
    case RunFinish(id, reason, duration, cost, turns, completed) =>
      && id == runId && Nonblank(id) && reason in TERMINATION_REASONS && FiniteNonnegative(duration)
      && FiniteNonnegative(cost)
      && Count(turns) && completed == (reason == "success")
    case TurnStart(turn, messages) => Count(turn) && Count(messages)
    case TurnFinish(turn, cost, duration, calls, errors, reason) =>
      Count(turn) && FiniteNonnegative(cost) && FiniteNonnegative(duration) && Count(calls) && Count(errors) &&
        Nonblank(reason)
    case TurnError(turn, error) => Count(turn) && Nonblank(error)
    case ToolDispatch(turn, callId, name, _) => Count(turn) && Nonblank(callId) && Nonblank(name)
    case ToolFinish(turn, callId, name, _, duration, exitCode) =>
      Count(turn) && Nonblank(callId) && Nonblank(name) && FiniteNonnegative(duration) &&
        (exitCode.Some? ==> SafeInteger(exitCode.value))
    case CommandStarted(id) => Nonblank(id)
    case CommandChunk(_, id, _, _, bytes, limit) => Nonblank(id) && Count(bytes) && Count(limit)
    case CommandCompleted(id, exitCode, duration, _, bytes) =>
      Nonblank(id) && SafeInteger(exitCode) && (duration.Some? ==> FiniteNonnegative(duration.value)) && Count(bytes)
    case ResourceSample(sample) => SampleOk(sample)
    case GitDiff(_) => true
    case Other(eventType, _, _) => Nonblank(eventType) && eventType !in KNOWN_TYPES
  }

  /** `validateEnvelope` */
  predicate EnvelopeOk(e: Event) {
    Nonblank(e.runId) && 1 <= e.sequenceNumber && IsSafeInteger(e.sequenceNumber) && 1 <= e.timestampUs
  }

  /**
   * The accepted language: one run from its single start to its single finish, numbered from one, with strictly
   * increasing timestamps and well-formed payloads.
   */
  predicate CanonicalTrace(events: seq<Event>) {
    && |events| > 0 && events[0].payload.RunStart? && events[|events| - 1].payload.RunFinish?
    && (forall i :: 0 < i < |events| ==> !events[i].payload.RunStart?)
    && (forall i :: 0 <= i < |events| - 1 ==> !events[i].payload.RunFinish?)
    && (forall i :: 0 <= i < |events| ==> EventOk(events[i], events[0].runId, i))
    && (forall i, j :: 0 <= i < j < |events| ==> events[i].timestampUs < events[j].timestampUs)
  }

  predicate EventOk(e: Event, runId: string, i: int) {
    EnvelopeOk(e) && e.runId == runId && e.sequenceNumber == i + 1 && PayloadOk(runId, e.payload)
  }

  function CountStarts(events: seq<Event>): nat {
    if events == [] then 0
    else CountStarts(events[..|events| - 1]) + if events[|events| - 1].payload.RunStart? then 1 else 0
  }

  function CountFinishes(events: seq<Event>): nat {
    if events == [] then 0
    else CountFinishes(events[..|events| - 1]) + if events[|events| - 1].payload.RunFinish? then 1 else 0
  }

  lemma {:induction false} NoStarts(events: seq<Event>)
    ensures CountStarts(events) == 0 <==> forall i :: 0 <= i < |events| ==> !events[i].payload.RunStart?
  {
    if events != [] {
      NoStarts(events[..|events| - 1]);
    }
  }

  lemma {:induction false} OneStart(events: seq<Event>)
    requires |events| > 0 && events[0].payload.RunStart?
    ensures CountStarts(events) >= 1
    ensures CountStarts(events) == 1 <==> forall i :: 0 < i < |events| ==> !events[i].payload.RunStart?
  {
    var front := events[..|events| - 1];
    if front == [] {
      assert CountStarts(front) == 0;
    } else {
      assert front[0] == events[0];
      OneStart(front);
      assert forall i :: 0 < i < |front| ==> front[i] == events[i];
    }
  }

  lemma OneFinish(events: seq<Event>)
    requires |events| > 0 && events[|events| - 1].payload.RunFinish?
    ensures CountFinishes(events) == 1 <==> forall i :: 0 <= i < |events| - 1 ==> !events[i].payload.RunFinish?
  {
    NoFinishes(events[..|events| - 1]);
  }

  lemma {:induction false} NoFinishes(events: seq<Event>)
    ensures CountFinishes(events) == 0 <==> forall i :: 0 <= i < |events| ==> !events[i].payload.RunFinish?
  {
    if events != [] {
      NoFinishes(events[..|events| - 1]);
    }
  }

  /**
   * `validateCanonicalEvents`: the map over envelopes, the two counts and the loop accept exactly the canonical traces.
   */
  method ValidateCanonicalEvents(events: seq<Event>) returns (ok: bool)
    ensures ok <==> CanonicalTrace(events)
  {
    if |events| == 0 {
      return false;
    }
    for i := 0 to |events|
      invariant forall j :: 0 <= j < i ==> EnvelopeOk(events[j])
    {
      if !EnvelopeOk(events[i]) {
        return false;
      }
    }
    if !events[0].payload.RunStart? || !events[|events| - 1].payload.RunFinish? {
      return false;
    }
    OneStart(events);
    OneFinish(events);
    if CountStarts(events) != 1 || CountFinishes(events) != 1 {
      return false;
    }
    var runId := events[0].runId;
    var previousTimestamp := 0;
    for index := 0 to |events|
      invariant forall j :: 0 <= j < index ==> EventOk(events[j], runId, j)
      invariant forall j :: 0 <= j < index ==> events[j].timestampUs <= previousTimestamp
      invariant forall j, k :: 0 <= j < k < index ==> events[j].timestampUs < events[k].timestampUs
      invariant previousTimestamp == if index > 0 then events[index - 1].timestampUs else 0
    {
      var event := events[index];
      if event.runId != runId || event.sequenceNumber != index + 1 {
        return false;
      }
      if event.timestampUs <= previousTimestamp {
        assert EnvelopeOk(event);
        assert events[index - 1].timestampUs >= events[index].timestampUs;
        return false;
      }
      previousTimestamp := event.timestampUs;
      if !PayloadOk(event.runId, event.payload) {
        return false;
      }
    }
    return true;
  }
}
