/** The well-formed payloads, by what they carry: amounts, tallies, texts and exit codes. */
module ReplayPayloads {
  import opened Base
  import opened Numbers
  import opened ReplayEvents

  /** The amounts that a payload carries: times, costs, readings. */
  function Amounts(p: Payload): seq<Num> {
    match p
    case RunFinish(_, _, duration, cost, _, _) => [duration, cost]
    case TurnFinish(_, cost, duration, _, _, _) => [cost, duration]
    case ToolFinish(_, _, _, _, duration, _) => [duration]
    case CommandCompleted(_, _, duration, _, _) => if duration.Some? then [duration.value] else []
    case ResourceSample(s) =>
      [s.timestampMs, s.cpuPercent, s.cpuUserUs, s.cpuKernelUs, s.memoryRssBytes, s.memoryCacheBytes,
       s.memoryLimitBytes, s.memoryPercent, s.diskReadBytes, s.diskWriteBytes, s.networkRxBytes, s.networkTxBytes]
    case _ => []
  }

  /** The counts and indices. */
  function Tallies(p: Payload): seq<Num> {
    match p
    case RunFinish(_, _, _, _, turns, _) => [turns]
    case TurnStart(turn, messages) => [turn, messages]
    case TurnFinish(turn, _, _, calls, errors, _) => [turn, calls, errors]
    case TurnError(turn, _) => [turn]
    case ToolDispatch(turn, _, _, _) => [turn]
    case ToolFinish(turn, _, _, _, _, _) => [turn]
    case CommandChunk(_, _, _, _, bytes, limit) => [bytes, limit]
    case CommandCompleted(_, _, _, _, bytes) => [bytes]
    case ResourceSample(s) => [s.activePids]
    case _ => []
  }

  /** The names and texts that must say something. */
  function Texts(p: Payload): seq<string> {
    match p
    case RunStart(id, scenarioId, modelId, skillIds) => [id, scenarioId, modelId] + skillIds
    case RunFinish(id, _, _, _, _, _) => [id]
    case TurnFinish(_, _, _, _, _, reason) => [reason]
    case TurnError(_, error) => [error]
    case ToolDispatch(_, callId, name, _) => [callId, name]
    case ToolFinish(_, callId, name, _, _, _) => [callId, name]
    case CommandStarted(id) => [id]
    case CommandChunk(_, id, _, _, _, _) => [id]
    case CommandCompleted(id, _, _, _, _) => [id]
    case Other(eventType, _, _) => [eventType]
    case _ => []
  }

  /** What an exit code is, if there is one. */
  function ExitCodes(p: Payload): seq<Num> {
    match p
    case ToolFinish(_, _, _, _, _, exitCode) => if exitCode.Some? then [exitCode.value] else []
    case CommandCompleted(_, exitCode, _, _, _) => [exitCode]
    case _ => []
  }

  /** The run is the one of the envelope, a start names a skill, a finish completes exactly on success. */
  predicate Coherent(runId: string, p: Payload) {
    && (p.RunStart? ==> p.runId == runId && p.skillIds != [])
    && (p.RunFinish? ==> p.runId == runId && p.terminationReason in TERMINATION_REASONS &&
                         (p.completed <==> p.terminationReason == "success"))
    && (p.Other? ==> p.eventType !in KNOWN_TYPES)
  }

  predicate AllAmounts(ns: seq<Num>) {
    forall i :: 0 <= i < |ns| ==> ns[i].Fin? && ns[i].v >= 0.0
  }

  /** A safe integer. */
  predicate Whole(n: Num) {
    n.Fin? && n.v == n.v.Floor as real && -0x1F_FFFF_FFFF_FFFF <= n.v.Floor <= 0x1F_FFFF_FFFF_FFFF
  }

  predicate AllWhole(ns: seq<Num>) {
    forall i :: 0 <= i < |ns| ==> Whole(ns[i])
  }

  lemma Counts(n: Num)
    ensures Count(n) <==> Whole(n) && n.v >= 0.0
  {}

  /** What the three lists have to meet. */
  predicate ListsOk(p: Payload) {
    && AllAmounts(Amounts(p)) && AllAmounts(Tallies(p)) && AllWhole(Tallies(p)) && AllWhole(ExitCodes(p))
    && AllNonblank(Texts(p))
  }

  lemma SampleMeans(s: Sample)
    ensures SampleOk(s) <==> AllAmounts(Amounts(ResourceSample(s))) && Count(s.activePids)
  {
    var ns := Amounts(ResourceSample(s));
    if AllAmounts(ns) {
      assert FiniteNonnegative(ns[0]) && FiniteNonnegative(ns[1]) && FiniteNonnegative(ns[2]);
      assert FiniteNonnegative(ns[3]) && FiniteNonnegative(ns[4]) && FiniteNonnegative(ns[5]);
      assert FiniteNonnegative(ns[6]) && FiniteNonnegative(ns[7]) && FiniteNonnegative(ns[8]);
      assert FiniteNonnegative(ns[9]) && FiniteNonnegative(ns[10]) && FiniteNonnegative(ns[11]);
    }
  }

  lemma StartMeans(runId: string, p: Payload)
    requires p.RunStart?
    ensures PayloadOk(runId, p) <==> ListsOk(p) && Coherent(runId, p)
  {
    var texts := Texts(p);
    if AllNonblank(texts) {
      assert Nonblank(texts[0]) && Nonblank(texts[1]) && Nonblank(texts[2]);
      forall i | 0 <= i < |p.skillIds| ensures Nonblank(p.skillIds[i]) { assert texts[3 + i] == p.skillIds[i]; }
    }
  }

  lemma OneTally(n: Num)
    ensures AllAmounts([n]) && AllWhole([n]) <==> Count(n)
  {
    Counts(n);
    if AllAmounts([n]) && AllWhole([n]) {
      assert Whole([n][0]) && [n][0].v >= 0.0;
    }
  }

  lemma MoreTallies(n: Num, rest: seq<Num>)
    ensures AllAmounts([n] + rest) && AllWhole([n] + rest) <==> Count(n) && AllAmounts(rest) && AllWhole(rest)
  {
    OneTally(n);
    if AllAmounts([n] + rest) && AllWhole([n] + rest) {
      assert ([n] + rest)[0] == n;
      forall i | 0 <= i < |rest| ensures Whole(rest[i]) && rest[i].v >= 0.0 {
        assert ([n] + rest)[i + 1] == rest[i];
      }
    }
  }

  lemma FewAmounts(a: Num, b: Num)
    ensures AllAmounts([a]) <==> FiniteNonnegative(a)
    ensures AllAmounts([a, b]) <==> FiniteNonnegative(a) && FiniteNonnegative(b)
    ensures AllWhole([a]) <==> SafeInteger(a)
  {
    if AllAmounts([a]) {
      assert FiniteNonnegative([a][0]);
    }
    if AllAmounts([a, b]) {
      assert FiniteNonnegative([a, b][0]) && FiniteNonnegative([a, b][1]);
    }
    if AllWhole([a]) {
      assert Whole([a][0]);
    }
  }

  lemma FewTexts(a: string, b: string)
    ensures AllNonblank([a]) <==> Nonblank(a)
    ensures AllNonblank([a, b]) <==> Nonblank(a) && Nonblank(b)
  {
    if AllNonblank([a]) {
      assert Nonblank([a][0]);
    }
    if AllNonblank([a, b]) {
      assert Nonblank([a, b][0]) && Nonblank([a, b][1]);
    }
  }

  lemma FinishMeans(runId: string, p: Payload)
    requires p.RunFinish? || p.TurnFinish?
    ensures PayloadOk(runId, p) <==> ListsOk(p) && Coherent(runId, p)
  {
    match p
    case RunFinish(id, _, duration, cost, turns, _) =>
      OneTally(turns);
      FewAmounts(duration, cost);
      FewTexts(id, id);
    case TurnFinish(turn, cost, duration, calls, errors, reason) =>
      OneTally(errors);
      MoreTallies(calls, [errors]);
      MoreTallies(turn, [calls, errors]);
      FewAmounts(cost, duration);
      FewTexts(reason, reason);
      assert [turn] + [calls, errors] == [turn, calls, errors] && [calls] + [errors] == [calls, errors];
  }

  lemma ToolMeans(runId: string, p: Payload)
    requires p.ToolDispatch? || p.ToolFinish?
    ensures PayloadOk(runId, p) <==> ListsOk(p) && Coherent(runId, p)
  {
    OneTally(p.turnIndex);
    FewTexts(p.toolCallId, p.toolName);
    if p.ToolFinish? {
      FewAmounts(p.durationMs, p.durationMs);
      if p.exitCode.Some? {
        FewAmounts(p.exitCode.value, p.exitCode.value);
      }
    }
  }

  lemma CommandMeans(runId: string, p: Payload)
    requires p.CommandStarted? || p.CommandChunk? || p.CommandCompleted?
    ensures PayloadOk(runId, p) <==> ListsOk(p) && Coherent(runId, p)
  {
    FewTexts(p.commandId, p.commandId);
    if p.CommandChunk? {
      OneTally(p.limitBytes);
      MoreTallies(p.bytesRecorded, [p.limitBytes]);
      assert [p.bytesRecorded] + [p.limitBytes] == [p.bytesRecorded, p.limitBytes];
    }
    if p.CommandCompleted? {
      OneTally(p.totalBytes);
      FewAmounts(p.commandExitCode, p.commandExitCode);
      if p.commandDurationMs.Some? {
        FewAmounts(p.commandDurationMs.value, p.commandDurationMs.value);
      }
    }
  }

  lemma OtherMeans(runId: string, p: Payload)
    requires p.TurnStart? || p.TurnError? || p.ResourceSample? || p.GitDiff? || p.Other?
    ensures PayloadOk(runId, p) <==> ListsOk(p) && Coherent(runId, p)
  {
    match p
    case TurnStart(turn, messages) =>
      OneTally(messages);
      MoreTallies(turn, [messages]);
      assert [turn] + [messages] == [turn, messages];
    case TurnError(turn, error) => OneTally(turn); FewTexts(error, error);
    case ResourceSample(s) => SampleMeans(s); OneTally(s.activePids);
    case GitDiff(_) =>
    case Other(eventType, _, _) => FewTexts(eventType, eventType);
  }

  /**
   * A payload is well-formed exactly when its amounts and tallies are finite and not negative, its tallies and exit
   * codes safe integers, its texts not blank, and it is coherent.
   */
  lemma PayloadMeans(runId: string, p: Payload)
    ensures PayloadOk(runId, p) <==>
            AllAmounts(Amounts(p)) && AllAmounts(Tallies(p)) && AllWhole(Tallies(p)) && AllWhole(ExitCodes(p)) &&
            AllNonblank(Texts(p)) && Coherent(runId, p)
  {
    if p.RunStart? {
      StartMeans(runId, p);
    } else if p.RunFinish? || p.TurnFinish? {
      FinishMeans(runId, p);
    } else if p.ToolDispatch? || p.ToolFinish? {
      ToolMeans(runId, p);
    } else if p.CommandStarted? || p.CommandChunk? || p.CommandCompleted? {
      CommandMeans(runId, p);
    } else {
      OtherMeans(runId, p);
    }
  }
}
