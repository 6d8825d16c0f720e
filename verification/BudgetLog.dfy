/** The adjustment log is a faithful record: replaying it gives the ceilings. */
module BudgetLog {
  import opened Base
  import opened BudgetModel
  import opened BudgetRuns

  datatype Ceilings = Ceilings(rpm: real, tpm: real)

  function CeilingsOf(b: Bucket): Ceilings {
    Ceilings(b.currentMaxRPM, b.currentMaxTPM)
  }

  function TopOf(c: RateConfig): Ceilings {
    Ceilings(c.maxRequestsPerMinute, c.maxTokensPerMinute)
  }

  /** One entry read back: it must start from the ceilings reached so far. */
  function ReadEntry(reached: Option<Ceilings>, entry: Adjustment, id: string): Option<Ceilings> {
    if entry.providerId != id || reached.None? then reached
    else if reached.value != Ceilings(entry.previousMaxRPM, entry.previousMaxTPM) then None
    else Some(Ceilings(entry.newMaxRPM, entry.newMaxTPM))
  }

  /** The ceilings of a provider after the entries of a log; `None` when an entry does not continue the one before. */
  function Replay(log: seq<Adjustment>, id: string, start: Ceilings): Option<Ceilings> {
    if log == [] then Some(start) else ReadEntry(Replay(log[..|log| - 1], id, start), log[|log| - 1], id)
  }

  /** How long the log was when the provider was last registered. */
  function LogStart(trace: seq<Event>, id: string): nat {
    if trace == [] then 0
    else if IsRegistration(trace[|trace| - 1].op, id) then |Run(trace[..|trace| - 1]).adjustments|
    else LogStart(trace[..|trace| - 1], id)
  }

  lemma ReplayPush(log: seq<Adjustment>, entry: Adjustment, id: string, start: Ceilings)
    ensures Replay(log + [entry], id, start) == ReadEntry(Replay(log, id, start), entry, id)
  {
    assert (log + [entry])[..|log|] == log;
  }

  /** An operation writes at most one entry, and an entry of this provider when its ceilings move. */
  lemma EntryStep(w: World, op: Op, now: int, id: string) returns (entry: Option<Adjustment>)
    requires id in w.providers && !IsRegistration(op, id)
    ensures StepAdjustments(w, op, now) == Logged(w.adjustments, entry)
    ensures NextBucket(w, op, now, id).config == w.providers[id].config
    ensures
      var before, after := CeilingsOf(w.providers[id]), CeilingsOf(NextBucket(w, op, now, id));
      if entry.Some? && entry.value.providerId == id
      then before == Ceilings(entry.value.previousMaxRPM, entry.value.previousMaxTPM) &&
           after == Ceilings(entry.value.newMaxRPM, entry.value.newMaxTPM)
      else before == after
  {
    entry := None;
    match op
    case Release(_, p, _, _, _, _, _) =>
      if p in w.providers {
        entry := ReleaseEntry(p, w.providers[p], RecordOf(op, now), now);
      }
    case Throttle(p, report) =>
      if p in w.providers {
        entry := Some(ScaleDownEntry(p, w.providers[p], report.reason, now));
      }
    case _ =>
  }

  lemma LogOnlyGrows(w: World, op: Op, now: int)
    ensures w.adjustments <= StepAdjustments(w, op, now)
  {
  }

  lemma {:induction false} LogStartInside(trace: seq<Event>, id: string)
    ensures LogStart(trace, id) <= |Run(trace).adjustments|
  {
    if trace != [] {
      var front, last := trace[..|trace| - 1], trace[|trace| - 1];
      LogStartInside(front, id);
      LogOnlyGrows(Run(front), last.op, last.now);
    }
  }

  /**
   * After every run the entries written since a provider was registered, read from its configured maxima, continue one
   * another and end at its current ceilings.
   */
  lemma {:induction false} LogReplaysCeilings(trace: seq<Event>, id: string)
    requires id in Run(trace).providers
    ensures LogStart(trace, id) <= |Run(trace).adjustments|
    ensures Replay(Run(trace).adjustments[LogStart(trace, id)..], id, TopOf(Run(trace).providers[id].config))
            == Some(CeilingsOf(Run(trace).providers[id]))
  {
    var front, last := trace[..|trace| - 1], trace[|trace| - 1];
    var w, after := Run(front), Run(trace);
    assert after == Step(w, last.op, last.now);
    LogStartInside(trace, id);
    if IsRegistration(last.op, id) {
      assert after.adjustments[LogStart(trace, id)..] == [];
    } else {
      LogReplaysCeilings(front, id);
      var entry := EntryStep(w, last.op, last.now, id);
      var tail := w.adjustments[LogStart(front, id)..];
      if entry.Some? {
        ReplayPush(tail, entry.value, id, TopOf(w.providers[id].config));
        assert after.adjustments[LogStart(trace, id)..] == tail + [entry.value];
      }
    }
  }
}
