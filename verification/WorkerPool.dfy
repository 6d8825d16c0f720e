/** The worker pool of a matrix run: every interleaving of its workers' atomic steps. */
module WorkerPool {
  import opened Base

  /** A worker is between cells, executing one, past its loop, or rejected by a throwing callback. */
  datatype Worker = Idle | Running(index: nat) | Exited | Crashed

  /** What the workers share; `started` lists the claimed cells in order of their claims. */
  datatype Pool<R> = Pool(cells: nat, nextIndex: nat, workers: seq<Worker>, results: seq<Option<R>>, started: seq<nat>)

  /** A claim tests and increments `nextIndex` with no `await` in between. */
  datatype Step = Claim(worker: nat) | Finish(worker: nat) | Exit(worker: nat) | Crash(worker: nat)

  /** `Math.min(Math.max(1, concurrency ?? 4), n)` */
  function WorkerCount(concurrency: Option<int>, cells: nat): nat {
    var wanted := if concurrency.Some? then concurrency.value else 4;
    Min(if wanted < 1 then 1 else wanted, cells)
  }

  function Start<R>(cells: nat, workers: nat): Pool<R> {
    Pool(cells, 0, seq(workers, _ => Idle), seq(cells, _ => None), [])
  }

  predicate Enabled<R>(p: Pool<R>, step: Step) {
    step.worker < |p.workers| &&
    match step
    case Claim(w) => p.workers[w] == Idle && p.nextIndex < p.cells
    case Finish(w) => p.workers[w].Running? && p.workers[w].index < |p.results|
    case Exit(w) => p.workers[w] == Idle && p.nextIndex >= p.cells
    case Crash(w) => p.workers[w].Running?
  }

  /** `execute` is what executing each cell returns. */
  function Apply<R>(p: Pool<R>, step: Step, execute: nat -> R): Pool<R>
    requires Enabled(p, step)
  {
    var w := step.worker;
    match step
    case Claim(_) => p.(workers := p.workers[w := Running(p.nextIndex)], nextIndex := p.nextIndex + 1,
                        started := p.started + [p.nextIndex])
    case Finish(_) => p.(workers := p.workers[w := Idle],
                         results := p.results[p.workers[w].index := Some(execute(p.workers[w].index))])
    case Exit(_) => p.(workers := p.workers[w := Exited])
    case Crash(_) => p.(workers := p.workers[w := Crashed])
  }

  predicate Legal<R>(p: Pool<R>, schedule: seq<Step>, execute: nat -> R)
    decreases |schedule|
  {
    schedule == [] || (Enabled(p, schedule[0]) && Legal(Apply(p, schedule[0], execute), schedule[1..], execute))
  }

  function After<R>(p: Pool<R>, schedule: seq<Step>, execute: nat -> R): Pool<R>
    requires Legal(p, schedule, execute)
    decreases |schedule|
  {
    if schedule == [] then p else After(Apply(p, schedule[0], execute), schedule[1..], execute)
  }

  predicate NoCrash(schedule: seq<Step>) {
    forall k :: 0 <= k < |schedule| ==> !schedule[k].Crash?
  }

  // ----- what every step keeps

  predicate InFlight<R>(p: Pool<R>, i: nat) {
    exists w :: 0 <= w < |p.workers| && p.workers[w] == Running(i)
  }

  predicate Claimed<R>(p: Pool<R>) {
    && p.nextIndex <= p.cells == |p.results|
    && |p.started| == p.nextIndex && forall k :: 0 <= k < p.nextIndex ==> p.started[k] == k
  }

  /** Running workers hold different claimed cells that have no result yet. */
  predicate Exclusive<R>(p: Pool<R>)
    requires |p.results| == p.cells
  {
    && (forall w :: 0 <= w < |p.workers| && p.workers[w].Running? ==>
          p.workers[w].index < p.nextIndex && p.workers[w].index < p.cells && p.results[p.workers[w].index].None?)
    && (forall v, w :: 0 <= v < w < |p.workers| && p.workers[v].Running? && p.workers[w].Running? ==>
          p.workers[v].index != p.workers[w].index)
  }

  /** A slot holds the result of its own cell, and only once that cell was claimed. */
  ghost predicate Faithful<R>(p: Pool<R>, execute: nat -> R) {
    forall i :: 0 <= i < |p.results| ==>
      (p.results[i] == None || (i < p.nextIndex && p.results[i] == Some(execute(i))))
  }

  /** No claimed cell is lost: it is in flight or has its result. */
  predicate NothingLost<R>(p: Pool<R>) {
    forall i :: 0 <= i < p.nextIndex && i < |p.results| ==> p.results[i].Some? || InFlight(p, i)
  }

  predicate ExitsLate<R>(p: Pool<R>) {
    forall w :: 0 <= w < |p.workers| && p.workers[w] == Exited ==> p.nextIndex >= p.cells
  }

  ghost predicate Invariant<R>(p: Pool<R>, execute: nat -> R) {
    Claimed(p) && Exclusive(p) && Faithful(p, execute) && ExitsLate(p)
  }

  lemma StepKeeps<R>(p: Pool<R>, step: Step, execute: nat -> R)
    requires Invariant(p, execute) && Enabled(p, step)
    ensures Invariant(Apply(p, step, execute), execute)
    ensures |Apply(p, step, execute).workers| == |p.workers| && Apply(p, step, execute).cells == p.cells
  {
  }

  lemma StepLosesNothing<R>(p: Pool<R>, step: Step, execute: nat -> R)
    requires Claimed(p) && NothingLost(p) && Enabled(p, step) && !step.Crash?
    ensures NothingLost(Apply(p, step, execute))
  {
    var q := Apply(p, step, execute);
    forall i: nat | 0 <= i < q.nextIndex && i < |q.results| ensures q.results[i].Some? || InFlight(q, i) {
      if i == p.nextIndex {
        assert q.workers[step.worker] == Running(i);
      } else if p.results[i].None? {
        var w :| 0 <= w < |p.workers| && p.workers[w] == Running(i);
        if w != step.worker {
          assert q.workers[w] == Running(i);
        }
      }
    }
  }

  lemma {:induction false} RunKeeps<R>(p: Pool<R>, schedule: seq<Step>, execute: nat -> R)
    requires Invariant(p, execute) && Legal(p, schedule, execute)
    ensures Invariant(After(p, schedule, execute), execute)
    ensures |After(p, schedule, execute).workers| == |p.workers| && After(p, schedule, execute).cells == p.cells
    ensures NothingLost(p) && NoCrash(schedule) ==> NothingLost(After(p, schedule, execute))
    decreases |schedule|
  {
    if schedule != [] {
      StepKeeps(p, schedule[0], execute);
      if NothingLost(p) && !schedule[0].Crash? {
        StepLosesNothing(p, schedule[0], execute);
      }
      RunKeeps(Apply(p, schedule[0], execute), schedule[1..], execute);
    }
  }

  // ----- how many cells are in flight, and how long a schedule can be

  function RunningCount(workers: seq<Worker>): nat {
    if workers == [] then 0
    else RunningCount(workers[..|workers| - 1]) + if workers[|workers| - 1].Running? then 1 else 0
  }

  lemma {:induction false} RunningAtMost(workers: seq<Worker>)
    ensures RunningCount(workers) <= |workers|
  {
    if workers != [] {
      RunningAtMost(workers[..|workers| - 1]);
    }
  }

  function CrashedCount(workers: seq<Worker>): nat {
    if workers == [] then 0
    else CrashedCount(workers[..|workers| - 1]) + if workers[|workers| - 1].Crashed? then 1 else 0
  }

  function FilledCount<R>(results: seq<Option<R>>): nat {
    if results == [] then 0
    else FilledCount(results[..|results| - 1]) + if results[|results| - 1].Some? then 1 else 0
  }

  lemma {:induction false} CountsUpdate(workers: seq<Worker>, i: nat, w: Worker)
    requires i < |workers|
    ensures RunningCount(workers[i := w])
            == RunningCount(workers) - (if workers[i].Running? then 1 else 0) + if w.Running? then 1 else 0
    ensures CrashedCount(workers[i := w])
            == CrashedCount(workers) - (if workers[i].Crashed? then 1 else 0) + if w.Crashed? then 1 else 0
  {
    var n := |workers| - 1;
    if i == n {
      assert workers[i := w][..n] == workers[..n];
    } else {
      assert workers[i := w][..n] == workers[..n][i := w];
      CountsUpdate(workers[..n], i, w);
    }
  }

  lemma {:induction false} FilledUpdate<R>(results: seq<Option<R>>, i: nat, r: R)
    requires i < |results| && results[i].None?
    ensures FilledCount(results[i := Some(r)]) == FilledCount(results) + 1
  {
    var n := |results| - 1;
    if i == n {
      assert results[i := Some(r)][..n] == results[..n];
    } else {
      assert results[i := Some(r)][..n] == results[..n][i := Some(r)];
      FilledUpdate(results[..n], i, r);
    }
  }

  /** The cells that are in flight, that a crash left unfinished, and that have their result. */
  function Accounted<R>(p: Pool<R>): nat {
    RunningCount(p.workers) + CrashedCount(p.workers) + FilledCount(p.results)
  }

  lemma StepAccounts<R>(p: Pool<R>, step: Step, execute: nat -> R)
    requires Invariant(p, execute) && Enabled(p, step)
    ensures Accounted(Apply(p, step, execute)) - |Apply(p, step, execute).started| == Accounted(p) - |p.started|
  {
    var w := step.worker;
    CountsUpdate(p.workers, w, Apply(p, step, execute).workers[w]);
    if step.Finish? {
      FilledUpdate(p.results, p.workers[w].index, execute(p.workers[w].index));
    }
  }

  lemma {:induction false} RunAccounts<R>(p: Pool<R>, schedule: seq<Step>, execute: nat -> R)
    requires Invariant(p, execute) && Legal(p, schedule, execute) && Accounted(p) == |p.started|
    ensures Accounted(After(p, schedule, execute)) == |After(p, schedule, execute).started|
    decreases |schedule|
  {
    if schedule != [] {
      StepKeeps(p, schedule[0], execute);
      StepAccounts(p, schedule[0], execute);
      RunAccounts(Apply(p, schedule[0], execute), schedule[1..], execute);
    }
  }

  lemma {:induction false} NothingFilled<R>(n: nat)
    ensures FilledCount(seq<Option<R>>(n, _ => None)) == 0
  {
    if n > 0 {
      assert seq<Option<R>>(n, _ => None)[..n - 1] == seq<Option<R>>(n - 1, _ => None);
      NothingFilled<R>(n - 1);
    }
  }

  lemma {:induction false} NothingRuns(n: nat)
    ensures RunningCount(seq(n, _ => Idle)) == 0 && CrashedCount(seq(n, _ => Idle)) == 0
  {
    if n > 0 {
      assert seq(n, _ => Idle)[..n - 1] == seq(n - 1, _ => Idle);
      NothingRuns(n - 1);
    }
  }

  function Weight(w: Worker): nat {
    match w
    case Running(_) => 2
    case Idle => 1
    case _ => 0
  }

  function Weights(workers: seq<Worker>): nat {
    if workers == [] then 0 else Weights(workers[..|workers| - 1]) + Weight(workers[|workers| - 1])
  }

  lemma {:induction false} WeightsUpdate(workers: seq<Worker>, i: nat, w: Worker)
    requires i < |workers|
    ensures Weights(workers[i := w]) == Weights(workers) - Weight(workers[i]) + Weight(w)
  {
    var n := |workers| - 1;
    if i == n {
      assert workers[i := w][..n] == workers[..n];
    } else {
      assert workers[i := w][..n] == workers[..n][i := w];
      WeightsUpdate(workers[..n], i, w);
    }
  }

  /** The steps still to come. */
  function Rank<R>(p: Pool<R>): int {
    2 * (p.cells - p.nextIndex) + Weights(p.workers)
  }

  lemma RankDrops<R>(p: Pool<R>, step: Step, execute: nat -> R)
    requires Enabled(p, step)
    ensures Rank(Apply(p, step, execute)) == Rank(p) - if step.Crash? then 2 else 1
  {
    var w := step.worker;
    WeightsUpdate(p.workers, w, Apply(p, step, execute).workers[w]);
  }

  lemma {:induction false} RankAfter<R>(p: Pool<R>, schedule: seq<Step>, execute: nat -> R)
    requires Legal(p, schedule, execute)
    ensures Rank(After(p, schedule, execute)) <= Rank(p) - |schedule|
    ensures NoCrash(schedule) ==> Rank(After(p, schedule, execute)) == Rank(p) - |schedule|
    decreases |schedule|
  {
    if schedule != [] {
      RankDrops(p, schedule[0], execute);
      RankAfter(Apply(p, schedule[0], execute), schedule[1..], execute);
    }
  }

  lemma {:induction false} IdleWeights(n: nat)
    ensures Weights(seq(n, _ => Idle)) == n
  {
    if n > 0 {
      var workers := seq(n, _ => Idle);
      assert workers[..n - 1] == seq(n - 1, _ => Idle);
      IdleWeights(n - 1);
    }
  }

  predicate Done<R>(p: Pool<R>) {
    forall w :: 0 <= w < |p.workers| ==> p.workers[w] == Exited || p.workers[w] == Crashed
  }

  lemma {:induction false} DoneWeights(workers: seq<Worker>)
    requires forall w :: 0 <= w < |workers| ==> workers[w] == Exited || workers[w] == Crashed
    ensures Weights(workers) == 0
  {
    if workers != [] {
      DoneWeights(workers[..|workers| - 1]);
    }
  }

  // ----- the theorems

  lemma StartsSound<R>(cells: nat, workers: nat, execute: nat -> R)
    ensures Invariant(Start<R>(cells, workers), execute) && NothingLost(Start<R>(cells, workers))
    ensures Rank(Start<R>(cells, workers)) == 2 * cells + workers
  {
    IdleWeights(workers);
  }

  /** What a pool of `n` workers keeps within bounds. */
  predicate Bounded<R>(p: Pool<R>, n: nat, cells: nat) {
    && RunningCount(p.workers) <= |p.workers| == n && Distinct(p.started)
    && (forall k :: 0 <= k < |p.started| ==> p.started[k] < cells)
    && (forall v, w :: 0 <= v < w < |p.workers| && p.workers[v].Running? ==> p.workers[v] != p.workers[w])
  }

  lemma RunBounded<R>(cells: nat, workers: nat, schedule: seq<Step>, execute: nat -> R)
    requires Legal(Start<R>(cells, workers), schedule, execute)
    ensures Bounded(After(Start<R>(cells, workers), schedule, execute), workers, cells)
  {
    StartsSound(cells, workers, execute);
    RunKeeps(Start<R>(cells, workers), schedule, execute);
    RunningAtMost(After(Start<R>(cells, workers), schedule, execute).workers);
  }

  /**
   * At every moment of every schedule at most min(concurrency, n) cells are in flight, and no cell is started twice.
   */
  lemma BoundedAndOnce<R>(concurrency: Option<int>, cells: nat, schedule: seq<Step>, execute: nat -> R)
    requires Legal(Start<R>(cells, WorkerCount(concurrency, cells)), schedule, execute)
    ensures
      Bounded(After(Start<R>(cells, WorkerCount(concurrency, cells)), schedule, execute),
              Min(cells, if concurrency.Some? then Max(1, concurrency.value) else 4), cells)
  {
    RunBounded(cells, WorkerCount(concurrency, cells), schedule, execute);
  }

  /**
   * At every moment of every schedule each started cell is in flight, has its result, or was left by a crashed worker.
   */
  lemma StartedAccounted<R>(concurrency: Option<int>, cells: nat, schedule: seq<Step>, execute: nat -> R)
    requires Legal(Start<R>(cells, WorkerCount(concurrency, cells)), schedule, execute)
    ensures
      var p := After(Start<R>(cells, WorkerCount(concurrency, cells)), schedule, execute);
      |p.started| == RunningCount(p.workers) + CrashedCount(p.workers) + FilledCount(p.results)
  {
    StartsSound(cells, WorkerCount(concurrency, cells), execute);
    NothingFilled<R>(cells);
    NothingRuns(WorkerCount(concurrency, cells));
    RunAccounts(Start<R>(cells, WorkerCount(concurrency, cells)), schedule, execute);
  }

  /** Every cell was started once, in order, and slot i holds cell i's result. */
  ghost predicate Complete<R>(p: Pool<R>, execute: nat -> R) {
    p.started == seq(p.cells, i => i) && p.results == seq(p.cells, (i: nat) => Some(execute(i)))
  }

  lemma AllClaimed<R>(p: Pool<R>, execute: nat -> R)
    requires Invariant(p, execute) && Done(p) && Crashed !in p.workers && (p.cells > 0 ==> |p.workers| > 0)
    ensures p.nextIndex == p.cells
  {
    if p.cells > 0 {
      assert p.workers[0] in p.workers && p.workers[0] == Exited;
    }
  }

  lemma CompletePool<R>(p: Pool<R>, execute: nat -> R)
    requires Invariant(p, execute) && NothingLost(p) && Done(p) && Crashed !in p.workers
    requires (p.cells > 0 ==> |p.workers| > 0)
    ensures p.nextIndex == p.cells && Complete(p, execute)
  {
    AllClaimed(p, execute);
    forall i: nat | i < p.cells ensures p.results[i] == Some(execute(i)) {
      assert !InFlight(p, i);
    }
  }

  /**
   * When the workers of a crash-free schedule have all exited, the pool is complete, after exactly 2n + W steps: no
   * interleaving matters.
   */
  lemma EveryCellExecuted<R>(concurrency: Option<int>, cells: nat, schedule: seq<Step>, execute: nat -> R)
    requires Legal(Start<R>(cells, WorkerCount(concurrency, cells)), schedule, execute)
    requires NoCrash(schedule) && Done(After(Start<R>(cells, WorkerCount(concurrency, cells)), schedule, execute))
    ensures Complete(After(Start<R>(cells, WorkerCount(concurrency, cells)), schedule, execute), execute)
    ensures After(Start<R>(cells, WorkerCount(concurrency, cells)), schedule, execute).cells == cells
    ensures |schedule| == 2 * cells + WorkerCount(concurrency, cells)
  {
    StartsSound(cells, WorkerCount(concurrency, cells), execute);
    CompleteFrom(Start<R>(cells, WorkerCount(concurrency, cells)), schedule, execute);
  }

  lemma CompleteFrom<R>(start: Pool<R>, schedule: seq<Step>, execute: nat -> R)
    requires Invariant(start, execute) && NothingLost(start) && Crashed !in start.workers
    requires (start.cells > 0 ==> |start.workers| > 0)
    requires Legal(start, schedule, execute) && NoCrash(schedule) && Done(After(start, schedule, execute))
    ensures Complete(After(start, schedule, execute), execute) && After(start, schedule, execute).cells == start.cells
    ensures |schedule| == Rank(start)
  {
    RunKeeps(start, schedule, execute);
    NoCrashNoneCrashed(start, schedule, execute);
    RankAfter(start, schedule, execute);
    var p := After(start, schedule, execute);
    DoneWeights(p.workers);
    CompletePool(p, execute);
  }

  lemma {:induction false} NoCrashNoneCrashed<R>(p: Pool<R>, schedule: seq<Step>, execute: nat -> R)
    requires Legal(p, schedule, execute) && NoCrash(schedule) && Crashed !in p.workers
    ensures Crashed !in After(p, schedule, execute).workers
    decreases |schedule|
  {
    if schedule != [] {
      NoCrashNoneCrashed(Apply(p, schedule[0], execute), schedule[1..], execute);
    }
  }

  /** No schedule is longer than two steps a cell and one a worker: every run terminates. */
  lemma SchedulesEnd<R>(cells: nat, workers: nat, schedule: seq<Step>, execute: nat -> R)
    requires Legal(Start<R>(cells, workers), schedule, execute)
    ensures |schedule| <= 2 * cells + workers
  {
    StartsSound(cells, workers, execute);
    RunKeeps(Start<R>(cells, workers), schedule, execute);
    RankAfter(Start<R>(cells, workers), schedule, execute);
  }

  /** The pool never gets stuck: while some worker has not stopped, a step is enabled. */
  lemma NeverStuck<R>(p: Pool<R>, execute: nat -> R)
    requires Invariant(p, execute)
    ensures Done(p) <==> forall step :: !Enabled(p, step)
  {
    if !Done(p) {
      var w :| 0 <= w < |p.workers| && p.workers[w] != Exited && p.workers[w] != Crashed;
      assert Enabled(p, if p.workers[w].Running? then Finish(w) else if p.nextIndex < p.cells then Claim(w)
                     else Exit(w));
    }
  }

  // ----- the shared variables

  /** `nextIndex` and `results`, written by every worker between two `await`s. */
  class SharedState<R> {
    const cells: nat
    var nextIndex: nat
    const results: array<Option<R>>
    var workers: seq<Worker>
    ghost var started: seq<nat>

    ghost function View(): Pool<R>
      reads this, results
    {
      Pool(cells, nextIndex, workers, results[..], started)
    }

    constructor (cells: nat, concurrency: Option<int>)
      ensures View() == Start(cells, WorkerCount(concurrency, cells)) && fresh(results)
    {
      this.cells := cells;
      nextIndex := 0;
      var slots := new Option<R>[cells](_ => None);
      results := slots;
      workers := seq(WorkerCount(concurrency, cells), _ => Idle);
      started := [];
      new;
      assert results[..] == seq(cells, _ => None);
    }

    /** `while (nextIndex < n) { const index = nextIndex++; ... }`: one turn of the loop head. */
    method ClaimOrExit(w: nat, ghost execute: nat -> R) returns (index: Option<nat>)
      requires w < |workers| && workers[w] == Idle
      modifies this
      ensures index == if old(nextIndex) < cells then Some(old(nextIndex)) else None
      ensures View() == Apply(old(View()), if index.Some? then Claim(w) else Exit(w), execute)
    {
      if nextIndex < cells {
        index := Some(nextIndex);
        started := started + [nextIndex];
        workers := workers[w := Running(nextIndex)];
        nextIndex := nextIndex + 1;
      } else {
        index := None;
        workers := workers[w := Exited];
      }
    }

    /** `results[index] = await executeCell(...)`: what happens when the execution returns. */
    method Store(w: nat, result: R, ghost execute: nat -> R)
      requires w < |workers| && workers[w].Running? && workers[w].index < results.Length
      requires result == execute(workers[w].index)
      modifies this`workers, results
      ensures View() == Apply(old(View()), Finish(w), execute)
    {
      results[workers[w].index] := Some(result);
      workers := workers[w := Idle];
    }
  }
}
