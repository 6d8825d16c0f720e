# Verified model of the skill-benchmark core

This project models, in Dafny, the plain-data algorithms and state machines at the heart of the skill benchmarks, and
proves what they are for. `dafny verify dfyconfig.toml` checks all of it.

**Conventions.** JavaScript numbers are exact: `int` and `real`, or `Num` (finite, infinite, NaN) where the code tests
finiteness. `Math.round(x)` is `floor(x + 0.5)`. Time is an argument of every operation that reads a clock. JSON
written and read back is the value itself. Digests, the unified diff parser and `localeCompare` are parameters (an
arbitrary function, an arbitrary function, an arbitrary total order). A thrown error is an `Option` or an outcome
value. Objects whose methods update their fields are classes; loops over local variables are methods with invariants;
both are proved equal to a function of the inputs or of the old state, and the theorems are about that function.

**The components.**

- *Tournament planner* (`CircleMethod`, `RoundRobin`, `RoundRobinTheorems`, `PlanValidation`, `TournamentPlan`,
  `TournamentAgreement`, `TournamentCuts`, `TournamentServing`, `TournamentContents`): the rotation array in closed
  form, exactly-once meetings and byes, and when the validator accepts what the planner produces. Two names are
  special: a model called `__BYE__` takes the byes of the sentinel, and a "/" in a name can make pair keys collide;
  the exact conditions are proved.
- *Benchmark authority chain* (`Scoring`, `Evidence`, `ScoreTheorems`, `EvidenceTheorems`, `BenchmarkAuthority`,
  `AuthorityTheorems`, `RunRecords`, `RecordContents`, `RunStore`): check results, summary, composite, contract,
  verdict, row and record again, each stage re-validating the one before. One pass of classification need not be a
  fixed point (a demoted outcome gives other reasons than the evaluated one); two passes always reach one, and the
  exact condition for one pass is proved.
- *Query compiler* (`RunQuery`, `QueryStore`, `QueryResults`): a filter as clauses with positional bindings, evaluated
  with SQL's three-valued logic, against the in-memory filter.
- *Budget controller* (`BudgetModel`, `BudgetController`, `BudgetRuns`, `BudgetLog`, `BudgetAdmission`,
  `BudgetBreaker`, `BudgetReports`, `TokenBudget`): profiles and rate buckets as objects, their transitions as
  functions, and theorems over all runs at nondecreasing times. A negative maximum lets a ceiling leave its range,
  negative allowances let usage pass the limit, and concurrent requests can overrun a budget: exact conditions and a
  counterexample are proved.
- *Matrix runner* (`MatrixCells`, `WorkerPool`): the cell numbering, and every interleaving of the workers' atomic
  steps. A callback that throws rejects its worker; the model keeps that case.
- *Pareto optimizer* (`Pareto`, `OptimizerEngine`, `OptimizerTheorems`), *context pruning* (`ContextPruning`,
  `ContextManager`). Pruning can cut a tool result off from a request in an earlier block; when it cannot is proved
  exactly.
- *Replay* (`ReplayEvents`, `ReplayProjector`, `ReplayPayloads`, `ReplayContents`, `ReplayIdentity`,
  `ReplaySessions`): the accepted event traces, the projected session, and export followed by import. The artifact
  parser accepts blank eligibility reasons which the importer refuses, and the importer accepts canonical sessions
  with missing provenance that no artifacts produce.
- *Scenario runner* (`RunnerModel`, `RunnerTraces`, `RunnerCosts`, `RunnerPayloads`, `RunnerEngine`): the turn loop as
  a step machine over everything its environment can do, its traces, and the meaning of its result. A completion
  callback that throws behind `turn:finish` closes that turn a second time; a final answer without text in the last
  turn counts as `max_turns`.
- *Reports* (`Aggregation`, `ReportStatistics`, `StatisticsTheorems`, `Leaderboard`, `LeaderboardTheorems`,
  `LeaderboardContents`, `CategoryLeaderboards`, `ReportSnapshot`, `SnapshotContents`): grouping, ranking, counting
  and their self-checks. `Base`, `Numbers`, `Keys`, `Sorting` and `AuthorityTypes` are shared vocabulary.

## Model

| member | source | states |
|---|---|---|
| `CircleMethod.SeatPosition` | src/runner/tournament-planner.ts:272-287 | the participants sit in the rotation in a bijection with the seats, in every round |
| `CircleMethod.MeetExactlyOnce` | src/runner/tournament-planner.ts:277-287 | two participants of an even roster of m sit opposite each other in exactly one of the m-1 rounds (2 is invertible modulo the odd m-1) |
| `CircleMethod.RotationClosedForm` | src/runner/tournament-planner.ts:297-300 | the in-place rotation after r rounds, step by step, is the closed form that keeps the first element and cycles the others by r |
| `Keys.NumberKeyInjective` | src/runner/tournament-planner.ts:132-179 | the `round/text` keys of the validator never collide, whatever the text |
| `Keys.PairKeyInjective` | src/runner/tournament-planner.ts:132-179 | the sorted pair keys of the validator identify the unordered pair when no name holds a "/" |
| `RoundRobin.PlayRound` | src/runner/tournament-planner.ts:277-296 | one round pushes the pairings of its tables and a bye where a table holds the sentinel, tables read from both ends of the rotation |
| `RoundRobin.Splice` | src/runner/tournament-planner.ts:297-300 | the splice keeps the first element and moves the last one behind it |
| `RoundRobin.CreateRoundRobinSchedule` | src/runner/tournament-planner.ts:264-303 | the loop over one array rotated in place yields the round-by-round tables of the closed form, byes included |
| `RoundRobin.RotateThrough` | src/runner/tournament-planner.ts:274-302 | the same from any even roster: the mutated array is the closed-form rotation at the head of each round |
| `RoundRobin.PairingsPlaced` | src/runner/tournament-planner.ts:279-296 | each pairing is that of its own round and table, and they come in round and table order |
| `RoundRobin.PairingsComplete` | src/runner/tournament-planner.ts:279-296 | no table without a bye is left out |
| `RoundRobinTheorems.PairsMeet` | src/runner/tournament-planner.ts:264-303 | for any number of rounds two named models meet at most once, and exactly when the round in which they sit opposite is played |
| `RoundRobinTheorems.EveryPairMeetsExactlyOnce` | src/runner/tournament-planner.ts:264-303 | over the full schedule every unordered pair meets exactly once if and only if no model is named like the bye sentinel |
| `RoundRobinTheorems.EveryModelServedOnce` | src/runner/tournament-planner.ts:279-296 | in every planned round each model has exactly one match or exactly one bye, never both, when no model is named like the sentinel |
| `RoundRobinTheorems.OneByeEach` | src/runner/tournament-planner.ts:288-290 | over the full schedule an odd field gives each model exactly one bye and an even field gives none, when no model is named like the sentinel |
| `TournamentServing.ServesEveryoneExactly` | src/runner/tournament-planner.ts:264-303 | a plan of any number of rounds serves every model once in every round exactly when no model is named like the sentinel, or its namesake opens an odd field of a one-round plan |
| `TournamentServing.ByesSharedExactly` | src/runner/tournament-planner.ts:264-303 | the full schedule shares its byes that way exactly when no model is named like the sentinel |
| `PlanValidation.ReadPairings` | src/runner/tournament-planner.ts:132-166 | the loop over the pairings, with its sets and its map, accepts exactly the pairwise consistent lists: rounds, match keys, pair keys, one match per model and round, one provider per model |
| `PlanValidation.ReadByes` | src/runner/tournament-planner.ts:166-179 | the loop over the byes accepts exactly those that fit: no second bye in a round, none in an unplanned round, none for a model that plays |
| `PlanValidation.ValidatePlanSchedule` | src/runner/tournament-planner.ts:132-179 | the validator accepts exactly the pairwise consistent schedules |
| `TournamentPlan.CreateSwissOpeningSchedule` | src/runner/tournament-planner.ts:305-334 | neighbours meet in round 1, an odd field sends its last model on a bye, later rounds are listed as unplanned |
| `TournamentPlan.CreateTournamentPlan` | src/runner/tournament-planner.ts:11-41 | the produced plan, or the error on illegal input, round numbers and match limits |
| `TournamentPlan.NormalizeTournamentPlan` | src/runner/tournament-planner.ts:43-130 | a plan is returned unchanged exactly when it is accepted, otherwise it is refused |
| `TournamentCuts.PlannedPairsMeet` | src/runner/tournament-planner.ts:264-334 | for any mode, rounds and match limit two models have a match in the plan exactly when the input puts them there: their meeting round is played and their table comes before the limit, or they are Swiss neighbours before the limit |
| `TournamentCuts.AcceptedExactly` | src/runner/tournament-planner.ts:11-179 | for any mode, legal rounds and match limit the plan is accepted exactly when its byes fit the field and no two pairs of models that the input lets meet share a key: a test on the input alone |
| `TournamentAgreement.NoSeparatorAccepted` | src/runner/tournament-planner.ts:43-179 | when no model name holds a "/", every produced plan whose byes fit is accepted |
| `TournamentAgreement.WholeRoundRobinAccepted` | src/runner/tournament-planner.ts:43-179 | the uncut round-robin plan is accepted exactly when no two pairs of models share a pair key |
| `TournamentAgreement.SeparatorCollision` | src/runner/tournament-planner.ts:132-166 | names `a`, `b/c`, `a/b`, `c` in one field make the planner produce a plan its own validator refuses |
| `TournamentAgreement.SwissServesOnce` | src/runner/tournament-planner.ts:313-328 | round 1 of a Swiss plan serves every model exactly once |
| `TournamentContents.PlanContents` | src/runner/tournament-planner.ts:264-334 | every match of a produced plan is in a planned round, plays for the plan's skill between the providers of its two named models, and plays the scenario of its round: the scenarios in turn in a round-robin, the first one in a Swiss plan |
| `TournamentContents.ScenariosPlayedExactly` | src/runner/tournament-planner.ts:277-296 | a round-robin plan without a match limit plays scenario k exactly when it has more than k rounds, so with enough rounds every scenario |
| `TournamentContents.PlanRepeatsInput` | src/runner/tournament-planner.ts:11-41 | the plan repeats mode, names in order and scenarios of its input, its capacity is half the field, asked-for rounds are the planned ones and the match limit holds |
| `TournamentContents.CeilLog2IsLeast` | src/runner/tournament-planner.ts:181-185 | the default number of Swiss rounds uses the least exponent whose power of two reaches the field |
| `TournamentContents.PlannedExactly` | src/runner/tournament-planner.ts:11-41 | a plan is made exactly for two or more different named models, different named scenarios, a skill, a match limit of at least one if any, and between one and as many rounds as the mode has |
| `TournamentContents.AcceptedShape` | src/runner/tournament-planner.ts:87-113 | a well-formed plan has the accepted shape exactly when it has matches, leaves no round open in a round-robin and all but the first in a Swiss plan, and has one bye a planned round of an odd field |
| `TournamentContents.AcceptedMatches` | src/runner/tournament-planner.ts:132-166 | whoever made it, an accepted plan has no match beyond the tables of its round, no match number twice in a round, no model twice in a round, no pair twice, one provider a model and one skill |
| `TournamentContents.AcceptedByes` | src/runner/tournament-planner.ts:166-179 | an accepted plan gives no second bye in a round, and none to a model that plays there |
| `Scoring.ValidateDeclarations` | src/eval/deterministic.ts:71-86 | the loop over the declared checks finds a fault exactly when an identifier is blank or repeated or a weight is not a positive finite number |
| `Scoring.ValidateEvaluatedSummary` | src/eval/scoring.ts:151-196 | the loop with its two accumulators and its identifier set returns the reason that the declarative re-check names |
| `Scoring.ExecutedSummaryStands` | src/eval/deterministic.ts:13-61 | every summary that the check executor calls evaluated passes the independent re-validation of scoring |
| `ScoreTheorems.DeterministicScoreIs` | src/eval/deterministic.ts:13-61 | the score of an evaluated summary is, to two decimals, the x with x * (declared weight) = 100 * (weight scored) |
| `ScoreTheorems.DeterministicCounts` | src/eval/deterministic.ts:13-61 | an evaluated summary counts its checks and those that passed, and passes exactly when every check did |
| `EvidenceTheorems.ExecutedExactly` | src/eval/deterministic.ts:13-111 | checks are scored exactly when there are some, well declared, and every supplied score is in [0,1]; otherwise the summary says which of the three failed |
| `EvidenceTheorems.StandsExactly` | src/eval/scoring.ts:151-196 | a summary stands its re-check exactly when executing the checks it records, with their recorded scores, gives the summary itself |
| `EvidenceTheorems.TamperedNamed` | src/eval/scoring.ts:151-196 | a standing summary with its flag, its count, its score or its digest changed is refused with the reason for that field |
| `EvidenceTheorems.VerdictExactly` | src/eval/scoring.ts:42-150 | a composite is evaluated exactly on a standing summary, under finite weights that are not negative and not both zero, a threshold and a judge score in [0,100]; otherwise it repeats why there is no summary, or is invalid |
| `EvidenceTheorems.InvalidCompositeNamed` | src/eval/scoring.ts:121-149 | an invalid composite names the fault of its weights, else of its threshold, else of its summary, else of the judge score |
| `Evidence.WeightedMeanInRange` | src/eval/scoring.ts:198-211 | the weighted mean of two scores in [0,100] stays in [0,100] |
| `Evidence.EvaluatedCompositeValid` | src/eval/evidence-contract.ts:188-218 | every composite that the evaluator calls evaluated satisfies the independent re-check of the evidence contract, which writes the weighted formula out again, rounding included |
| `ScoreTheorems.CompositeScoreIs` | src/eval/scoring.ts:198-211 | the composite score of a judged verdict is, to two decimals, the x with x * (sum of the weights) = deterministic score * its weight + judge score * its weight |
| `ScoreTheorems.OneScoreOnly` | src/eval/scoring.ts:198-211 | a semantic weight of zero leaves the deterministic score, a deterministic weight of zero the rounded judge score |
| `ScoreTheorems.UnjudgedScore` | src/eval/scoring.ts:198-211 | without a judge the composite score is the deterministic one |
| `ScoreTheorems.CompositeMonotone` | src/eval/scoring.ts:198-211 | under one configuration no lower scores give no lower composite score |
| `ScoreTheorems.CompositePasses` | src/eval/scoring.ts:35-99 | an evaluated composite passes exactly when it reaches the threshold and, where the configuration asks for it, all checks passed |
| `Evidence.EvidenceGateExact` | src/eval/evidence-contract.ts:35-127 | for a live, genuine, successful run with acceptable cost, classification over the contract is eligible exactly when the contract is evaluated, with the composite's score and pass flag |
| `EvidenceTheorems.ContractExactly` | src/eval/evidence-contract.ts:35-127 | the contract is evaluated exactly when both parts are, they belong to one valid identity, the composite passes its re-check, nothing is missing and the presented digest is that of the bundle; it then repeats the composite's verdict |
| `EvidenceTheorems.ContractRefuses` | src/eval/evidence-contract.ts:73-103 | an invalid part makes the contract invalid, a missing one leaves it unevaluated, each with the reasons of the composite before those of the summary |
| `Evidence.PipelineReachesEligibility` | src/eval/evidence-contract.ts:35-186 | scored checks, their composite and their bundle pass every re-check on the way to an eligible verdict |
| `BenchmarkAuthority.OneLifecycleReason` | src/shared/benchmark-authority.ts:177-190 | a lifecycle reason is in the list exactly when it happened and nothing graver did: at most one is ever given |
| `BenchmarkAuthority.LifecycleReasonUnlessSuccessful` | src/shared/benchmark-authority.ts:177-190 | a run is given a lifecycle reason exactly when it did not complete successfully |
| `BenchmarkAuthority.AddCountReasons` | src/shared/benchmark-authority.ts:197-209 | adds exactly the reasons that outcome status and check counts give |
| `BenchmarkAuthority.AddProvenanceReasons` | src/shared/benchmark-authority.ts:210-223 | adds exactly the reasons that integrity, evaluator, digest and identity give |
| `BenchmarkAuthority.AddScoreReasons` | src/shared/benchmark-authority.ts:224-243 | adds exactly the reasons that an evaluated score gives |
| `BenchmarkAuthority.AddCostReasons` | src/shared/benchmark-authority.ts:152-163 | adds the cost reason exactly when the cost contradicts itself or the execution |
| `BenchmarkAuthority.CollectReasons` | src/shared/benchmark-authority.ts:145-175 | the set filled test by test holds exactly the reasons that hold, in the fixed order |
| `BenchmarkAuthority.SortReasonsFixed` | src/shared/benchmark-authority.ts:18-23 | a sorted reason list sorts to itself |
| `BenchmarkAuthority.EligibleExactly` | src/shared/benchmark-authority.ts:25-60 | eligibility is granted exactly to inputs that deserve it; the second and third test of the code refuse nothing more |
| `AuthorityTheorems.EligibleMeans` | src/shared/benchmark-authority.ts:25-48 | a run is eligible exactly when it is live, genuine and successful, its evidence complete, verified, identified and fully executed, its evaluation in range and its pass flag the one that follows, and its cost sound; the verdict then repeats evidence, evaluation, score, flag and verified cost |
| `AuthorityTheorems.RefusalNames` | src/shared/benchmark-authority.ts:145-243 | each reason of a verdict is given exactly for its own fault among mode, outcome, counts, artifacts, origin, identity, score and pass flag, and the reasons come in the fixed order |
| `AuthorityTheorems.RefusalKeeps` | src/shared/benchmark-authority.ts:49-62 | a refused verdict has no score, a simulated zero cost for a rehearsal and an unverified one otherwise, its evidence as it is or with counts cut down and called invalid, and an evaluation called invalid |
| `BenchmarkAuthority.RefusedCohort` | src/shared/benchmark-authority.ts:25-60 | a refused run is in the validation cohort exactly when it was fake, simulated or dry and completed successfully, and in the operational cohort otherwise |
| `BenchmarkAuthority.ClassificationConsistent` | src/shared/benchmark-authority.ts:74-143 | the classification of any input passes the consistency check, and a refusal always names reasons |
| `BenchmarkAuthority.NormalizedEvidenceValid` | src/shared/benchmark-authority.ts:256-279 | normalized evidence has valid counts, complete evidence stays valid, and normalizing twice is normalizing once |
| `BenchmarkAuthority.EligibleIsFixed` | src/shared/benchmark-authority.ts:25-60 | classifying an eligible verdict again confirms it |
| `BenchmarkAuthority.SecondPassIsFixed` | src/shared/benchmark-authority.ts:25-60 | for every input the second verdict is a fixed point of classification |
| `BenchmarkAuthority.FirstPassFixedExactly` | src/shared/benchmark-authority.ts:25-60 | the first verdict is already fixed exactly when the input deserves eligibility or is settled: a condition over its raw counts, statuses, scores and cost |
| `BenchmarkAuthority.FirstPassCanMiss` | src/shared/benchmark-authority.ts:25-60 | a fake run with a sound evaluation is an input whose first verdict is not a fixed point |
| `RunRecords.SavedRowChecks` | src/reporting/schema.ts:217-245 | a record that passes the gate makes a row that violates no authority CHECK, SQL NULL semantics included |
| `RunRecords.SaveLoadRoundTrip` | src/reporting/query-store.ts:96-176 | loading the row of a gated record restores it, authority exactly, with the documented gaps filled from its manifest |
| `RecordContents.GapsFilled` | src/reporting/run-store.ts:19-117 | a loaded record is the saved one, with skill version, thinking level and thinking budget of its own or else of its manifest, and zero attempts where unknown |
| `RecordContents.ColumnsShow` | src/reporting/run-store.ts:19-117 | the columns of identity, mode, time and measurement show the record |
| `RecordContents.AuthorityColumnsShow` | src/reporting/run-store.ts:19-117 | the columns of authority show the verdict; score, pass flag and actual cost are NULL unless the run is eligible |
| `RecordContents.MeasurementsAre` | src/reporting/schema.ts:205-210 | the constraints on measurements refuse exactly negative numbers and a share above one |
| `RecordContents.ConstraintsMean` | src/reporting/schema.ts:217-245 | whatever wrote it, a row within the constraints is eligible in status and cohort or in neither, shows scores and verified costs only then, and has its check counts in order |
| `RunRecords.LoadedRecordIsStable` | src/reporting/run-store.ts:155-203 | a loaded record passes the gate again and from then on saving and loading changes nothing |
| `RunRecords.TwiceJudgedIsGated` | src/reporting/run-store.ts:155-181 | two passes of classification always produce a record the store accepts |
| `RunStore.LegacyRowLoads` | src/reporting/schema.ts:251-281 | rows carried over by the migration load as diagnostic records of unknown eligibility |
| `RunStore.ReportingStore.SaveRunRecord` | src/reporting/run-store.ts:19-117 | refuses exactly the records that fail the gate, then conflicting identities, then broken measurement constraints, and otherwise inserts exactly one row |
| `RunStore.ReportingStore.GetRunRecord` | src/reporting/query-store.ts:60-65 | whatever was stored is read back without throwing, a saved record as itself |
| `RunQuery.JoinMeans` | src/reporting/run-query.ts:50-83 | appending clauses and bindings side by side keeps placeholders and bindings aligned, and means SQL conjunction |
| `RunQuery.QueryBuilder.AddArrayClause` | src/reporting/run-query.ts:119-132 | appends the membership clause with one placeholder per value, or the constant false for an empty list |
| `RunQuery.QueryBuilder.AddExactClause` | src/reporting/run-query.ts:134-143 | appends an equality with its binding, or nothing when the filter is silent |
| `RunQuery.QueryBuilder.AddComparisonClause` | src/reporting/run-query.ts:145-154 | appends a comparison with its binding |
| `RunQuery.CreatePreparedRunQuery` | src/reporting/run-query.ts:45-97 | the builder's two growing arrays end as the joined clauses and bindings of every filter part, with the tail of the counting or paging form |
| `RunQuery.ArrayMeans` | src/reporting/run-query.ts:119-132 | the membership clause selects a row exactly when the column's value is listed |
| `RunQuery.WhereMeans` | src/reporting/run-query.ts:52-83 | the whole WHERE, its placeholders read left to right from the bindings, is true of a row exactly when the row meets every part of the filter |
| `QueryStore.CompiledFilterAgrees` | src/reporting/run-query.ts:99-117 | where columns and record agree, the compiled query selects the row exactly when the in-memory filter accepts the record |
| `QueryStore.FiltersAgreeExactly` | src/reporting/report-cohorts.ts:116-135 | for rows that meet their constraints and load, the two filters agree on every filter exactly when the status column repeats the status inside the stored evaluation |
| `QueryStore.RelabelledRowDisagrees` | src/reporting/report-cohorts.ts:116-135 | a row that meets every constraint and loads, and that the database selects though the in-memory filter rejects its record |
| `QueryStore.WrittenColumnsAgree` | src/reporting/run-store.ts:19-117 | rows written by a save or by the migration agree with the record they load to |
| `QueryResults.PreparedAligned` | src/reporting/run-query.ts:83-97 | in the counting form and in every LIMIT/OFFSET form the number of placeholders is the number of bindings, each read by its own part |
| `QueryResults.QueryExact` | src/reporting/query-store.ts:67-86 | over saved and migrated rows a query returns exactly the requested page of the matching records in order, never throws, and the count is the number of matches |
| `QueryResults.QueryInOrder` | src/reporting/query-store.ts:67-86 | the records of a page come oldest first, by identifier when they started together |
| `QueryResults.PageIsSlice` | src/reporting/run-query.ts:83-97 | a page skips the offset, as far as there are rows, and holds the next `limit` rows or all that are left |
| `QueryResults.QueryComplete` | src/reporting/query-store.ts:67-86 | a query without limit and offset returns each row as often as the table holds it if its record matches, and never otherwise |
| `QueryResults.StoreRowsWritten` | src/reporting/run-store.ts:19-117 | the rows of every reachable store are such rows |
| `BudgetController.InternalProfileState.ResetProfileIfDue` | src/optimizer/budget-state.ts:99-108 | clears the usage exactly when the interval has passed |
| `BudgetController.InternalProfileState.ChargeTokens` | src/optimizer/budget-controller.ts:160-174 | the profile part of a release: reset if due, add tokens and cost, and set the burst counter when over the limit |
| `BudgetController.ProviderRateBucket.PruneRateHistory` | src/optimizer/budget-state.ts:70-73 | keeps exactly the records inside the window, in order |
| `BudgetController.ProviderRateBucket.ComputeRateWindowStats` | src/optimizer/budget-state.ts:75-97 | one pass gives count, tokens, errors, both rates, the average latency and the bounds of the window |
| `BudgetController.ProviderRateBucket.Admit` | src/optimizer/budget-controller.ts:88-115 | the provider part of `canExecute`: prune, try to half-open, then decide by breaker, concurrency, RPM and TPM in that order |
| `BudgetController.ProviderRateBucket.ScaleDownCeiling` | src/optimizer/budget-controller.ts:323-346 | both ceilings lowered, the success streak cleared, the rest unchanged, and the log entry with the ceilings before and after |
| `BudgetController.ProviderRateBucket.ScaleUpCeiling` | src/optimizer/budget-controller.ts:348-376 | both ceilings raised with a log entry, or nothing at all when both are at the top |
| `BudgetController.ProviderRateBucket.GiveBackSlot` | src/optimizer/budget-controller.ts:136-158 | the bucket part of a release: concurrency, history, streaks, breaker and ceiling |
| `BudgetController.BudgetController.RegisterProfile` | src/optimizer/budget-controller.ts:32-41 | replaces the profile kept under its key by a fresh one and leaves every other object |
| `BudgetController.BudgetController.RegisterProviderCeiling` | src/optimizer/budget-controller.ts:43-56 | replaces the bucket kept under its key by a fresh one and leaves every other object |
| `BudgetController.BudgetController.CanExecute` | src/optimizer/budget-controller.ts:62-116 | the whole new state and the decision, in every branch |
| `BudgetController.BudgetController.AcquireSlot` | src/optimizer/budget-controller.ts:118-124 | takes a slot exactly when one is free; unknown providers always succeed |
| `BudgetController.BudgetController.ReleaseSlot` | src/optimizer/budget-controller.ts:126-175 | bucket and profile are updated independently, each only if registered |
| `BudgetController.BudgetController.RecordThrottleEvent` | src/optimizer/budget-controller.ts:177-205 | the event is returned and logged, and a throttle lowers and logs the ceilings of its provider only |
| `BudgetController.BudgetController.GetUsageSnapshot` | src/optimizer/budget-controller.ts:207-233 | resets first, then reports every field of the snapshot of the new state |
| `BudgetController.BudgetController.GetDynamicRateLimitState` | src/optimizer/budget-controller.ts:235-251 | prunes first, then reports ceilings, breaker, streaks and the statistics of the new history |
| `BudgetRuns.WindowRefinesLog` | src/optimizer/budget-state.ts:70-97 | after any operations at nondecreasing times a prune leaves exactly the releases since registration that lie in the window, however often it was pruned before |
| `BudgetRuns.BucketsStaySound` | src/optimizer/budget-controller.ts:118-158 | after every run: ceilings in [min,max] for legal factors and a nonnegative maximum, concurrency in [0,max], streaks never both positive, closed implies fewer than five failures |
| `BudgetRuns.CeilingsExact` | src/optimizer/budget-controller.ts:323-376 | per axis, for min <= max: with legal factors the ceiling stays in [min,max] in every run exactly when max is not negative |
| `BudgetLog.LogReplaysCeilings` | src/optimizer/budget-controller.ts:323-376 | replaying the adjustment entries written since a provider was registered, each continuing the one before, gives its current ceilings |
| `BudgetRuns.ClosedOnlyAfterCooldown` | src/optimizer/budget-controller.ts:90-99 | a breaker tripped at t is found closed later only if a `canExecute` at t + cooldown or later half-opened it in between |
| `BudgetAdmission.AdmittedExactly` | src/optimizer/budget-controller.ts:88-115 | after any run at nondecreasing times, a request within its budget is allowed exactly when the breaker is not open with its reset time ahead, a slot is free, and the logged releases of the window and their tokens leave room; otherwise it is delayed, by an open breaker until its reset time |
| `BudgetAdmission.OpenBreakerStops` | src/optimizer/budget-controller.ts:88-99 | from the release that trips a breaker on, in every run, no request to the provider is allowed before the cooldown is over, and one within its budget is delayed until the reset time |
| `BudgetAdmission.LedgerHolds` | src/optimizer/budget-controller.ts:32-41 | in every run a profile holds exactly the tokens and costs charged to it since its last registration or due reset |
| `BudgetAdmission.BudgetPassedExactly` | src/optimizer/budget-controller.ts:66-87 | a request passes the budget check exactly when its profile is registered and the ledger of the profile has room for the cost and the tokens, burst allowance included; otherwise it is rejected |
| `BudgetBreaker.StreakIsTrailing` | src/optimizer/budget-controller.ts:136-158 | the failure streak is the number of failures at the end of the log |
| `BudgetBreaker.FailureTrips` | src/optimizer/budget-controller.ts:136-158 | a failed release trips the breaker exactly when the log then ends in five or more failures, with the reset time one cooldown ahead |
| `BudgetBreaker.OtherwiseMoves` | src/optimizer/budget-controller.ts:88-158 | no other operation opens a breaker; a success closes a half-open one, a due `canExecute` half-opens an open one |
| `BudgetBreaker.RegisteredFresh` | src/optimizer/budget-controller.ts:43-56 | a registration leaves a closed, idle bucket at its maximal ceilings |
| `BudgetBreaker.SlotsMove` | src/optimizer/budget-controller.ts:118-135 | a slot is taken exactly when one is free and given back by every release, never below zero, and no other operation touches it |
| `BudgetBreaker.ThrottleLowers` | src/optimizer/budget-controller.ts:323-346 | a throttle lowers each ceiling to its floored product with the factor, but not below the minimum |
| `BudgetBreaker.SuccessesCounted` | src/optimizer/budget-controller.ts:136-158 | the success streak counts the successful releases since the last failure, throttle, raise or registration |
| `BudgetBreaker.CeilingsRise` | src/optimizer/budget-controller.ts:348-376 | a release raises the ceilings, each to its rounded-up product with the factor and not above the maximum, exactly when it completes the asked-for streak of successes below the top; nothing else but a throttle or a registration moves them |
| `BudgetReports.WindowShown` | src/optimizer/budget-state.ts:75-97 | after any run at nondecreasing times the window statistics of a provider are the number, tokens and failures of the logged releases in the window, their latency and both rates are told by the same releases, as products |
| `BudgetReports.BucketShown` | src/optimizer/budget-controller.ts:235-251 | the report of a provider shows the trailing failures and the counted successes as streaks, and ceilings, slots and breaker as they are |
| `BudgetReports.UsageShows` | src/optimizer/budget-controller.ts:207-233 | in every run a usage snapshot shows the ledger of its profile; what remains and what is used make up the limit and the spend limit unless overdrawn; ratio and label follow from used tokens, limit and soft cap |
| `BudgetReports.AdjustmentsTold` | src/optimizer/budget-controller.ts:323-376 | the adjustment log gains an entry exactly for a throttle of a known provider and for a twentieth success in a row below the top, with the ceilings before and after, the factor, the time and the reason |
| `BudgetReports.ThrottlesTold` | src/optimizer/budget-controller.ts:177-205 | every throttle is logged as reported, whether or not its provider is known |
| `TokenBudget.BurstCounterExact` | src/optimizer/budget-controller.ts:166-174 | in all runs with nonnegative tokens the burst counter is min(allowance, max(0, total - limit)) exactly when limit and allowance are not negative, or the limit is negative and the allowance zero |
| `TokenBudget.CapacityExact` | src/optimizer/budget-controller.ts:74-87 | sequential releases that stay within an allowed estimate keep the total within limit plus usable allowance in all runs, across resets, exactly when that capacity is not negative and a usable allowance is not either |
| `TokenBudget.ConcurrentOverrun` | src/optimizer/budget-controller.ts:74-87 | for every honourable allocation two requests in flight at once are each allowed the whole capacity and together use twice of it |
| `TokenBudget.UsageLabelMeans` | src/optimizer/budget-controller.ts:207-233 | in every run the label of a snapshot tells the three sides of the limit apart: below it normal or warning, above it bursting or exhausted by the burst allowance |
| `MatrixCells.GenerateMatrixPermutations` | src/runner/matrix-runner.ts:47-77 | the four nested loops put the cell of every coordinate at its mixed-radix number, and no other cell |
| `MatrixCells.AtIndex` | src/runner/matrix-runner.ts:57-74 | decoding a cell number gives back its scenario, model, level and repetition, and numbers stay below the size |
| `MatrixCells.IndexAt` | src/runner/matrix-runner.ts:57-74 | every number below the size is the number of the coordinates it decodes to |
| `MatrixCells.EveryCombination` | src/runner/matrix-runner.ts:47-77 | the generated cells are one for each combination of listed scenario, model, level and repetition, each at its own number and named after them; an empty level list counts as one place without level, less than one repetition as one |
| `WorkerPool.SharedState.ClaimOrExit` | src/runner/matrix-runner.ts:118-123 | one turn of the loop head claims the next cell, or exits, in a single step |
| `WorkerPool.SharedState.Store` | src/runner/matrix-runner.ts:124 | a finished execution writes its own slot only |
| `WorkerPool.BoundedAndOnce` | src/runner/matrix-runner.ts:111-126 | at every moment of every interleaving at most min(max(1, concurrency), n) cells are in flight, four of them by default, and no cell is started twice |
| `WorkerPool.StartedAccounted` | src/runner/matrix-runner.ts:117-128 | at every moment of every interleaving the started cells are those in flight, those with a result and those left by a crashed worker |
| `WorkerPool.EveryCellExecuted` | src/runner/matrix-runner.ts:117-128 | when all workers have exited without a throwing callback each cell was started exactly once, slot i holds the result of cell i, and the schedule had exactly 2n + W steps |
| `WorkerPool.SchedulesEnd` | src/runner/matrix-runner.ts:117-128 | no schedule has more than 2n + W steps, throwing callbacks included |
| `WorkerPool.NeverStuck` | src/runner/matrix-runner.ts:117-128 | some step is enabled exactly as long as a worker has not stopped |
| `Pareto.ValidAre` | src/optimizer/optimizer-engine.ts:210-248 | the filtered list holds exactly the candidates that meet every constraint |
| `Pareto.DominanceStrict` | src/optimizer/optimizer-engine.ts:250-263 | dominance is irreflexive, asymmetric and transitive |
| `Pareto.FrontierCovers` | src/optimizer/optimizer-engine.ts:250-263 | every valid candidate is on the frontier or dominated by one that is |
| `OptimizerEngine.Ranks` | src/optimizer/optimizer-engine.ts:44-50 | the rank map gives each key its last place in the sorted list |
| `OptimizerEngine.CountDominance` | src/optimizer/optimizer-engine.ts:54-61 | the inner loop counts the candidates dominated and dominating, the skip of the candidate itself changing neither |
| `OptimizerEngine.ComputeParetoFrontier` | src/optimizer/optimizer-engine.ts:31-87 | one point per valid candidate in order: optimal exactly when nothing dominates it, with its dominance score, ranks and efficiency |
| `OptimizerEngine.Engine.OptimizeScenario` | src/optimizer/optimizer-engine.ts:89-168 | an error exactly when no candidate is valid; otherwise a report whose recommendation and fallback chain are the optimal points in target order, also appended to the history |
| `OptimizerEngine.RecommendationIsFirst` | src/optimizer/optimizer-engine.ts:100-117 | the recommended point is optimal and comes no later than any other optimal point |
| `OptimizerEngine.RecommendationOptimal` | src/optimizer/optimizer-engine.ts:103-119 | for cost, latency, throughput and quality the recommendation is best among all candidates that meet the constraints |
| `OptimizerTheorems.FrontierHolds` | src/optimizer/optimizer-engine.ts:210-248 | the frontier of a report holds exactly the candidates within the limits |
| `OptimizerTheorems.OptimalMeans` | src/optimizer/optimizer-engine.ts:250-263 | a point is marked optimal exactly when no candidate within the limits is as good in cost, latency, throughput and quality and better in one of them |
| `OptimizerTheorems.BalancedIsMostEfficient` | src/optimizer/optimizer-engine.ts:100-117 | for the balanced target no optimal point is more efficient than the recommended one |
| `OptimizerTheorems.PointRanks` | src/optimizer/optimizer-engine.ts:44-69 | where candidate keys are distinct a cheaper point has the lower cost rank, a faster one the lower latency rank and a better one the lower quality rank |
| `OptimizerTheorems.EfficiencyScoreIs` | src/optimizer/optimizer-engine.ts:66-80 | the efficiency score of a point among n is, to two decimals, the x with x * (cost rank + latency rank + 0.0001 n) = 2 * (n + 1 - quality rank) |
| `OptimizerTheorems.EfficiencyFollowsRanks` | src/optimizer/optimizer-engine.ts:66-80 | no worse ranks give no lower efficiency score |
| `OptimizerEngine.DominanceConserved` | src/optimizer/optimizer-engine.ts:57-80 | the dominance scores of a frontier sum to zero |
| `OptimizerEngine.RanksFindExactly` | src/optimizer/optimizer-engine.ts:44-69 | every rank is the place of its own candidate in the sorted list exactly when candidates with one key are equal |
| `OptimizerEngine.CollidingKeysMisrank` | src/optimizer/optimizer-engine.ts:44-69 | two candidates that share a key by a colon in their identifiers: the cheaper one is first and ranked second |
| `ContextManager.AgentContextManager.Initialize` | src/runner/context-manager.ts:155-157 | the conversation is the system message and the prompt |
| `ContextManager.AgentContextManager.AddToolResult` | src/runner/context-manager.ts:172-180 | appends the result, and keeps an orphan-free history orphan-free when its call was requested |
| `ContextManager.AgentContextManager.GetEstimatedTokenCount` | src/runner/context-manager.ts:92-98 | the loop sums the estimates of all messages |
| `ContextManager.EstimateMessageTokens` | src/runner/context-manager.ts:66-90 | the estimate of a message, its tool calls added one by one |
| `ContextPruning.EstimateBounds` | src/runner/context-manager.ts:56-64 | an estimate is zero for the empty text only, and at most three tokens for eight characters, rounded up |
| `ContextPruning.WordsJoin` | src/runner/context-manager.ts:56-64 | the words on either side of a space add up |
| `ContextPruning.EstimateIs` | src/runner/context-manager.ts:56-64 | a text is estimated at a quarter of its characters and words, rounded up, and blank text at one token |
| `ContextPruning.MessageCosts` | src/runner/context-manager.ts:66-90 | a message costs four tokens more than its text, a tool result six more, and each tool call eight more than its own text |
| `ContextManager.CutBlocks` | src/runner/context-manager.ts:241-257 | the loop cuts everything behind the first two messages at each assistant and user message |
| `ContextManager.ShiftByTurns` | src/runner/context-manager.ts:259-263 | shifts blocks off until the turn limit holds, none too many |
| `ContextManager.ShiftByTokens` | src/runner/context-manager.ts:265-280 | shifts blocks off until the token limit holds or one block is left, none too many |
| `ContextManager.AgentContextManager.PruneHistory` | src/runner/context-manager.ts:228-292 | replaces the conversation by the first two messages and the longest legal suffix of its turn blocks |
| `ContextPruning.BlocksPartition` | src/runner/context-manager.ts:244-257 | the turn blocks put together are the messages |
| `ContextPruning.PruningIsLongest` | src/runner/context-manager.ts:259-280 | a suffix of the blocks is within the limits exactly when it starts no earlier than the one kept, and at least one block is kept |
| `ContextPruning.PruningIdempotent` | src/runner/context-manager.ts:228-292 | pruning twice with the same limits is pruning once |
| `ContextPruning.NeverOrphansExactly` | src/runner/context-manager.ts:228-292 | pruning an orphan-free history leaves no tool result without its request, for all limits, exactly when each tool result of a later block finds its request in its own block or in the first two messages |
| `ContextPruning.PruningOrphans` | src/runner/context-manager.ts:228-292 | an orphan-free history, a user message between a call and its result, that pruning to one turn orphans |
| `ReplayEvents.ValidateCanonicalEvents` | src/replay/event-envelope-validator.ts:22-46 | accepts exactly the canonical traces: one start first, one finish last, one run, numbers from one, strictly increasing timestamps, well-formed payloads |
| `ReplayPayloads.PayloadMeans` | src/replay/event-envelope-validator.ts:69-250 | a payload of any type is well-formed exactly when its amounts are finite and not negative, its counts and exit codes safe integers, its texts not blank, and run, skills, reason and completion flag coherent |
| `ReplayProjector.ElapsedIncreases` | src/replay/event-session-projector.ts:84-105 | elapsed times of a projected session start at zero, strictly increase and stay representable |
| `ReplayContents.FramesShow` | src/replay/event-session-projector.ts:84-200 | frame i of a projected session shows event i: number, timestamps, elapsed time, type, and of a tool or command event its turn, names, arguments, output, error flag, exit code and duration |
| `ReplayContents.MetadataShows` | src/replay/event-session-projector.ts:16-82 | the metadata repeats run, scenario, skills and model of the first event and duration, turns, cost and reason of the last, tells the status by the reason, and counts tool calls, commands and resource samples |
| `ReplayContents.ProjectedExactly` | src/replay/event-session-projector.ts:246-267 | a trace is projected exactly when run, scenario, model, skill, reason, status, turns, and the rounded duration and cost are those the identity expects, and its span is a safe integer |
| `ReplayContents.IdentityShown` | src/replay/event-session-projector.ts:30-72 | the session shows what the identity knows beyond the trace; an origin not given is a direct one |
| `ReplayContents.DiffsShown` | src/replay/event-session-projector.ts:30-33 | the diffs of the session are those parsed from the captured ones, in order |
| `ReplayIdentity.ParsedIdentityCanonical` | src/replay/replay-artifact-identity.ts:14-100 | an identity read from manifest and result carries everything an exported canonical session must show |
| `ReplayIdentity.ArtifactsAccepted` | src/replay/replay-artifact-identity.ts:14-50 | two artifacts give an identity exactly when kinds and versions are right, both name one run throughout, they date themselves by its start and end, and the result has sound numbers and the status of its reason |
| `ReplayIdentity.ParsedShows` | src/replay/replay-artifact-identity.ts:68-100 | the identity repeats the manifest and the outcome of the result, field by field |
| `ReplayIdentity.ExpectationFilters` | src/replay/replay-artifact-identity.ts:39-67 | an expectation never changes the identity: it lets it through exactly when every field that it names is the one read |
| `ReplaySessions.ReadExportedIdentity` | src/replay/event-session-loader.ts:96-151 | the identity filled field by field is the one the exported provenance and metadata carry, or an error |
| `ReplaySessions.ParseReplaySession` | src/replay/event-session-loader.ts:77-94 | accepts a session only after rebuilding it from its events and its shown identity |
| `ReplaySessions.ProjectionShowsOnly` | src/replay/event-session-projector.ts:16-82 | a projection depends only on the events and the shown fields of the identity |
| `ReplaySessions.DirectRoundTrip` | src/replay/event-session-loader.ts:266-288 | a session projected for a direct replay is always read back as itself |
| `ReplaySessions.CanonicalRoundTrip` | src/replay/event-session-loader.ts:77-151 | a session projected for a canonical run is read back as itself if every eligibility reason of its result is nonblank, and refused otherwise |
| `ReplaySessions.AcceptedSessionsExactly` | src/replay/event-session-loader.ts:77-151 | an accepted direct session always is a direct export; an accepted canonical session is an export of some manifest and result exactly when its seven provenance fields are present |
| `ReplaySessions.ForgedSessionAccepted` | src/replay/event-session-loader.ts:77-151 | a canonical session without sweep, cell, plan, cohort and eligibility is accepted although no artifacts project to it |
| `ReplaySessions.BlankReasonRefused` | src/replay/event-session-loader.ts:96-151 | artifacts with one blank eligibility reason that parse and project, and whose session is then refused |
| `RunnerEngine.EventScribe.Emit` | src/infrastructure/telemetry/event-scribe.ts:104-116 | appends one event with the next number |
| `RunnerEngine.DispatchTools` | src/runner/runner-engine.ts:159-192 | the loop over the tool calls emits dispatch and finish events, counts errors, and stops at the first failure |
| `RunnerEngine.ScenarioRun.StopsAtHead` | src/runner/runner-engine.ts:93-106 | cancellation, budget and tool-error checks in that order, with the reason each sets |
| `RunnerEngine.ScenarioRun.TakeAnswer` | src/runner/runner-engine.ts:144-202 | cost, messages, tool calls, the consecutive error counter and the reasons an answer sets |
| `RunnerEngine.ScenarioRun.Catch` | src/runner/runner-engine.ts:230-239 | a rate limit is rethrown after its error event, every other failure is classified and ends the loop |
| `RunnerEngine.ScenarioRun.ExecuteTurn` | src/runner/runner-engine.ts:126-240 | one turn of the loop is the turn of the step machine, whichever way it ends |
| `RunnerEngine.ScenarioRun.RunTurns` | src/runner/runner-engine.ts:92-243 | the loop reaches the state of the step machine, for every behaviour of its environment |
| `RunnerEngine.RunWithinScenario` | src/runner/runner-engine.ts:54-290 | the events and the result of the step machine |
| `RunnerTraces.TurnsClosedExactly` | src/runner/runner-engine.ts:120-243 | for a collector given turn by turn, all runs close each turn by exactly one finish or error, in order, exactly when no turn can start or no completion callback within the turn limit throws |
| `RunnerTraces.TotalTurnsCountedExactly` | src/runner/runner-engine.ts:219-261 | under the same condition, and only then, the reported turns are the finish events in all runs |
| `RunnerTraces.TotalTurnsBounded` | src/runner/runner-engine.ts:92-261 | the reported turns never exceed the limit, and are zero under a negative one |
| `RunnerTraces.ThrowingCallback` | src/runner/runner-engine.ts:219-243 | a run whose first completion callback throws: its turn is closed twice and not counted |
| `RunnerTraces.SuccessExactly` | src/runner/runner-engine.ts:199-253 | a run is a success exactly when its last turn finished without a tool call and left output or turns to spare |
| `RunnerCosts.EveryTurnTold` | src/runner/runner-engine.ts:92-228 | in every run each turn starts with finish costs below the maximum and with as many messages as were exchanged, and each finish shows number, cost, duration and finish reason of its own turn and counts its tool calls and failures |
| `RunnerCosts.ReportedCostIs` | src/runner/runner-engine.ts:144-276 | the reported cost is the sum of the costs of the answered turns, and the sum of the finish costs when every answered turn was finished |
| `RunnerCosts.ReasonExactly` | src/runner/runner-engine.ts:93-290 | `budget_exceeded`, `tool_error_loop`, `max_turns` and the failure reasons of a finished run, each characterised over the events before its finish |
| `RunnerCosts.FailureTold` | src/runner/runner-engine.ts:230-243 | a run is rethrown exactly when its last turn failed on a rate limit; any other failed turn or preflight gives the run the reason and message of its own failure |
| `RunnerTraces.FinishedTraceAccepted` | src/replay/event-envelope-validator.ts:22-46 | the trace of a run that reaches its finish is accepted by the validator exactly when each emitted payload is well-formed |
| `RunnerPayloads.CleanRunOk` | src/replay/event-envelope-validator.ts:86-142 | nonblank names and messages and nonnegative measurements make every payload well-formed |
| `RunnerPayloads.CleanTraceAccepted` | src/runner/runner-engine.ts:92-261 | so every clean run that reaches its finish emits an accepted trace |
| `Aggregation.GroupValues` | src/reporting/aggregator.ts:294-303 | one pass gives each key the values of that key in order, keys in order of first appearance |
| `Aggregation.GroupsCoverExactly` | src/reporting/aggregator.ts:294-303 | the sizes of the groups of distinct keys add up to the input exactly when every key is listed |
| `Leaderboard.ComparatorStrict` | src/reporting/aggregator.ts:245-256 | the comparator is a total preorder and ties only entries of one category and skill |
| `Leaderboard.BuildReportLeaderboard` | src/reporting/aggregator.ts:53-62 | groups, entries, order and ranks of the leaderboard, or the error |
| `Leaderboard.ThrowsExactly` | src/reporting/aggregator.ts:64-70 | the builder throws exactly when two runs share a group key but not category and skill |
| `Leaderboard.NulKeysThrow` | src/reporting/aggregator.ts:53-70 | two runs of different skills that share a key by a NUL in their names: the builder throws |
| `Leaderboard.NulFreeFaithful` | src/reporting/aggregator.ts:56 | categories without NUL rule that out |
| `LeaderboardTheorems.UniqueSortedIs` | src/reporting/aggregator.ts:283-285 | each name once, in order |
| `LeaderboardTheorems.EntryPermutation` | src/reporting/aggregator.ts:64-110 | an entry does not depend on the order of its runs |
| `LeaderboardTheorems.OrderIndependent` | src/reporting/aggregator.ts:53-62 | the leaderboard is the same for every order of the runs |
| `LeaderboardTheorems.LeaderboardCountsRuns` | src/reporting/report-cohorts.ts:106-111 | the entries count every run exactly once |
| `LeaderboardTheorems.RanksStrict` | src/reporting/aggregator.ts:58-61 | ranks run from one and entries of different skills stand best first: by pass rate, then mean score, then number of runs, then category and skill in locale order |
| `LeaderboardContents.BoardReports` | src/reporting/aggregator.ts:64-110 | each entry reports the runs of its own category and skill: their number, the passed ones, the pass rate, the means of score, duration, cost and cache share, and the names of their models and scenarios |
| `LeaderboardContents.BoardComplete` | src/reporting/aggregator.ts:53-62 | every run is reported by an entry of its category and skill |
| `CategoryLeaderboards.CategoryKeepsOrder` | src/reporting/aggregator.ts:112-131 | ranking a category anew keeps the order of the whole leaderboard |
| `CategoryLeaderboards.CategoryRanksStrict` | src/reporting/aggregator.ts:112-131 | a category board ranks the entries of its category from one, best first, and names the skill of the first |
| `CategoryLeaderboards.BoardsInOrder` | src/reporting/aggregator.ts:112-131 | there is one board for each category that an entry has, in locale order |
| `CategoryLeaderboards.BoardHolds` | src/reporting/aggregator.ts:112-131 | on a board stand exactly the entries of its category; it names the skill of the first as the top one, unless it is empty, and totals their runs |
| `CategoryLeaderboards.CategoriesCountRuns` | src/reporting/aggregator.ts:112-131 | the totals of all categories add up to the runs |
| `ReportStatistics.ObservedBounds` | src/reporting/report-statistics.ts:10-33 | mean, median and every sample lie between minimum and maximum |
| `StatisticsTheorems.MeanIs` | src/reporting/report-statistics.ts:10-33 | the mean is the sum of the samples by their number |
| `StatisticsTheorems.VarianceIs` | src/reporting/report-statistics.ts:10-33 | the sample variance is the sum of squares less the square of the sum by the number, over one less than the number |
| `StatisticsTheorems.VarianceZeroExactly` | src/reporting/report-statistics.ts:10-33 | the variance is never negative and zero exactly when all samples are equal |
| `StatisticsTheorems.MedianHalves` | src/reporting/report-statistics.ts:10-33 | the median is midway between two samples, one and the same for an odd number, such that at least half of the samples lie on either side |
| `ReportStatistics.ObservePermutation` | src/reporting/report-statistics.ts:10-33 | the statistics do not depend on the order of the samples |
| `ReportStatistics.NearestRankIsLeast` | src/reporting/report-statistics.ts:57-72 | the percentile is the least observed value that at least that share of the samples does not exceed |
| `ReportSnapshot.CountReasons` | src/reporting/report-cohorts.ts:138-142 | the nested loops count each reason as often as it occurs in all runs |
| `ReportSnapshot.ReasonCountsAre` | src/reporting/report-cohorts.ts:174-177 | the reported reasons are exactly those that occur, each with its number of occurrences |
| `ReportSnapshot.EvidenceThroughIsLatest` | src/reporting/report-cohorts.ts:143-146 | the evidence reaches to the latest completion among the runs, missing only without runs |
| `ReportSnapshot.CountsCoverExactly` | src/reporting/report-cohorts.ts:261-274 | the counts over an enumeration add up to the runs exactly when every run has one of its values |
| `ReportSnapshot.ProvenanceHoldsExactly` | src/reporting/report-cohorts.ts:182-195 | the provenance self-check passes exactly when every run has one of the four lifecycle statuses |
| `ReportSnapshot.ObservationFaithful` | src/reporting/aggregator.ts:258-264 | an eligible, consistent record has a finite score in range and a finite cost, so no sample is invented |
| `SnapshotContents.ProvenanceGrows` | src/reporting/report-cohorts.ts:138-180 | each run adds one to the counts of its own mode, simulation, cohort, eligibility, evaluation, evidence and lifecycle status, and to no other |
| `SnapshotContents.NothingCounted` | src/reporting/report-cohorts.ts:138-180 | without runs every count is zero and no evidence time is given |
| `SnapshotContents.SnapshotShows` | src/reporting/report-cohorts.ts:76-114 | a snapshot repeats its filter, counts all, eligible and remaining runs, and carries the leaderboard of the eligible ones |
| `SnapshotContents.EligibleObserved` | src/reporting/aggregator.ts:258-264 | the leaderboard sees each eligible run at its place among the eligible ones |
| `SnapshotContents.ObservationShows` | src/reporting/aggregator.ts:258-264 | it sees the run under its own category, skill, scenario, model and provider, with its own duration and cache share |
| `ReportSnapshot.SnapshotBuiltExactly` | src/reporting/report-cohorts.ts:76-114 | over consistent runs inside the filter the snapshot is built exactly when group keys are faithful and statuses typed; the leaderboard self-check never throws |
| `ReportSnapshot.SnapshotOrderIndependent` | src/reporting/report-cohorts.ts:76-114 | the leaderboard of a snapshot does not depend on the order in which the runs were read |

## Left out

- OptimizerEngine.RecommendationOptimal: the `balanced` target has no such optimum over all candidates: its efficiency score depends on ranks and is maximal among the optimal points only (OptimizerTheorems.BalancedIsMostEfficient).
- WorkerPool.EveryCellExecuted: an execution is one result per cell; what happens inside a cell is the runner's.
- Floating-point rounding error: all arithmetic is over exact integers and reals.
- Token counts, limits and durations of the budget controller are whole numbers; one operation reads the clock once.
- Pricing and mitigation telemetry of the budget controller: derived, read by nothing else. The identifier of a throttle event is a parameter.
- Strings are sequences of characters, not of UTF-16 units; a default sort compares characters.
- The guards on `typeof`, on prototypes and on unknown keys: fixed by the datatypes.
- Normalization of report and query filters (trimming, sorting, `Date.parse`): filters are taken as normalized.
- SQLite itself, transactions, telemetry rows and the artifact commit: a row is a value, CHECKs are predicates with SQL's treatment of NULL, WHERE is a small clause language.
- Sanitization of stored text and of emitted payloads: taken as already applied.
- Check execution (processes, files, patterns) and the semantic judge: their outcomes are parameters.
- Summary texts of replay frames, the unified diff parser and the key order of JSON.
- The prompt template and the skill registry of the context manager: the system message is a parameter.
- Cancellation timers and signals: an abort or a timeout is one of the environment's choices in the runner; token usage totals are not carried.
- Buffering and flushing of the event scribe, and its command events.
- Square roots (standard deviation, Wilson interval): the variance is modelled, the interval is not.
- Trends, cost efficiency and token velocity of the report: the same grouping with other keys.
- The run summary of a matrix (counts and sums over the results).
- Provider adapters, HTTP server, command line, file export, containers, HTML and terminal rendering.
