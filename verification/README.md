# Qaneris: verified models of its durable and deterministic cores

Qaneris answers business questions over governed datasources. This project models the parts of it whose
correctness rests on an argument over whole runs or unbounded data, and proves those arguments:

1. **Federated merge** (`Responses`, `KeyedJoin`, `JoinFanOut`, `JoinRules`, `TimeSeries`, `TimeSeriesFacts`, `Merger`,
   `MergerFacts`, `MergerRules`): an indexed join equals a nested loop, a declared cardinality bounds its fan-out, an
   alignment is a full outer join, and what the input checks accept no output row check refuses. What each operation
   refuses and returns is also stated over the rows, cells and columns themselves.
2. **Federated runs** (`FederationPlan`, `FederationBudget`, `FederationAsks`, `FederationRun`, `Revisions`): plans,
   durable source tasks, resumes and crashes; row and byte budgets that compose from the validator to the merger;
   revision compare-and-swap. `FederationAsks` says, over the response's own fields, what every ending of an Ask means.
3. **Diagnostic loop** (`QuestionPolicy`, `DiagnosticState`, `DiagnosticRuns`, `DiagnosticTheorems`, `EmptyScope`,
   `DiagnosticAsks`, `DiagnosticCoordinator`): a bounded adaptive loop whose progress is two separate durable records.
   A state machine allows a crash before every write; the coordinator and repository are then proved, statement by
   statement, to take only its steps, so every theorem about runs holds of them. `DiagnosticAsks` says, over the
   response's own fields, what every ending of an Ask means. `ManyDrivers`, `SharedReports`, `SharedSource` and
   `TwoDrivers` let any number of drivers take these steps at once: what the two revision guards keep, and exactly
   when the report and the one source are kept too.
4. **Datasource lifecycle** (`References`, `CatalogTables`, `LifecycleState`, `Lifecycle`): catalog, graph and
   secret store without a shared transaction. A catalog or graph step may fail before or after it took effect; the
   write or removal of one secret document takes effect or fails.
5. **Join-mapping governance** (`Governance`, `GovernanceRuns`, `GovernanceCalls`): read-then-swap writers that
   interleave freely.
6. **Canonical structure and profiling** (`Canonical`, `GraphReading`, `Profiling`, `FieldProfiles`).

`Common`, `Ordering`, `SortedText` and `PlainText` hold shared values, stable sorting, sorted sets and the treatment
of white space, words and case.

Check everything with `dafny verify dfyconfig.toml`.

## How the code is modelled

- Tables are maps or ordered lists of rows, and each SQLite transaction is one step. `ORDER BY round, ordinal` is the
  order of the list. JSON storage returns what was stored.
- A class method stands for the source method of that name and makes the same tests in the same order. `if *` marks
  where the process may end, a foreign call may fail or cancellation may arrive; `:= *` stands for an answer of the
  planner, the Ask, the governance or the clock. Ghost results and counters record what was answered and what failed,
  so that a contract can say that an outcome is exactly what that answer means, and an error only what a failure caused.
- Generated identifiers are chosen by the environment. A collision is refused by the table key where there is one;
  a new secret's identifier is taken to be new.
- Numbers are reals, so `Decimal` rounding and NaN are not represented; a cell's constructor is its run-time type.
  The encoded size of a list of rows is an arbitrary natural-valued function. Case folding is an arbitrary table from
  characters to strings, white space is Python's, and `\d` is ASCII.
- A snapshot and a graph carry the connection they were scanned through. The source stores the scan's content
  instead; the field says which connection that content describes.
- Cancellation, once requested, stays requested.

## Results that differ from what the names or documentation suggest

- **One datasource per diagnostic run** fails for a conversation whose scope is the single empty string. The scope
  is not validated (`qaneris/conversation/service.py:13-29`) and is stored as the lock, but the lock is tested for
  truth (`qaneris/diagnostics/coordinator.py:354-355`), so it admits any source, and after a lost checkpoint the repair
  keeps it (`qaneris/diagnostics/coordinator.py:420-423`). An Ask with an empty identifier is answered: the readiness
  check (`qaneris/application/service.py:1385-1399`) and the intent rules (`qaneris/semantic/intent.py:63-65`) test the
  identifier for truth too, so it is an Ask without a datasource, which may be answered from any ready one.
  `EmptyScope.SingleSourceExactly` proves the exact condition: every run stays on one source if and only if the first
  scope entry is not empty or the budget admits no second answered question.
- **Two drivers of one diagnostic run** keep the budget, the questions and the completed tasks by the two revision
  guards alone (`ManyDrivers`). The report and the one source need more, because an answer is stored in one write
  (`qaneris/diagnostics/coordinator.py:375-384`) and reported in another
  (`qaneris/diagnostics/coordinator.py:385-397`), and a second driver may ask its next question in between.
  `TwoDrivers.FirstAnswerUnreported` is such a run: the first answer is never reported and the two answers have two
  sources. `SharedReports.LagBoundedExactly` and `SharedSource.AnswerStaysExactly` give the exact conditions, which a
  single driver always meets (`SharedReports.OneDriverAnswersOverOwn`).
- **Row order of a time series** matters when a later row holds the full axis path beside its last segment and an
  earlier one only the segment, because the first row names the column. `TimeSeriesFacts.RaggedExample` gives such
  rows, and `TimeSeriesFacts.OrderInsensitive` and `TimeSeriesFacts.TableOrderInsensitive` prove the exact condition for
  one input and for the whole table.
- **The output row check of a merge** can refuse a result after the input checks passed only when there are no
  inputs; `MergerFacts.OutputRowCheck` gives the exact bound.
- **A federated plan for a second run** is refused. The validator names every run's tasks `source_1`, `source_2`, …
  (`qaneris/federation/validator.py:47`) and that name alone is the primary key of the task table
  (`qaneris/federation/repository.py:25`). `FederationPlan.FirstPlanOnly` proves that a run without a stored
  plan gets one if and only if no other run's plan is stored, whatever its tasks have become, and
  `FederationPlan.SecondRunRefused` that this is so in every history, until the other run's conversation is deleted.
- **A stale mark** may undo a newer confirmation: the swap compares the status only and replaces the whole row.
  `GovernanceRuns.StaleWriteFaithful` proves exactly when nothing is lost and `GovernanceRuns.FreshConfirmationLost`
  gives a run in which a confirmation on the active scans is lost. That a rejection is final and a confirmation is
  pinned still hold.
- **Merging graph reads** associates even for reads that disagree; it commutes if and only if they agree.

## Model

| member | source | states |
|---|---|---|
| `KeyedJoin.Join` | qaneris/federation/merger.py:177-243 | For all inputs the hash join returns, in order, exactly what a nested loop over non-null keys returns, with the same errors for plans, projections, null keys, unhashable keys and violated cardinality |
| `KeyedJoin.Probe` | qaneris/federation/merger.py:222-241 | One pass over the left rows with the index equals the nested loop in every join mode |
| `KeyedJoin.BucketIsInnerLoop` | qaneris/federation/merger.py:222-232 | An index bucket holds exactly the right rows an inner loop would match, in right order; it is empty exactly when nothing matches |
| `KeyedJoin.PairCells` | qaneris/federation/merger.py:225-241 | A joined row carries every left and right cell under its own prefixed name and no other column |
| `JoinFanOut.InnerMembers` | qaneris/federation/merger.py:231-241 | A row is in the inner join if and only if it pairs some left row with some right row of the same key |
| `JoinFanOut.AntiRows` | qaneris/federation/merger.py:231-234 | An anti join is the projection of exactly the unmatched left rows, in left order |
| `JoinFanOut.LeftIsInnerPlusAnti` | qaneris/federation/merger.py:231-241 | A left join has the inner join's rows plus one for each row the anti join would return |
| `JoinFanOut.UniqueLeftBound` | qaneris/federation/merger.py:215-221 | Distinct left keys claim disjoint right rows, so the inner join has at most as many rows as the right side |
| `JoinFanOut.UniqueRightBound` | qaneris/federation/merger.py:215-221 | Distinct right keys give each left row at most one partner; the left join then has exactly one row per left row |
| `JoinFanOut.FanOutBounded` | qaneris/federation/merger.py:192-243 | After the cardinality check each mode's output is bounded by the inputs as the declared cardinality, one-to-one, many-to-one or one-to-many, promises |
| `JoinRules.PlanRefusals` | qaneris/federation/merger.py:178-191 | Two grounded plans, of the mapping's datasources in order, each selecting its key field: which of these is missing decides the error |
| `JoinRules.RowRefusals` | qaneris/federation/merger.py:192-221 | The rows are refused for a null key under REJECT, else for a list or dictionary as a key, else, exactly then, because two left rows share a key that is not null and the cardinality is one-to-one or one-to-many, or two right rows do and it is one-to-one or many-to-one |
| `JoinRules.JoinedTable` | qaneris/federation/merger.py:225-243 | Every joined row has exactly the declared columns: the left ones under their prefix in order, then, unless the join is anti, the right ones under theirs |
| `TimeSeries.Align` | qaneris/federation/merger.py:134-175 | The alignment is a full outer join: strictly increasing union of the keys, one column per source, null where a source has no value; errors as in the code |
| `TimeSeriesFacts.AlignmentUnique` | qaneris/federation/merger.py:168-175 | The full outer join of given series is one table |
| `TimeSeriesFacts.AlignmentCells` | qaneris/federation/merger.py:168-173 | Row k carries the k-th time key and, under `source_<i>_value`, what source i holds at it or null; it has no other cell, and the columns are these in order |
| `TimeSeriesFacts.AlignmentBounded` | qaneris/federation/merger.py:168-175 | The aligned table has at most as many rows as its inputs together |
| `TimeSeriesFacts.SeriesCharacter` | qaneris/federation/merger.py:148-167 | A series is accepted exactly when every row has a valid and distinct time key, and then holds exactly those entries |
| `TimeSeriesFacts.AxisKeyExactly` | qaneris/federation/merger.py:149-164 | A time key is a date, a time, or a text that is a year and a month from 01 to 12 or, not looking like one, starts with a date; the key is that text, and nothing else is one |
| `TimeSeriesFacts.InputExactly` | qaneris/federation/merger.py:139-167 | An input with rows is read exactly when it has its axis column and one other column and its time keys are valid and distinct; the other column is the metric |
| `TimeSeriesFacts.OrderInsensitive` | qaneris/federation/merger.py:140-167 | An input that can be aligned gives the same series in every row order if and only if all its rows name the axis alike |
| `TimeSeriesFacts.RaggedExample` | qaneris/federation/merger.py:38-45 | Two rows that align in one order and are refused in the other |
| `TimeSeriesFacts.TableOrderInsensitive` | qaneris/federation/merger.py:134-175 | Reordering the rows of any inputs leaves every series as it was if and only if each input names its axis alike |
| `TimeSeriesFacts.AlignmentOrderInsensitive` | qaneris/federation/merger.py:134-175 | With one axis name per input the merged table does not depend on the order of any input's rows |
| `Merger.CheckInputs` | qaneris/federation/merger.py:56-65 | The running row and byte checks, input by input, with the first error in order |
| `Merger.MergeScalars` | qaneris/federation/merger.py:86-116 | One labelled cell per source and the calculated cell, or the first input's error, a wrong count or a zero divisor |
| `MergerFacts.UnionExact` | qaneris/federation/merger.py:118-132 | A union succeeds exactly when all inputs have the same columns, every row exactly those cells and every column one type or only numbers; it then holds the inputs' rows in order |
| `MergerRules.UnionMissing` | qaneris/federation/merger.py:120-124 | With a result missing, the columns of the others are compared first |
| `Merger.Merge` | qaneris/federation/merger.py:49-84 | Deadline, missing inputs, input checks, the chosen operation, then the output checks, in that order |
| `MergerFacts.InputsAccepted` | qaneris/federation/merger.py:56-65 | The running checks accept exactly the inputs that fit every limit as a whole |
| `MergerFacts.OutputRowsBounded` | qaneris/federation/merger.py:66-77 | No operation on at least one input returns more rows than its inputs hold |
| `MergerFacts.OutputRowCheck` | qaneris/federation/merger.py:76-77 | After accepted inputs the output row check refuses if and only if there were no inputs and the limit is below the empty result |
| `MergerFacts.OnlyOutputBytesCanFail` | qaneris/federation/merger.py:55-84 | Inputs that fit are refused for a limit only when the merged rows encode too large |
| `MergerFacts.ScalarCells` | qaneris/federation/merger.py:88-116 | In the merged row, calculated cell included, every input number keeps its own cell under its own label, the calculation stands under the operation's name, and there is no other cell |
| `MergerRules.ScalarRowExactly` | qaneris/federation/merger.py:88-98 | The number of source i stands in the merged row under `source_<i>_` and the name its own cell had |
| `MergerRules.ScalarCalculated` | qaneris/federation/merger.py:99-116 | The calculated cell holds the number that solves the operation: the sum; with the other values, the first one; times the second, the first; or the change in percent that takes the second to the first |
| `MergerRules.ScalarsExactly` | qaneris/federation/merger.py:16-25 | The inputs are read exactly when each is one row of one cell holding an integer, a float or a decimal |
| `MergerRules.PlainExactly` | qaneris/federation/merger.py:28-29 | A result keeps its value, as an integer exactly when it is whole |
| `FederationPlan.ValidatedPlan` | qaneris/federation/validator.py:26-86 | A validated plan has 2 to max distinct allowed sources, per-source rows that fit the total, numbered tasks of the operation's shape, and the mapping's own sources in order for a join |
| `FederationPlan.ValidatedExactly` | qaneris/federation/validator.py:26-86 | A draft is accepted if and only if it is in time, its sources fit, its inputs are named in order, a keyed join and only that is governed by an executable mapping of the two sources, and shapes and scalar operation suit the merge |
| `FederationPlan.SourceRefusals` | qaneris/federation/validator.py:30-44 | Deadline, number of sources, row budget, forbidden, repeated and native sources are refused in this order, each for its own reason |
| `FederationPlan.MergeRefusals` | qaneris/federation/validator.py:45-75 | With fitting sources, what is wrong with the merge is named in the order of the rules |
| `FederationPlan.FederationPlans.CreatePlan` | qaneris/federation/repository.py:56-70 | One transaction: the run's existing plan, or the new plan with all its rows, or, on a key conflict, nothing |
| `FederationPlan.FederationPlans.SaveTask` | qaneris/federation/repository.py:80-90 | The row that carries the revision is replaced and keeps its run and ordinal; any other write changes nothing |
| `FederationPlan.RunMatches` | qaneris/federation/repository.py:56-90 | Whatever is created, saved and deleted, in any order, the rows of a run are by name and place its plan's tasks |
| `FederationPlan.OnePlanPerRun` | qaneris/federation/repository.py:56-70 | However creations, task saves and deletions interleave, every creation that succeeds for a run not deleted since returned the one stored plan, whose tasks are exactly the run's rows |
| `FederationPlan.FirstPlanOnly` | qaneris/federation/repository.py:24-27 | With validated plans a run without a plan is accepted if and only if no other plan is stored, whatever has become of that plan's tasks |
| `FederationPlan.SecondRunRefused` | qaneris/federation/repository.py:56-70 | From empty tables, in every history of validated plans, saves and deletions, the same, and two plans are never stored at once |
| `FederationBudget.TotalRowsNeverRefused` | qaneris/federation/coordinator.py:266-278 | On a validated plan the running row total refuses a result only if it, or one completed before it, holds more rows than one source may |
| `FederationBudget.MergerAccepts` | qaneris/federation/merger.py:56-65 | When all tasks have completed the merger's input checks pass if and only if no result holds more rows than one source may; otherwise they refuse with the result limit |
| `FederationBudget.BudgetsCompose` | qaneris/federation/coordinator.py:140-150 | The merge of a finished run is refused for a limit only when the merged rows encode too large, or, exactly then, when some result holds more rows than one source may |
| `FederationRun.FederationRepository.CreatePlan` | qaneris/federation/repository.py:56-70 | The run's stored plan, or the new one with its rows, or a key conflict with the rows of other runs that changes nothing |
| `FederationRun.FederationRepository.SaveTask` | qaneris/federation/repository.py:80-90 | A write lands only on the row carrying its identifier and revision, and otherwise changes nothing |
| `FederationRun.FederatedQuestionCapability.RecoverRunning` | qaneris/federation/repository.py:92-104 | Every RUNNING task becomes a retryable failure, no other row changes, and the totals hold if the process ends midway |
| `FederationRun.FederatedQuestionCapability.Complete` | qaneris/federation/coordinator.py:262-283 | A result of the right source completes its task if and only if its count, bytes, and with the completed tasks its rows and bytes, are within the limits; otherwise the task fails for the limit |
| `FederationRun.FederatedQuestionCapability.ExecuteTask` | qaneris/federation/coordinator.py:195-297 | One Ask changes only its own row, and to exactly what its ending means: failed with the code heard, waiting, failed as unverified unless the evidence names the task's own datasource, completed with the data heard, or skipped once cancelled |
| `FederationAsks.CompletedExactly` | qaneris/federation/coordinator.py:238-289 | A task is completed if and only if the Ask completed without an exception, with a fitting result and evidence that names its datasource; it waits if and only if a clarification was required |
| `FederationRun.FederatedQuestionCapability.RefusedForTotals` | qaneris/federation/coordinator.py:262-283 | A result is refused only for its reported count, its bytes, or because it or a completed one holds more rows than one source may |
| `FederationRun.FederatedQuestionCapability.RunTask` | qaneris/federation/coordinator.py:124-137 | Cancelled, late and completed tasks are passed, a waiting one waits until the user has answered, a lasting failure is raised again, and any other task is asked once |
| `FederationRun.FederatedQuestionCapability.PlanRun` | qaneris/federation/coordinator.py:66-122 | A stored plan is resumed unless one of its datasources is no longer allowed or the governance refuses; a new one is what the validator makes of the planner's draft |
| `FederationRun.FederatedQuestionCapability.RunTasks` | qaneris/federation/coordinator.py:124-137 | Completed tasks are kept and never asked again: Asks and completed tasks together are at most the plan's tasks |
| `FederationRun.FederatedQuestionCapability.Drive` | qaneris/federation/coordinator.py:66-193 | Every drive, crash or resume keeps the totals, and every outcome has its reason on record; a merge happens only over a complete set of results, each with evidence of its own datasource, with the mapping the governance gave, and its input checks refuse exactly when one result holds more rows than one source may; creating the plan fails on a key exactly when this run has none and another run has one |
| `Revisions.RunIsSerial` | qaneris/diagnostics/repository.py:49-59 | Under any interleaving the accepted writes form a chain: the k-th read version k and made version k + 1 |
| `Revisions.AcceptedOnCurrent` | qaneris/diagnostics/repository.py:112-121 | A write is accepted exactly when its writer's copy still is the stored row; a refused one changes nothing |
| `Revisions.Serialises` | qaneris/federation/repository.py:80-90 | The row is what its accepted writes give one after the other, and its revision counts them |
| `QuestionPolicy.KeyCharacter` | qaneris/diagnostics/policy.py:14-15 | For every case folding, two questions share a key if and only if they read as the same words |
| `QuestionPolicy.KeyIsOwnKey` | qaneris/diagnostics/policy.py:14-15 | With a folding that folded text does not change, a key is its own key |
| `QuestionPolicy.SelectQuestions` | qaneris/diagnostics/policy.py:25-43 | The loop returns the first unseen questions in stable priority order up to the cap, and the repeats among the rest, or refuses an invalid question |
| `QuestionPolicy.SelectionExact` | qaneris/diagnostics/policy.py:25-43 | Selected questions are fresh, pairwise distinct, in increasing priority and within both budgets; fewer than both only when everything else repeats |
| `QuestionPolicy.SelectionFirst` | qaneris/diagnostics/policy.py:35-42 | A fresh question is passed over only when a budget is filled by questions whose priority number is no larger |
| `QuestionPolicy.SelectionStable` | qaneris/diagnostics/policy.py:35-35 | Proposals of equal priority are considered in the order proposed |
| `QuestionPolicy.SelectionRefused` | qaneris/diagnostics/policy.py:18-36 | Only a query is judged, and refused exactly for a native question or one without text or purpose |
| `QuestionPolicy.SelectionRepeats` | qaneris/diagnostics/policy.py:35-42 | The repeats are proposals asked before or selected now, and all that were asked before are among them |
| `PlainText.TrimmedExactly` | qaneris/diagnostics/policy.py:14-15 | Stripping removes white space from both ends and nothing else |
| `PlainText.SplitAtSpace` | qaneris/diagnostics/policy.py:14-15 | A white space character separates the words before it from those after it |
| `DiagnosticRuns.RunKeeps` | qaneris/diagnostics/coordinator.py:155-574 | Every run with any outcomes, crashes and restarts keeps the tables ordered, the budget conserved, work in order, and the checkpoint at most one completion behind |
| `DiagnosticRuns.RepairLocks` | qaneris/diagnostics/coordinator.py:409-432 | The repair re-derives the source lock from the one completion a lost checkpoint missed |
| `DiagnosticRuns.VerifiedKeeps` | qaneris/diagnostics/coordinator.py:354-396 | Between the task write and the checkpoint write of a completion the invariant holds |
| `DiagnosticRuns.PlanKeepsDb` | qaneris/diagnostics/repository.py:77-110 | The atomic round commit keeps budget, order and distinct questions |
| `DiagnosticState.ReachesReplays` | qaneris/diagnostics/coordinator.py:155-574 | A state is reached by a run of steps exactly when replaying the run's events gives it |
| `DiagnosticTheorems.SingleSourceHolds` | qaneris/diagnostics/coordinator.py:354-432 | With a scope that does not start with an empty entry, all evidence of every run comes from one datasource |
| `EmptyScope.SingleSourceExactly` | qaneris/diagnostics/coordinator.py:354-446 | Every run stays on one source if and only if the first scope entry is not empty or the budget admits no second answer |
| `EmptyScope.MixInOneRound` | qaneris/diagnostics/coordinator.py:354-423 | A run over the empty-string scope that mixes two sources after one lost checkpoint write |
| `DiagnosticTheorems.LagBounded` | qaneris/diagnostics/coordinator.py:374-432 | The stored references are a prefix of the completed ones in order, without repetition, behind by at most one, and exact after the repair and every checkpoint write |
| `DiagnosticTheorems.BudgetConserved` | qaneris/diagnostics/coordinator.py:434-541 | Tasks ever planned equal the planned count, planned plus remaining equals the maximum once set, neither balance nor rounds overrun, and planned questions have distinct keys over all rounds |
| `DiagnosticTheorems.CompletedIsFinal` | qaneris/diagnostics/coordinator.py:558-562 | A completed task is never run again or altered by any continuation of the run |
| `DiagnosticTheorems.SmallBudgetOneSource` | qaneris/diagnostics/coordinator.py:472-541 | A budget that admits one answer keeps any run on one source, whatever its scope |
| `ManyDrivers.BudgetConservedByAll` | qaneris/diagnostics/repository.py:49-110 | With any number of drivers at once the budget is conserved, rounds and questions stay within their limits, and no two planned questions share a key |
| `ManyDrivers.CompletedIsFinalForAll` | qaneris/diagnostics/repository.py:112-121 | With any number of drivers at once a completed task is never run again or altered |
| `SharedReports.LagBoundedExactly` | qaneris/diagnostics/coordinator.py:375-432 | With any number of drivers the stored report is never more than one answer behind if and only if every answer is written over a checkpoint that reports all earlier ones |
| `SharedReports.OneDriverAnswersOverOwn` | qaneris/diagnostics/coordinator.py:408-432 | One driver, crashes and restarts included, always writes its answers over the exact checkpoint it holds |
| `SharedSource.AnswerStaysExactly` | qaneris/diagnostics/coordinator.py:354-384 | Whatever source answers next, the run stays on one if and only if the driver's copy of the checkpoint names the source of the answers already stored, or there are none |
| `SharedSource.CoveredStays` | qaneris/diagnostics/coordinator.py:354-384 | Any number of drivers stay on one source, whatever the scope, while every verified answer is written under that condition |
| `SharedSource.SingleSourceForAll` | qaneris/diagnostics/coordinator.py:354-446 | With a scope that does not start with an empty entry it is enough that every answer is written over the driver's own exact checkpoint |
| `TwoDrivers.FirstAnswerUnreported` | qaneris/diagnostics/coordinator.py:155-397 | A run of two drivers whose checkpoint ends with the second reference alone, over answers from two sources |
| `TwoDrivers.ExactIsNotEnough` | qaneris/diagnostics/coordinator.py:354-384 | A run of three drivers that mixes sources although every answer is written over an exact checkpoint |
| `DiagnosticCoordinator.DiagnosticRepository.SaveCheckpoint` | qaneris/diagnostics/repository.py:49-59 | The checkpoint write succeeds exactly on the revision read |
| `DiagnosticCoordinator.DiagnosticRepository.SaveTask` | qaneris/diagnostics/repository.py:112-121 | The task write lands only on the row with its identifier and revision, else changes nothing |
| `DiagnosticCoordinator.DiagnosticRepository.PlanRound` | qaneris/diagnostics/repository.py:77-110 | Batch and budget are both written, exactly when the revision and the table's keys allow it |
| `DiagnosticCoordinator.BatchInsertable` | qaneris/diagnostics/repository.py:92-109 | A new round can only be refused for an identifier already in use |
| `DiagnosticCoordinator.DiagnosticCoordinator.RecoverRunning` | qaneris/diagnostics/repository.py:123-138 | The restart loop's writes are steps of a run; afterwards every RUNNING row is a retryable failure and other rows are untouched |
| `DiagnosticCoordinator.DiagnosticCoordinator.Reconcile` | qaneris/diagnostics/coordinator.py:408-432 | Opening a drive leaves the checkpoint exact, or ends with it unwritten |
| `DiagnosticCoordinator.DiagnosticCoordinator.ExecuteTask` | qaneris/diagnostics/coordinator.py:155-406 | An attempt is a sequence of run steps on its own row, and row, checkpoint and outcome are exactly what the ending of the Ask means: each failure with its own code, a missing-data answer without evidence, admissible evidence with its reference and source, a wait, or a cancellation |
| `DiagnosticAsks.CompletedExactly` | qaneris/diagnostics/coordinator.py:247-397 | A task is completed if and only if the response is a clarification that says the data is missing and offers nothing, or a completed one without exception, with a result and with evidence from the locked source if there is one; it waits if and only if it is another clarification |
| `DiagnosticCoordinator.DiagnosticCoordinator.RunTask` | qaneris/diagnostics/coordinator.py:554-569 | A finished task is passed, a lasting failure is raised again with its code, and any other task is attempted, unless the run is cancelled |
| `DiagnosticCoordinator.DiagnosticCoordinator.PlanNext` | qaneris/diagnostics/coordinator.py:505-554 | By the planner's answer: an unusable one ends in a deterministic answer if there is evidence and blocks the run if not, a request for clarification waits, and any other is stored as the next round |
| `DiagnosticCoordinator.DiagnosticCoordinator.CommitRound` | qaneris/diagnostics/coordinator.py:526-541 | The selected round is written with its budget exactly when its identifiers are new, and otherwise not at all |
| `DiagnosticCoordinator.DiagnosticCoordinator.RunOnce` | qaneris/diagnostics/coordinator.py:460-574 | One turn of the round loop ends the drive for a reason on record, leaves the loop because the limits are reached, the planner failed or nothing new was planned, or brings the run forward in the measure that bounds it |
| `DiagnosticCoordinator.DiagnosticCoordinator.Drive` | qaneris/diagnostics/coordinator.py:408-618 | A drive always ends, with at most the maximum of rounds in planning calls and of questions in Asks, and every outcome has its reason; an answer rests on exactly the references of the completed evidence, is deterministic exactly when the planner failed, and is from one source when the scope is empty or does not start with an empty entry |
| `References.ViewsAgree` | qaneris/connections/references.py:43-75 | The list view names an identifier once for each of the nine reference fields, each named, that holds it as a managed secret; the set view has it if and only if one of them does |
| `CatalogTables.Catalog.CountManagedSecretReferences` | qaneris/catalog/sqlite.py:297-322 | The count is the number of fields of stored profiles that name the secret, and zero exactly when no stored secure profile names it in any of its nine fields |
| `CatalogTables.UncountedIsUnreferenced` | qaneris/catalog/sqlite.py:297-322 | The count is zero if and only if no stored profile's id set holds the secret |
| `CatalogTables.ReferencedExactly` | qaneris/catalog/sqlite.py:297-322 | A secret is referenced if and only if one of the nine fields of a stored secure profile names it |
| `CatalogTables.JobHistory` | qaneris/catalog/sqlite.py:430-466 | Every final job status fixes the way the job came; a READY job passed every stage in order |
| `CatalogTables.Catalog.JobsPassedStages` | qaneris/catalog/sqlite.py:430-466 | The stored jobs themselves came to their status that way: the table's writes keep each job on such a path |
| `CatalogTables.Catalog.NextSnapshotVersion` | qaneris/catalog/sqlite.py:487-494 | One more than the largest stored version, or one |
| `CatalogTables.NextNumber` | qaneris/catalog/sqlite.py:487-494 | On rows numbered 1 to n that is n + 1, so no committed number is used again |
| `CatalogTables.Catalog.CommitScanSnapshot` | qaneris/catalog/sqlite.py:521-589 | The new version becomes the only active one and the datasource ready, in one step |
| `CatalogTables.Catalog.UpdateSecureDatasource` | qaneris/catalog/sqlite.py:188-232 | Only a stored secure datasource takes the new profile, and goes back to created with it |
| `CatalogTables.Catalog.InvalidateDatasourceScan` | qaneris/catalog/sqlite.py:234-260 | The datasource goes back to created and no snapshot stays active; none is deleted |
| `CatalogTables.Catalog.DeleteDatasource` | qaneris/catalog/sqlite.py:262-295 | The datasource goes with exactly its own snapshots and jobs; every other job stays as it was |
| `CatalogTables.Catalog.UpdateInitializationJob` | qaneris/catalog/sqlite.py:430-466 | A job status is written exactly when the transition table allows the move |
| `LifecycleState.SwitchedSound` | qaneris/application/service.py:366-369 | Storing a new profile once the graph is gone keeps every cross-store guarantee |
| `LifecycleState.SwitchNeedsUnpublish` | qaneris/application/service.py:359-369 | It keeps them if and only if no graph is published, or only an uncommitted scan of that very connection |
| `LifecycleState.RemoveNeedsUnpublish` | qaneris/application/service.py:393-401 | A datasource's rows can be removed soundly if and only if its graph is gone |
| `LifecycleState.CommittedSound` | qaneris/initialization/service.py:120-123 | Committing the version the graph already carries keeps every guarantee and activates that version |
| `LifecycleState.CommitNeedsPublish` | qaneris/initialization/service.py:120-123 | Committing is sound if and only if no graph is published or the graph is already at the new version |
| `LifecycleState.ReleasedByUpdate` | qaneris/application/service.py:410-423 | The secrets an update releases are the obsolete ones no stored profile still names |
| `LifecycleState.ReleasedByDelete` | qaneris/application/service.py:407-408 | The secrets a deletion releases are the ones only the deleted datasource named |
| `Lifecycle.DatasourceService.CreateSecureDatasource` | qaneris/application/service.py:313-322 | Only a profile whose references all exist is stored, in state created; the test fails exactly for a missing reference or a raising driver |
| `Lifecycle.DatasourceService.CreateDatasource` | qaneris/application/service.py:184-189 | A raw document is stored only without inline secrets and after its connection test, and the process may end on either side of the write |
| `Lifecycle.DatasourceService.UpdateSecureDatasource` | qaneris/application/service.py:324-377 | In every outcome all cross-store guarantees hold and the stores stand after one of the contract's steps: unchanged for a refusal before the graph step, possibly switched for an update error; a clean update removes exactly the secrets that lost their last reference, a refusal none |
| `Lifecycle.DatasourceService.DeleteDatasource` | qaneris/application/service.py:379-408 | As for updates: graph, then rows, then exactly the secrets that lost their last reference; an error may leave the graph gone, or the rows too, but removes no secret |
| `Lifecycle.DatasourceService.CleanupUnreferencedSecrets` | qaneris/application/service.py:425-446 | Candidates still referenced are kept, the others removed, except those whose removal the store refused; nothing else is touched |
| `Lifecycle.DatasourceService.DeleteSecret` | qaneris/connections/credential_service.py:153-168 | An unknown secret is reported so, one that a stored profile names is refused as in use, each exactly then; any other is deleted unless the store fails |
| `Lifecycle.DatasourceService.CreateSecret` | qaneris/connections/credential_service.py:45-85 | Material its kind does not admit is refused; otherwise the store holds exactly the one secret more, or nothing has changed |
| `Lifecycle.DatasourceService.CreateClientIdentity` | qaneris/connections/credential_service.py:87-147 | Both halves are stored or neither; only a failed rollback or a crash can leave the certificate, which nothing references |
| `Lifecycle.DatasourceService.ScanDatasource` | qaneris/application/service.py:620-627 | In every outcome the guarantees hold and at most one graph version and one snapshot of that datasource are new; READY means graph, active snapshot and job carry one new version of the stored connection |
| `Lifecycle.DatasourceService.Publish` | qaneris/initialization/service.py:91-133 | Graph first, catalog second, job last, with a failure possible before or after each |
| `Lifecycle.DatasourceService.SwitchAndCleanup` | qaneris/application/service.py:366-377 | The profile, then the scan, then the secrets: an error is reported only when a step raised |
| `GovernanceRuns.ConfirmedIsPinned` | qaneris/federation/governance.py:58-73 | In every interleaving a confirmed mapping has both scan versions and a non-empty confirmer, and two distinct datasources |
| `GovernanceRuns.ConfirmedWasCurrent` | qaneris/federation/governance.py:58-73 | A stored confirmed mapping is the row one call wrote after finding each datasource with an active scan whose version it pinned, over a candidate or stale row whose status had not changed since it was read |
| `GovernanceRuns.RejectedIsFinal` | qaneris/federation/governance.py:75-79 | After a rejection no interleaving of calls changes the mapping, and what it joins never changes |
| `GovernanceRuns.ExecutableWasCurrent` | qaneris/federation/governance.py:81-99 | Every mapping `executable` returned was stored and confirmed when read, and each pin was the active version when looked at |
| `GovernanceRuns.StaleWasOutdated` | qaneris/federation/governance.py:81-99 | A row made stale was so marked by a call that had read it confirmed and then found one of its pins not the active version |
| `GovernanceRuns.StaleWriteFaithful` | qaneris/federation/repository.py:133-150 | A stale mark keeps the rest of the mapping if and only if the writer's copy still is the stored row |
| `GovernanceRuns.FreshConfirmationLost` | qaneris/federation/repository.py:133-150 | A run in which a late stale mark replaces a confirmation whose pins are the active versions |
| `GovernanceCalls.JoinMappingGovernance.Create` | qaneris/federation/governance.py:16-25 | A candidate without versions or confirmer, whatever the fields carried; refused for one datasource on both sides |
| `GovernanceCalls.JoinMappingGovernance.Confirm` | qaneris/federation/governance.py:58-73 | A confirmation that succeeds among arbitrary other calls wrote, during the call, a row with its confirmer and the versions of the active scans it looked up; it is refused only when the mapping was missing, settled or changed, the label blank, or one of its datasources had no active scan, at a step of this call |
| `GovernanceCalls.JoinMappingGovernance.Reject` | qaneris/federation/governance.py:75-79 | A rejection that succeeds is still what is stored when it returns, whatever ran beside it; it fails only for a missing mapping or a changed status |
| `GovernanceCalls.JoinMappingGovernance.Executable` | qaneris/federation/governance.py:81-99 | Among arbitrary other calls and scans it returns only a mapping that during this very call was stored as confirmed and had each pin active when looked at; a stale error comes with the stale mark of this call |
| `Canonical.Unique` | qaneris/graph/reading.py:306-310 | The dictionary loop keeps the first item of each identity, in order |
| `Canonical.CanonEqual` | qaneris/graph/reading.py:159-198 | Two lists have one canonical form if and only if every identity names the same first item in both |
| `GraphReading.Merge` | qaneris/graph/reading.py:190-198 | Merging is the canonical form of the two reads together |
| `GraphReading.MergedShape` | qaneris/graph/reading.py:159-198 | One item per identity, in key order, with the first read's description winning |
| `GraphReading.MergedItems` | qaneris/graph/reading.py:190-198 | Of every kind the result holds exactly the first item of each identity, the first read's before the second's; nodes are identified by node, relationships by their own identifier |
| `GraphReading.MergedOrder` | qaneris/graph/reading.py:159-188 | Items stand in the lexicographic order of their own fields, objects by qualified name or else name after the datasource, and a partial read marks the result |
| `GraphReading.MergedCommutes` | qaneris/graph/reading.py:190-198 | The order of two reads is immaterial if and only if they describe every shared item alike |
| `GraphReading.MergedAssociates` | qaneris/graph/reading.py:190-198 | Merging associates for all reads |
| `GraphReading.MergedIdempotent` | qaneris/graph/reading.py:190-198 | Merging a read with itself only sorts and de-duplicates it, and a canonical read is a fixed point |
| `GraphReading.MergedIgnoresOrder` | qaneris/graph/reading.py:159-198 | The result does not depend on how a consistent read ordered or repeated its items |
| `Profiling.FlattenValue` | qaneris/profiling/builder.py:45-57 | The recursive loops compute the flattening |
| `Profiling.FlattenExact` | qaneris/profiling/builder.py:45-57 | The flattening lists exactly the members some way down through dictionaries and lists of them reaches, under the path that spells it |
| `FieldProfiles.ObservedExactly` | qaneris/profiling/builder.py:136-146 | The observations of a path are one per record in which it occurs, never more than the records, and fewer exactly when some record lacks it, colliding paths included |
| `FieldProfiles.ArraysExactly` | qaneris/profiling/builder.py:139-142 | A path is marked an array if and only if some way down, spelled so, reaches a list |
| `FieldProfiles.ObservedReached` | qaneris/profiling/builder.py:139-144 | Every observed value is one some way down, spelled so, reaches |
| `FieldProfiles.InferredExactly` | qaneris/profiling/builder.py:149-154 | The inferred type is that of the first value that is not null, by its run-time type, and there is none exactly when all are null |
| `FieldProfiles.PayloadExactly` | qaneris/profiling/builder.py:137-137 | A record wrapped under `value` is what it wraps, any other dictionary itself, anything else empty |
| `FieldProfiles.DeclaredExactly` | qaneris/profiling/builder.py:146-148 | A path takes the last declaration of its name |
| `FieldProfiles.BuildFields` | qaneris/profiling/builder.py:132-164 | One profile per declared or observed path in increasing order, with exact counts, nullability, array mark and type; the count validator can never refuse one |

## Left out

- Two drives of one federated run at the same time: one driver is modelled, and `Revisions` covers what compare-and-swap gives racing writers of one row. Two drives of one diagnostic run are modelled on the steps of the state machine; the classes of `DiagnosticCoordinator` are for one driver.
- Ask internals, adapters, the model gateway and Neo4j queries: an Ask is an arbitrary finite outcome.
- Run status, events, messages, timestamps, failure texts and the answer composer; an exception in them ends the process in the model.
- The wording of clarifications, the native-query pattern and the missing-data markers, which are flags on the modelled values.
- Encryption, certificate checks, TLS files, redaction and JSON or pydantic parsing; secrets are identifiers.
- Profile documents, datasets, relations, samples and mappings of the catalog, which follow their datasource's transaction, and the rule that at most 100 records are profiled.
- `save_snapshot`, `replace_datasets` and `replace_scan_result`, which set `ready` outside the publication protocol, and two scans of one datasource at once.
- Sample values, previews, stable identifiers, relationships and graph edge objects of a profile.
- `match_object` and the other lookups on a graph structure.
- Semantic memory and its revision, which coordinators re-read just before writing.
- Lifecycle.DatasourceService.CreateClientIdentity: identifiers of new secrets are assumed new.
- GovernanceCalls.JoinMappingGovernance.Confirm: the checks that the scan is published and that object and field exist are left to the environment; only the active versions are modelled.
