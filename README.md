# respy: property-test harness and estimation bookkeeping, modelled in Dafny

This project models two parts of the respy repository and proves properties of them.

**The property-test battery driver.** This is `run` in `development/testing/property/run.py`, modelled in `property_run.dfy`, module `PropertyRun`.
- It builds a ledger `module -> method -> [successes, failures]` from the test registry, with every entry zeroed.
- It then runs a do-while loop. Each pass:
  - draws a seed in `[1, 100000)`;
  - picks a registered test;
  - enters a fresh directory;
  - runs the test and counts a success or a failure;
  - goes back to the parent directory;
  - reports the iteration.
- The loop stops at the first iteration end whose elapsed time is strictly greater than the timeout.
- Finally it writes the record and sends a notification, unless it runs in the background.

The driver is modelled imperatively:
- `Prepare` covers lines 39-58.
- `Loop` is one `while true` loop with a `break`, and its body is `Pass`.
- `Conclude` covers lines 102-107.
- `Run` composes the three.

What each method computes is stated against functions of its inputs:
- `InitialLedger` and `Replay` give the ledger;
- `Iterations` gives the number of passes;
- `Trace`, `Prologue`, `Epilogue` and `SessionLog` give the calls made to the collaborators;
- lemmas prove the properties of those functions.

**The estimation-progress bookkeeping.** This is `respy/python/record/record_estimation.py`, modelled in `record_estimation.dfy`, module `RecordEstimation`.
- The optimiser object is the class `Optimizer`. Its evaluation and step counters are `nat` fields. Its three criterion slots (start, best step, current) are an array, and its two parameter containers are two-dimensional arrays.
- `RecordEval` updates the object with the `for i in range(3)` loop of the source. It is proved to follow the value-level function `EvalUpdate`.
- The selection rules of the printed tables are functions with lemmas:
  - `char_floats` and its `'---'` threshold;
  - the warning codes;
  - the free-parameter rows of the scaling and evaluation tables;
  - the argument check of `record_estimation_scalability`.
- `RecordScaling` walks the parameters with the separate counter `j` of the source.

`wrappers.dfy` holds the `Option` and `Result` types that both models use.

The world outside these functions is given as inputs:
- **Clock:** the clock readings taken at the end of each iteration. The timeout is an integer in the same unit.
- **Draws and results, per iteration:** the generator's raw draw behind `random.randrange`, the sampler's pick, the test's outcome and the name of the fresh directory.
- **Computed elsewhere:** the shock coefficients, and the normalised type shares of an evaluation.
- **Date and time:** the date and time strings of the scalability log.

The registry (`get_test_dict`), the sampler (`get_random_request`) and the directory names (`get_testdir`) are among the inputs above. The other collaborators whose bodies are not part of this model are recorded as the `Event`s handed to them, in order.

## Model

| member | source | states |
|---|---|---|
| PropertyRun.NewSeed | development/testing/property/run.py:64 | every seed drawn lies in `[1, 100000)` |
| PropertyRun.Parent | development/testing/property/run.py:91 | the directory `os.chdir('../')` enters; `Pass` states that entering `tmp_dir` and then its parent returns to the directory the pass started in |
| PropertyRun.EverySeedIsDrawn | development/testing/property/run.py:64 | every seed of `[1, 100000)` is produced by some raw draw |
| PropertyRun.InitialLedger | development/testing/property/run.py:49-53 | the fresh ledger has exactly the registry's modules; it has an entry for a test iff the test is registered; every entry is `[0, 0]` |
| PropertyRun.InitializeLedger | development/testing/property/run.py:49-53 | the nested loops build exactly `InitialLedger` of the registry |
| PropertyRun.Record | development/testing/property/run.py:81-88 | one pass adds one success if the test returned and one failure if it raised; modules, methods and every other entry stay as they were |
| PropertyRun.Count | development/testing/property/run.py:81-88 | the ledger after the `try` block is `Record` of the one before; `is_success` is true iff the test returned; `msg` holds the diagnostic iff it raised |
| PropertyRun.Replay | development/testing/property/run.py:61-100 | any number of iterations keeps the ledger's modules and methods |
| PropertyRun.ReplayHas | development/testing/property/run.py:61-100 | after any iterations a test has an entry iff it had one before |
| PropertyRun.ReplayCounts | development/testing/property/run.py:81-88 | after iterations whose tests all have entries, a test's successes and failures have grown by exactly its successful and failed picks |
| PropertyRun.PicksAreCountedOnce | development/testing/property/run.py:81-88 | each pick counts once, as a success or as a failure |
| PropertyRun.InitialCovers | development/testing/property/run.py:49-53 | the fresh ledger has an entry for every registered pick |
| PropertyRun.RowsAfter | development/testing/property/run.py:49-100 | after any iterations the ledger has an entry for a test iff the test is registered |
| PropertyRun.LedgerAfter | development/testing/property/run.py:49-100 | from the fresh ledger, each test's entry is `[its successful picks, its failed picks]` and their sum is how often it was picked |
| PropertyRun.CountersNeverDecrease | development/testing/property/run.py:83-86 | the counters after a prefix of the iterations are at most those after all of them |
| PropertyRun.PrefixCountsNoMore | development/testing/property/run.py:81-88 | a prefix of the iterations has no more successes and no more failures of a test |
| PropertyRun.AlwaysFailing | development/testing/property/run.py:85-88 | a test that raises whenever it is picked has zero successes and as many failures as picks, whatever the other tests do |
| PropertyRun.ReplayAppend | development/testing/property/run.py:81-88 | one more pass of a test with an entry is one more `Record` on the ledger so far |
| PropertyRun.InitialTotal | development/testing/property/run.py:49-53 | the counters of the fresh ledger sum to 0 |
| PropertyRun.RecordAddsOne | development/testing/property/run.py:81-88 | one pass raises the ledger's sum of all counters by exactly 1 |
| PropertyRun.ReplayTotal | development/testing/property/run.py:61-100 | iterations whose tests all have entries raise the sum of all counters by their number |
| PropertyRun.TotalIsIterationCount | development/testing/property/run.py:49-100 | after k iterations from the fresh ledger the counters sum to k |
| PropertyRun.Iterations | development/testing/property/run.py:61-100 | the loop body runs at least once, even with a zero timeout, and at most once per clock reading |
| PropertyRun.IterationsStop | development/testing/property/run.py:99-100 | the last iteration is the first whose elapsed time is strictly greater than the timeout; each earlier one ends within the timeout, equality included |
| PropertyRun.LongerTimeoutRunsNoFewer | development/testing/property/run.py:56-100 | a longer timeout never gives fewer iterations |
| PropertyRun.OverrunIsOneIteration | development/testing/property/run.py:99-100 | the session overruns its timeout by at most the duration of its last iteration |
| PropertyRun.Attempts | development/testing/property/run.py:61-96 | n passes make n attempts |
| PropertyRun.AttemptsAt | development/testing/property/run.py:64-88 | iteration i uses the i-th pick, the seed of the i-th draw and the i-th outcome |
| PropertyRun.AttemptsRegistered | development/testing/property/run.py:68 | when the sampler only picks registered tests, so does every iteration |
| PropertyRun.Trace | development/testing/property/run.py:94-96 | the loop makes two collaborator calls per iteration |
| PropertyRun.IterationEvents | development/testing/property/run.py:94-96 | the update call with the test, seed, flag, message and ledger, then `cleanup_testing_infrastructure(True)`; `TraceAt` states that iteration i makes exactly these calls with the ledger after i + 1 iterations |
| PropertyRun.TraceAppend | development/testing/property/run.py:94-96 | one more pass appends its update and cleanup calls and changes no earlier call |
| PropertyRun.TracePrefix | development/testing/property/run.py:94-96 | the calls of the first k iterations are a prefix of all the calls |
| PropertyRun.TraceAt | development/testing/property/run.py:94-96 | iteration i reports its test, seed, success flag and message, with the ledger as it stands after it, and then cleans up with `True` |
| PropertyRun.Notifications | development/testing/property/run.py:106-107 | only notifications are selected |
| PropertyRun.NotificationsExact | development/testing/property/run.py:106-107 | an event is selected iff it is a notification among the events, so none is dropped |
| PropertyRun.NotificationsOfConcat | development/testing/property/run.py:106-107 | the notifications of two call sequences, one after the other, are the notifications of each in turn |
| PropertyRun.IterationNotifiesNobody | development/testing/property/run.py:94-96 | an iteration sends no notification |
| PropertyRun.TraceNotifiesNobody | development/testing/property/run.py:61-100 | the loop sends no notification |
| PropertyRun.NotifiedOnceUnlessBackground | development/testing/property/run.py:102-107 | a session sends exactly one notification, `('property', hours)`, when not in the background, and none in the background |
| PropertyRun.LoopStep | development/testing/property/run.py:61-100 | one more pass of a registered pick extends the ledger by one `Record` and the calls by that iteration's two |
| PropertyRun.IterationsStep | development/testing/property/run.py:99-100 | the pass that overruns is the last, and one within the timeout is followed by another |
| PropertyRun.Pass | development/testing/property/run.py:63-96 | one pass counts the outcome into the ledger, appends the update call with the new ledger and `cleanup(True)`, runs the test inside `tmp_dir` entered from the current directory, and leaves the directory where it was |
| PropertyRun.Prepare | development/testing/property/run.py:39-58 | before the loop: cleanup, `compile_package(True)` only with `--compile`, cleanup with `False`, and the record canvas with the fresh ledger |
| PropertyRun.Prologue | development/testing/property/run.py:39-58 | the calls before the loop; `Prepare` states that they are made in this order with the fresh ledger |
| PropertyRun.Loop | development/testing/property/run.py:61-100 | the loop runs `Iterations` passes, ends with the replayed ledger, appends the calls `Trace` and leaves the directory as it found it |
| PropertyRun.Conclude | development/testing/property/run.py:102-107 | after the loop: finalize the record, then notify unless in the background |
| PropertyRun.Epilogue | development/testing/property/run.py:102-107 | the calls after the loop; `Conclude` states that they are made with the final ledger, and `NotifiedOnceUnlessBackground` that they notify once unless in the background |
| PropertyRun.SessionLog | development/testing/property/run.py:36-107 | every call of a completed session; `Run` states that the session makes exactly these calls, and `NotifiedOnceUnlessBackground` counts its notifications |
| PropertyRun.Run | development/testing/property/run.py:36-107 | the whole session: the number of iterations, the final ledger and the full sequence of collaborator calls, with the directory unchanged |
| RecordEstimation.Cells | respy/python/record/record_estimation.py:239-246 | one cell per value |
| RecordEstimation.FloatCell | respy/python/record/record_estimation.py:241-244 | one printed number; `CharFloatsAt` states it is `'---'` iff the absolute value exceeds `LARGE_FLOAT` |
| RecordEstimation.CellsAt | respy/python/record/record_estimation.py:240-244 | cell i is the printed form of value i |
| RecordEstimation.CharFloats | respy/python/record/record_estimation.py:232-246 | the list is as long as the input, a single float counting as one value |
| RecordEstimation.CharFloatsAt | respy/python/record/record_estimation.py:240-244 | position i is `'---'` iff value i is strictly above `LARGE_FLOAT` in absolute value, and otherwise shows that value |
| RecordEstimation.CharFloatsSingle | respy/python/record/record_estimation.py:236-237 | a single float prints as the one-element list holding it |
| RecordEstimation.Warnings | respy/python/record/record_estimation.py:189-196 | at most one warning per slot |
| RecordEstimation.WarningsInRange | respy/python/record/record_estimation.py:194-196 | every code is between 1 and the number of slots |
| RecordEstimation.WarningsExact | respy/python/record/record_estimation.py:189-196 | code i + 1 is raised iff slot i is strictly above `LARGE_FLOAT` in absolute value |
| RecordEstimation.WarningsIncreasing | respy/python/record/record_estimation.py:194-196 | the codes are raised in strictly increasing order |
| RecordEstimation.FreeIds | respy/python/record/record_estimation.py:40-42 | at most one identifier per parameter |
| RecordEstimation.FreeIdsAt | respy/python/record/record_estimation.py:40-42 | every listed identifier is a parameter that is not fixed |
| RecordEstimation.FreeIdsExact | respy/python/record/record_estimation.py:167-169 | an identifier is listed iff its parameter is not fixed |
| RecordEstimation.FreeIdsIncreasing | respy/python/record/record_estimation.py:40-42 | the identifiers are listed in strictly increasing order |
| RecordEstimation.FreeRank | respy/python/record/record_estimation.py:39-59 | the k-th free identifier has exactly k free parameters before it |
| RecordEstimation.FreeCountMonotone | respy/python/record/record_estimation.py:39-59 | a prefix of the parameters has no more free ones than the whole |
| RecordEstimation.ScalingTable | respy/python/record/record_estimation.py:39-59 | one row per free parameter |
| RecordEstimation.ScalingEntry | respy/python/record/record_estimation.py:44-53 | the row of parameter i read at position j; `ScalingRowOf` states that j is the number of free parameters before i and each bound is `'---'` iff it is large |
| RecordEstimation.ScalingTableAt | respy/python/record/record_estimation.py:44-57 | row k is for the k-th free parameter and reads position k of the free-parameter arrays |
| RecordEstimation.ScalingRowOf | respy/python/record/record_estimation.py:39-59 | the row of a free parameter i reads position j = the number of free parameters before i (original, scale, transformed value); each bound prints `'---'` iff it is large |
| RecordEstimation.RecordScaling | respy/python/record/record_estimation.py:27-61 | with `is_setup`, the six labels; otherwise exactly the rows of `ScalingTable` |
| RecordEstimation.EvalTable | respy/python/record/record_estimation.py:166-171 | one row per free parameter |
| RecordEstimation.EvalTableAt | respy/python/record/record_estimation.py:167-171 | row k is the k-th free identifier with the printed start, step and current values of that parameter |
| RecordEstimation.TablesAgree | respy/python/record/record_estimation.py:40-42 | the scaling table and the evaluation table list the same identifiers in the same order |
| RecordEstimation.VisitAll | respy/python/record/record_estimation.py:106-124 | visiting slots keeps three slots |
| RecordEstimation.Writes | respy/python/record/record_estimation.py:101-102 | which slots an evaluation writes, decided before the loop from `num_eval` and the best step; `EvalSlots` states the result |
| RecordEstimation.Visit | respy/python/record/record_estimation.py:106-124 | one pass of the slot loop; `EvalSlots` states the state after all three |
| RecordEstimation.EvalUpdate | respy/python/record/record_estimation.py:101-124 | an evaluation keeps three slots |
| RecordEstimation.EvalSlots | respy/python/record/record_estimation.py:101-124 | every evaluation: `num_eval` + 1; slot 2 takes the value and both columns. Slot 0 is written iff `num_eval` was 0, otherwise unchanged. Slot 1 and `num_step` + 1 iff the value is strictly below the best step, otherwise both unchanged. The best step becomes the minimum |
| RecordEstimation.EconColumn | respy/python/record/record_estimation.py:121-124 | the economic column is as long as the parameters |
| RecordEstimation.EconColumnCopies | respy/python/record/record_estimation.py:121-124 | the economic column repeats the parameters except rows 34-43 (shock coefficients) and the type-share rows |
| RecordEstimation.EvaluateAll | respy/python/record/record_estimation.py:101-124 | any run of evaluations keeps three slots |
| RecordEstimation.EvaluateAllSlots | respy/python/record/record_estimation.py:101-124 | over a run: `num_eval` counts the evaluations and `num_step` the strict improvements; the best step is the minimum; the current slot holds the last value and both its columns; from a fresh object the start slot holds the first evaluation's value, parameter column and economic column |
| RecordEstimation.WriteColumn | respy/python/record/record_estimation.py:120-124 | a column assignment replaces that column and nothing else |
| RecordEstimation.Optimizer.EvalRows | respy/python/record/record_estimation.py:165-171 | the loop writes exactly `EvalTable` of the parameter container |
| RecordEstimation.Optimizer.RecordEval | respy/python/record/record_estimation.py:87-196 | the new object state is `EvalUpdate` of the old one; the report holds the new counters, the printed criterion, the rows of the new container and the warnings of the new slots |
| RecordEstimation.RecordScalability | respy/python/record/record_estimation.py:64-79 | only `'Start'` and `'Finish'` succeed; each leaves its own line last; `'Start'` leaves only that line, and `'Finish'` keeps every line before it |
| RecordEstimation.Stamps | respy/python/record/record_estimation.py:64-79 | a run of calls, stopping at the first error; `FinishesAppend`, `LogSinceLastStart` and `FirstErrorIsAssertion` state what it yields |
| RecordEstimation.FinishesAppend | respy/python/record/record_estimation.py:75-77 | `'Finish'` calls keep the lines already in the log and append theirs, in order |
| RecordEstimation.LogSinceLastStart | respy/python/record/record_estimation.py:72-77 | after a `'Start'` followed only by `'Finish'` calls, the log holds exactly those lines: `'Start'` truncates, `'Finish'` appends |
| RecordEstimation.BadCallRaises | respy/python/record/record_estimation.py:78-79 | a call with any other argument raises AssertionError |
| RecordEstimation.FirstErrorIsAssertion | respy/python/record/record_estimation.py:78-79 | the only error a run of calls can end in is AssertionError |

An iteration that ends exactly at the timeout is followed by another, because run.py:99-100 breaks only when `timeout < now - start`. `IterationsStop` states this.

## Left out

- Replay: a pick with no entry would raise KeyError in run.py:83/86; `Replay` leaves the ledger unchanged instead. `Run` requires the sampler to pick only registered tests, so this case never occurs there. The lemmas about counts require `Covers` (every pick has an entry).
- Iterations: the clock is any sequence of readings that eventually exceeds the timeout. Monotonicity is not assumed. A clock that never exceeds the timeout, which would make run.py loop forever, is excluded by the requirement `Overruns`.
- The helpers imported at run.py:24-33 have bodies that are not part of this model. `get_test_dict`, `get_random_request` and `get_testdir` become the inputs `registry`, `sample` and `tmpDir`. The others (`initialize_record_canvas`, `update_testing_record`, `finalize_testing_record`, `cleanup_testing_infrastructure`, `cleanup`, `compile_package` and `send_notification`) are recorded only as the `Event`s passed to them. The sampler's two-stage draw, the directory naming, sandbox removal and the log formats are not modelled.
- `random.randrange` becomes a raw draw reduced into the range. Whether the draw is uniform is not modelled. `np.random.seed`, dynamic import, `getattr` dispatch, `traceback.format_exc` and `argparse` are left out, apart from the ways they can end the session, listed in the next line.
- Run: the model covers only sessions in which nothing outside the `try` raises and `test()` raises only subclasses of `Exception`. Several things can raise outside the `try` (run.py:81-88) and end `run` with an exception:
  - `get_random_request`, `importlib.import_module` or `getattr(mod.TestClass(), method)` (run.py:68-70);
  - `os.mkdir` or `os.chdir` (run.py:78-79, 91);
  - any collaborator call (run.py:39-58, 94-96, 102-107).

  So can a `SystemExit` or `KeyboardInterrupt` from `test()`, which `except Exception` does not catch. Each such exception skips every call after the one that raised: one raised before run.py:102 skips both `finalize_testing_record` (run.py:102) and `send_notification` (run.py:107), and one raised by `finalize_testing_record` skips `send_notification`. An escape from `test()` also skips `os.chdir('../')`, so the process stays inside `tmp_dir`. The model's `SessionLog` always ends with `Epilogue`, and the model has no outcome for an aborted session.
- `datetime.now()` and `timedelta(hours=...)` are left out; the clock is integer readings and the timeout an integer in the same unit. The conversion from `--hours` to the timeout is not modelled.
- Pass: what the test body itself does to the working directory is not modelled. Pass shows that `chdir(tmp_dir)` followed by `chdir('../')` restores the directory, as long as the test returns to where it started.
- Dictionary iteration order is not modelled. The ledger is a map, and the order of the registry's keys does not change the result.
- Optimizer.RecordEval: the Cholesky and covariance code (`extract_cholesky`, `cholesky_to_coeffs`, `dist_econ_paras`, `spectral_condition_number`) is not modelled. Neither is the type-share normalisation (lines 103-104). The Cholesky extraction is at lines 97-98 and the condition numbers at lines 174-181. The shock coefficients and normalised shares come in as inputs.
- Optimizer.RecordEval: the ambiguity success share (lines 148-160), the duration, the date and time, and the condition numbers are floating-point report values and are not modelled.
- RecordScaling, Optimizer.RecordEval: both require well-shaped inputs. `RecordScaling` needs the arrays about free parameters to have an entry for every free parameter (`Fits`). `RecordEval` needs `x` to have `num_paras` entries, the shock coefficients 10 and the shares `num_types`. On shorter or mis-shaped inputs the source raises an `IndexError` (record_estimation.py:44-47) or a numpy shape `ValueError` (lines 120-124), and the model has no outcome for that.
- Optimizer.RecordEval: `record_warning` (record_warning.py) is not part of this model; the warnings are the codes it receives.
- Optimizer.constructor: the optimiser class is defined outside these files. Its construction is modelled with the given criterion values and containers filled with zeros.
- The criterion values are `real`. NaN and infinities are not modelled, and nor is the float formatting `'{:25.15f}'`: a printed number is `Digits(value)`.
- File I/O is left out: `est.respy.log`, `est.respy.info` and `.scalability.respy.log` become the rows, cells and lines written to them.
- `record_estimation_sample`, `record_estimation_stop`, `write_est_info` and `record_estimation_final` only format text into files, and are not modelled.
