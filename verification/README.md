# trialist: checkpointed experiment runner, in Dafny

trialist runs a list of parameterised experiments and caches each result in a
checkpoint directory. The runner (`Trials`) takes a checkpoint store
(`Checkpoint`), an evaluation function and a key function. Before it evaluates
an experiment, it looks up the experiment's key. If a record is stored under
that key, the runner returns it unchanged and skips the evaluation function.
Otherwise it calls the evaluation function, saves the record under the key and
returns it.

This model describes that behaviour as pure functions over immutable values:

- `values.dfy`, `wrappers.dfy`: a record is a `map<string, Value>`; a lookup returns an `Option`.
- `checkpoint.dfy` (module `Checkpoints`): the store is modelled as a directory path plus a map from key (the file name) to record. It provides `Open`, `CheckpointDir`, `Names`, `Check`, `Save`, `Discard` and `Clear`.
- `experiments.dfy` (module `Experiments`): `Experiment(params, idx)` and `ExperimentResult`. It also expands a `(name, count)` parameter list into experiments `0 .. n-1`.
- `trials.dfy` (module `TrialRunner`): `ProcessOne` handles one experiment, cache first. `RunExperiments` / `Run` fold `ProcessOne` over the experiments in order. It also has `CheckpointNames` and `ClearCheckpoints`, plus the run-level lemmas (cache hits, reruns, fresh runs, transparency).
- `decimal.dfy` (module `Decimal`): the decimal rendering of an index and its inverse.
- `fixtures.dfy` (module `Fixtures`): the test callbacks `mock_epoch_fn` (`MockEpoch`) and `key_gen` (`KeyGen`).
- `scenarios.dfy` (module `Scenarios`): the concrete runs of the test suite, proved as lemmas.

Each `ExperimentResult` carries a `computed` flag. The source's result objects have no such field. It records whether the evaluation function was called, so that "a cache hit does not evaluate" can be stated; `EvalCount` counts the calls of a run.

The `trialist` package's implementation is not part of this model. Its behaviour is taken from the repository's test suite (`tests/test_checkpoint.py`, `tests/test_trials.py`, `tests/conftest.py`). The docstring at `tests/test_checkpoint.py:42` says `check` returns the record "when the log_file exists". Yet the test body (lines 45-49) never creates `log.txt` and still expects the record back. So the suite gives no log-file validity condition, and `Check` applies none.

The test at `tests/test_trials.py:30-32` overwrites the first checkpoint file with `joblib.dump` directly. This is modelled as `Save` of the new record under `"0"`. That is the first of the sorted names, since `FirstRunScenario` proves the names are exactly `{"0", "1"}`.

## Model

| member | source | states |
|---|---|---|
| Checkpoints.Open | tests/test_checkpoint.py:18-21 | `CheckpointDir` reports exactly the directory given at construction, `Names` lists exactly the keys of the files already in it, and `Check` returns each file's record |
| Checkpoints.Check | tests/test_checkpoint.py:41-56 | a record is returned exactly when one is stored under the key; otherwise `None` |
| Checkpoints.Save | tests/test_checkpoint.py:24-38 | after a save the key is listed and reading it returns the saved record; every other key and the directory are unchanged |
| Checkpoints.SaveLastWins | tests/test_trials.py:30-36 | a save overwrites: after two saves under one key the store is as if only the last had happened |
| Checkpoints.Discard | tests/test_checkpoint.py:59-77 | afterwards the key is absent and nothing else changes; discarding a missing key is a no-op |
| Checkpoints.DiscardIdempotent | tests/test_checkpoint.py:59-77 | discarding twice gives the same store as discarding once |
| Checkpoints.DiscardUndoesSave | tests/test_checkpoint.py:59-68 | discarding a key just saved leaves no trace of the save |
| Checkpoints.Clear | tests/test_trials.py:52-54 | after clearing no key is listed and every lookup misses; the directory stays the same |
| Experiments.Grid | tests/test_trials.py:48-50 | the number of parameter combinations is the product of the counts (two for `[("a",2),("b",1)]`) |
| Experiments.Expand | tests/test_trials.py:19-25 | one experiment per combination, experiment `i` has index `i` and the params of combination `i`; an empty parameter list gives no experiments |
| Experiments.ExpandSingle | tests/test_trials.py:19-25 | for one parameter `(name, n)` there are `n` experiments and experiment `i` has params `{name: i}` |
| TrialRunner.ProcessOne | tests/test_trials.py:30-37 | a stored record is returned verbatim without evaluation and the runner is unchanged; a miss evaluates, saves the record under the key and returns it; afterwards the key reads back the returned record |
| TrialRunner.RunExperiments | tests/test_trials.py:19-37 | result `i` belongs to experiment `i`; the store keeps every record it held and gains exactly the run's keys; each key reads back its result; a computed result is the evaluation function's record |
| TrialRunner.ComputedIffFirstMiss | tests/test_trials.py:34-37 | experiment `i` is evaluated if and only if its key was not stored before the run and no earlier experiment used it |
| TrialRunner.EvalCountIsNewNames | tests/test_trials.py:48-50 | the number of evaluations equals the number of checkpoints the run adds |
| TrialRunner.CacheHitVerbatim | tests/test_trials.py:30-36 | a key stored before the run yields the currently stored record, not a recomputation |
| TrialRunner.AllCachedRun | tests/test_trials.py:34-37 | if every key is already stored, the run makes zero evaluation calls and leaves the runner unchanged |
| TrialRunner.RerunIsCached | tests/test_trials.py:27-37 | rerunning on the store a run left gives equal records, zero evaluations and an unchanged store |
| TrialRunner.FreshRun | tests/test_trials.py:18-25 | with distinct keys none of which is stored, every experiment is evaluated exactly once |
| TrialRunner.AllComputedCount | tests/test_trials.py:18-25 | counting step of `FreshRun`: a result list whose entries were all computed counts one evaluation per result |
| TrialRunner.CacheTransparent | tests/test_trials.py:34-37 | when the stored records are the evaluation function's own and shared keys evaluate alike, every result is the evaluation function's record |
| TrialRunner.Run | tests/test_trials.py:19-25 | a static run returns one result per experiment of the expansion (none for an empty list), in index order, each carrying its combination's params |
| TrialRunner.EmptyRun | tests/test_trials.py:19 | running an empty parameter list returns no results and leaves the runner and its store untouched (not exercised by the test suite) |
| TrialRunner.CheckpointNames | tests/test_trials.py:48-54 | the runner's `checkpoint_names` are exactly the keys for which the store's `check` finds a record |
| TrialRunner.ClearCheckpoints | tests/test_trials.py:52-54 | after clearing, the runner lists no checkpoint names and keeps its callbacks and directory |
| Decimal.NatToString | tests/conftest.py:37 | the key is a non-empty string of digits without a leading zero |
| Decimal.ParseNatToString | tests/conftest.py:37 | reading the decimal key back gives the index |
| Decimal.NatToStringInjective | tests/conftest.py:37 | two indices have the same key exactly when they are equal |
| Fixtures.MockEpoch | tests/conftest.py:28-29 | the record has the params' keys plus "success" and "result"; every param keeps its value and overrides on a clash; otherwise "success" is true iff the index is even and "result" is the index |
| Fixtures.KeyGen | tests/conftest.py:35-37 | the key is a non-empty digit string with no leading zero that parses back to the experiment's index, which determines it as `f"{idx}"` |
| Fixtures.KeyGenInjective | tests/conftest.py:37 | two experiments share a key exactly when they share an index |
| Scenarios.Fresh | tests/test_trials.py:15-16 | a runner over a new, empty directory lists no names and reports that directory |
| Scenarios.ExpandKeysDistinct | tests/conftest.py:37 | experiments of one expansion never share a test key |
| Scenarios.FirstRunEvaluatesAll | tests/test_trials.py:19-25 | a first run with the test callbacks on an empty store evaluates every experiment once, and each result is the evaluation function's record for its experiment |
| Scenarios.FirstRunKeys | tests/test_trials.py:48-50 | a first run on an empty store leaves exactly one checkpoint per index, named by the index in decimal |
| Scenarios.FirstRunScenario | tests/test_trials.py:19-25 | `run([("param",2)])` gives `{"result":0,"success":true,"param":0}` then `{"result":1,"success":false,"param":1}`, and the names are `{"0","1"}` |
| Scenarios.RunOnFullStore | tests/test_trials.py:34-37 | a second run of `("param",2)` on a store holding "0" and "1" returns the two stored records, makes zero evaluations and changes nothing |
| Scenarios.OverrideScenario | tests/test_trials.py:27-37 | after "0" is overwritten with `{"result":3,"success":true}`, a second run gives result 3 for index 0 and the unchanged stored record (result 1) for index 1, with zero evaluations and an unchanged store |
| Scenarios.NamesAndClearScenario | tests/test_trials.py:40-54 | `run([("a",2),("b",1)])` leaves exactly the names `{"0","1"}`, and clearing leaves none |

## Left out

- Dynamic, generator-driven runs (`run_dynamic` of the `Trial` runner): the test suite does not exercise them.
- Log-file validity check: the test suite expects a record back even when its `log_file` does not exist (see above), so `Check` applies no validity rule.
- Corrupt or unreadable checkpoint files: nothing in the test suite exercises them. The file with text "x" at `tests/test_checkpoint.py:64` stands for an arbitrary stored record, since `Discard` does not look at content.
- Serialization with joblib: records are stored as values, not bytes.
- The file system itself (paths, file creation, `iterdir`): it is replaced by the map from key to record, and a path is a string.
- The `clear_names` constructor flag of `Checkpoint`: its effect is not visible in the test suite.
- Ordering of parameter combinations for several parameters: the model fixes the last parameter varying fastest, with the earlier parameter winning on a repeated name. The count of combinations for several parameters is the model's choice as well: the test suite observes only two counts, 2 for `[("param",2)]` and 2 for `[("a",2),("b",1)]`, which a product and a maximum of the counts both give. The model takes the product (none for an empty list); only those two counts and the single-parameter shape are observed.
- Failures: evaluation-function exceptions and storage I/O errors. The evaluation function is a total Dafny function.
- Purity of the evaluation function: every Dafny function is deterministic, so recomputing an experiment gives an equal record by construction. No separate lemma states it; `CacheTransparent` is the consequence that matters.
- Python value semantics beyond ints, booleans and strings (for instance `True == 1` in dict comparison): values are a three-case datatype.
- TrialRunner.CheckpointNames: a set, where the source returns a list (`tests/test_trials.py:53` compares it with `[]`). A directory listing has no duplicates and the tests sort it before comparing, so only the order is lost.
- Logging and pytest fixture plumbing (temporary directories, session clean-up).
