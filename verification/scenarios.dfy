/**
 * The runner's concrete scenarios with the test callbacks: a first run on an
 * empty store, a second run after one checkpoint is overwritten, and listing
 * and clearing the checkpoints.
 */
module Scenarios {

  import opened Wrappers
  import opened Values
  import opened Experiments
  import opened Checkpoints
  import opened TrialRunner
  import opened Fixtures
  import opened Decimal

  /** A runner with the test callbacks over an empty checkpoint directory. */
  function Fresh(dir: string): (t: Trials)
    ensures CheckpointNames(t) == {}
    ensures CheckpointDir(t.checkpoint) == dir
  {
    Trials(Open(dir, map[]), MockEpoch, KeyGen)
  }

  /** The decimal numerals of the indices `0 .. n - 1`. */
  ghost function IndexKeys(n: nat): (keys: set<string>)
  {
    set i | 0 <= i < n :: NatToString(i)
  }

  /** With the test key function, experiments of one expansion never share a key. */
  lemma ExpandKeysDistinct(params: seq<Param>)
    ensures forall i, j :: 0 <= i < j < |Expand(params)| ==>
              KeyGen(Expand(params)[i]) != KeyGen(Expand(params)[j])
  {
  }

  /** The test keys of an expansion are the numerals of its indices. */
  lemma {:induction false} ExpandKeys(params: seq<Param>)
    ensures KeySet(KeyGen, Expand(params)) == IndexKeys(ExperimentCount(params))
  {
    var exps := Expand(params);
    forall k | k in KeySet(KeyGen, exps) ensures k in IndexKeys(ExperimentCount(params)) {
      KeySetMembers(KeyGen, exps, k);
      var i :| 0 <= i < |exps| && KeyGen(exps[i]) == k;
    }
    forall k | k in IndexKeys(ExperimentCount(params)) ensures k in KeySet(KeyGen, exps) {
      var i :| 0 <= i < ExperimentCount(params) && NatToString(i) == k;
      assert KeyGen(exps[i]) == k;
      KeySetMembers(KeyGen, exps, k);
    }
  }

  /** A first run with the test callbacks on an empty store evaluates every experiment once. */
  lemma {:induction false} FirstRunEvaluatesAll(dir: string, params: seq<Param>)
    ensures var out := Run(Fresh(dir), params);
            && EvalCount(out.results) == ExperimentCount(params)
            && forall i :: 0 <= i < ExperimentCount(params) ==> out.results[i].result == MockEpoch(out.results[i].experiment)
  {
    var t := Fresh(dir);
    var exps := Expand(params);
    assert Run(t, params) == RunExperiments(t, exps);
    ExpandKeysDistinct(params);
    FreshRun(t, exps);
  }

  /**
   * A first run with the test callbacks on an empty store leaves one checkpoint
   * per experiment, named by its index in decimal.
   */
  lemma {:induction false} FirstRunKeys(dir: string, params: seq<Param>)
    ensures var out := Run(Fresh(dir), params);
            && |CheckpointNames(out.trials)| == ExperimentCount(params)
            && CheckpointNames(out.trials) == IndexKeys(ExperimentCount(params))
  {
    var t := Fresh(dir);
    var exps := Expand(params);
    var out := RunExperiments(t, exps);
    assert Run(t, params) == out;
    FirstRunEvaluatesAll(dir, params);
    EvalCountIsNewNames(t, exps);
    ExpandKeys(params);
  }

  /** The numerals of the indices 0 and 1 are "0" and "1". */
  lemma IndexKeysTwo()
    ensures IndexKeys(2) == {"0", "1"}
  {
    SmallKeys();
    assert NatToString(0) in IndexKeys(2) && NatToString(1) in IndexKeys(2);
  }

  /** The two records the first run of the parameter `("param", 2)` produces. */
  function Expected(i: nat): (r: Record)
  {
    map["result" := Int(i), "success" := Bool(i % 2 == 0), "param" := Int(i)]
  }

  /** The test evaluation function on experiment `i` of the parameter `("param", 2)`. */
  lemma MockEpochParam(i: nat)
    ensures MockEpoch(Experiment(map["param" := Int(i)], i)) == Expected(i)
  {
    var r := MockEpoch(Experiment(map["param" := Int(i)], i));
    assert r.Keys == Expected(i).Keys;
  }

  // The scenario lemmas receive the test's parameter list and records as
  // variables fixed by a `requires`: written as literal arguments, they make
  // the verifier unfold the recursive definitions on them until it runs out
  // of resource.

  /** Result `i` of a first run of `("param", 2)` is the expected record `i`. */
  lemma FirstRunRecords(dir: string, params: seq<Param>, i: nat)
    requires params == [("param", 2)]
    requires i < 2
    ensures |Run(Fresh(dir), params).results| == 2
    ensures Run(Fresh(dir), params).results[i].result == Expected(i)
  {
    var first := Run(Fresh(dir), params);
    ExpandSingle("param", 2);
    FirstRunEvaluatesAll(dir, params);
    assert first.results[i].experiment == Experiment(map["param" := Int(i)], i);
    MockEpochParam(i);
  }

  /** `run([("param", 2)])` on an empty store gives the two expected records, in index order. */
  lemma FirstRunScenario(dir: string, params: seq<Param>)
    requires params == [("param", 2)]
    ensures |Run(Fresh(dir), params).results| == 2
    ensures Run(Fresh(dir), params).results[0].result
            == map["result" := Int(0), "success" := Bool(true), "param" := Int(0)]
    ensures Run(Fresh(dir), params).results[1].result
            == map["result" := Int(1), "success" := Bool(false), "param" := Int(1)]
    ensures CheckpointNames(Run(Fresh(dir), params).trials) == {"0", "1"}
  {
    FirstRunRecords(dir, params, 0);
    FirstRunRecords(dir, params, 1);
    assert Expected(0) == map["result" := Int(0), "success" := Bool(true), "param" := Int(0)];
    assert Expected(1) == map["result" := Int(1), "success" := Bool(false), "param" := Int(1)];
    ExpandSingle("param", 2);
    FirstRunKeys(dir, params);
    IndexKeysTwo();
  }

  /**
   * A run of `("param", 2)` with the test key function on a store that already
   * holds "0" and "1" serves both from the store and changes nothing.
   */
  lemma {:induction false} RunOnFullStore(m: Trials, params: seq<Param>)
    requires params == [("param", 2)]
    requires m.keyFn == KeyGen
    requires Names(m.checkpoint) == {"0", "1"}
    ensures |Run(m, params).results| == 2
    ensures Some(Run(m, params).results[0].result) == Check(m.checkpoint, "0")
    ensures Some(Run(m, params).results[1].result) == Check(m.checkpoint, "1")
    ensures EvalCount(Run(m, params).results) == 0
    ensures Run(m, params).trials == m
  {
    var exps := Expand(params);
    ExpandSingle("param", 2);
    SmallKeys();
    assert KeyGen(exps[0]) == "0" && KeyGen(exps[1]) == "1";
    AllCachedRun(m, exps);
    assert Run(m, params) == RunExperiments(m, exps);
  }

  /**
   * After checkpoint "0" is overwritten with `{"result": 3, "success": true}`,
   * a second run returns the overwritten record for index 0 and the stored
   * record for index 1, calls the evaluation function zero times and leaves
   * the store as it found it.
   */
  lemma OverrideScenario(dir: string, params: seq<Param>, overwrite: Record)
    requires params == [("param", 2)]
    requires overwrite == map["result" := Int(3), "success" := Bool(true)]
    ensures var first := Run(Fresh(dir), params);
            var modified := first.trials.(checkpoint := Save(first.trials.checkpoint, "0", overwrite));
            var second := Run(modified, params);
            && |second.results| == 2
            && "result" in second.results[0].result && second.results[0].result["result"] == Int(3)
            && "result" in second.results[1].result && second.results[1].result["result"] == Int(1)
            && second.results[1].result == first.results[1].result
            && EvalCount(second.results) == 0
            && second.trials == modified
  {
    var first := Run(Fresh(dir), params);
    FirstRunScenario(dir, params);
    var modified := first.trials.(checkpoint := Save(first.trials.checkpoint, "0", overwrite));
    assert Names(modified.checkpoint) == {"0", "1"};
    RunOnFullStore(modified, params);
    assert Check(modified.checkpoint, "0") == Some(overwrite);
    assert Check(modified.checkpoint, "1") == Check(first.trials.checkpoint, "1");
    FirstRunEvaluatesAll(dir, params);
    FirstRunKeys(dir, params);
    IndexKeysTwo();
    assert Check(first.trials.checkpoint, "1") == Some(first.results[1].result) by {
      var exps := Expand(params);
      ExpandSingle("param", 2);
      SmallKeys();
      assert Run(Fresh(dir), params) == RunExperiments(Fresh(dir), exps);
      assert KeyGen(exps[1]) == "1";
    }
  }

  /** `run([("a", 2), ("b", 1)])` leaves exactly the checkpoints "0" and "1"; clearing leaves none. */
  lemma NamesAndClearScenario(dir: string, params: seq<Param>)
    requires params == [("a", 2), ("b", 1)]
    ensures CheckpointNames(Run(Fresh(dir), params).trials) == {"0", "1"}
    ensures CheckpointNames(ClearCheckpoints(Run(Fresh(dir), params).trials)) == {}
  {
    assert params[1..] == [("b", 1)];
    assert Product(params[1..][1..]) == 1;
    assert Product(params[1..]) == 1;
    assert ExperimentCount(params) == 2;
    FirstRunKeys(dir, params);
    IndexKeysTwo();
  }
}
