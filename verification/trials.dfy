/**
 * The trial runner: cache-first evaluation of an ordered list of experiments
 * against a checkpoint store. Each experiment's key is looked up first; a
 * stored record is used as it is, and only a missing one makes the runner call
 * the evaluation function and save what it returns.
 */
module TrialRunner {

  import opened Wrappers
  import opened Values
  import opened Experiments
  import opened Checkpoints

  /** A runner: its checkpoint store, the evaluation function and the key function. */
  datatype Trials = Trials(checkpoint: Checkpoint, epochFn: Experiment -> Record, keyFn: Experiment -> string)

  /** The result of one experiment and the runner after it. */
  datatype Step = Step(outcome: ExperimentResult, trials: Trials)

  /** The results of a run, in experiment order, and the runner after it. */
  datatype RunResult = RunResult(results: seq<ExperimentResult>, trials: Trials)

  /** `b` has the callbacks of `a`: a run only ever changes the store. */
  ghost predicate SameCallbacks(a: Trials, b: Trials)
  {
    a.epochFn == b.epochFn && a.keyFn == b.keyFn
  }

  /** The keys of a list of experiments. */
  ghost function KeySet(keyFn: Experiment -> string, exps: seq<Experiment>): (keys: set<string>)
  {
    if |exps| == 0 then {} else {keyFn(exps[0])} + KeySet(keyFn, exps[1..])
  }

  /** A key belongs to a list of experiments exactly when some experiment of the list has it. */
  lemma {:induction false} KeySetMembers(keyFn: Experiment -> string, exps: seq<Experiment>, k: string)
    ensures k in KeySet(keyFn, exps) <==> exists i :: 0 <= i < |exps| && keyFn(exps[i]) == k
  {
    if 0 < |exps| {
      KeySetMembers(keyFn, exps[1..], k);
      if k in KeySet(keyFn, exps[1..]) {
        var i :| 0 <= i < |exps| - 1 && keyFn(exps[1..][i]) == k;
        assert exps[i + 1] == exps[1..][i];
      }
      if exists i :: 0 <= i < |exps| && keyFn(exps[i]) == k {
        var i :| 0 <= i < |exps| && keyFn(exps[i]) == k;
        if i > 0 {
          assert exps[1..][i - 1] == exps[i];
        }
      }
    }
  }

  /** No experiment before position `i` has the key of experiment `i`. */
  ghost predicate FirstOfKey(keyFn: Experiment -> string, exps: seq<Experiment>, i: nat)
    requires i < |exps|
  {
    forall j :: 0 <= j < i ==> keyFn(exps[j]) != keyFn(exps[i])
  }

  /** The number of results for which the evaluation function was called. */
  function EvalCount(results: seq<ExperimentResult>): (n: nat)
    ensures n <= |results|
  {
    if |results| == 0 then 0
    else (if results[0].computed then 1 else 0) + EvalCount(results[1..])
  }

  /**
   * One experiment: a stored record under its key is returned unchanged and the
   * evaluation function is not called; otherwise the evaluation function's
   * record is saved under the key and returned.
   */
  function ProcessOne(t: Trials, exp: Experiment): (s: Step)
    ensures SameCallbacks(t, s.trials)
    ensures Extends(t.checkpoint, s.trials.checkpoint)
    ensures Names(s.trials.checkpoint) == Names(t.checkpoint) + {t.keyFn(exp)}
    ensures s.outcome.experiment == exp
    ensures Check(s.trials.checkpoint, t.keyFn(exp)) == Some(s.outcome.result)
    ensures s.outcome.computed <==> t.keyFn(exp) !in Names(t.checkpoint)
    ensures s.outcome.computed ==> s.outcome.result == t.epochFn(exp)
    ensures !s.outcome.computed ==> s.trials == t
  {
    var key := t.keyFn(exp);
    match Check(t.checkpoint, key)
    case Some(rec) => Step(ExperimentResult(exp, rec, false), t)
    case None =>
      var rec := t.epochFn(exp);
      Step(ExperimentResult(exp, rec, true), t.(checkpoint := Save(t.checkpoint, key, rec)))
  }

  /** Position `i + 1` of a list is first of its key iff position `i` of the tail is and the head differs. */
  lemma FirstOfKeyTail(keyFn: Experiment -> string, exps: seq<Experiment>, i: nat)
    requires i + 1 < |exps|
    ensures FirstOfKey(keyFn, exps, i + 1)
        <==> keyFn(exps[0]) != keyFn(exps[i + 1]) && FirstOfKey(keyFn, exps[1..], i)
  {
  }

  /** The keys of a list lie within any set that holds the key of every experiment of the list. */
  lemma {:induction false} KeySetWithin(keyFn: Experiment -> string, exps: seq<Experiment>, within: set<string>)
    requires forall i :: 0 <= i < |exps| ==> keyFn(exps[i]) in within
    ensures KeySet(keyFn, exps) <= within
  {
    if 0 < |exps| {
      assert keyFn(exps[0]) in within;
      forall i | 0 <= i < |exps| - 1 ensures keyFn(exps[1..][i]) in within {
        assert exps[1..][i] == exps[i + 1];
      }
      KeySetWithin(keyFn, exps[1..], within);
    }
  }

  /**
   * A static run over `exps`, in order, threading the store from one
   * experiment to the next. Result `i` belongs to experiment `i`; the store
   * afterwards holds every result under its key and keeps every record it held
   * before, and a result marked computed is the evaluation function's record.
   */
  function RunExperiments(t: Trials, exps: seq<Experiment>): (out: RunResult)
    ensures SameCallbacks(t, out.trials)
    ensures Extends(t.checkpoint, out.trials.checkpoint)
    ensures Names(out.trials.checkpoint) == Names(t.checkpoint) + KeySet(t.keyFn, exps)
    ensures |out.results| == |exps|
    ensures forall i :: 0 <= i < |exps| ==> out.results[i].experiment == exps[i]
    ensures forall i :: 0 <= i < |exps| ==>
              Check(out.trials.checkpoint, t.keyFn(exps[i])) == Some(out.results[i].result)
    ensures forall i :: 0 <= i < |exps| ==>
              out.results[i].computed ==> out.results[i].result == t.epochFn(exps[i])
    decreases |exps|
  {
    if |exps| == 0 then RunResult([], t)
    else
      var s := ProcessOne(t, exps[0]);
      var rest := RunExperiments(s.trials, exps[1..]);
      RunResult([s.outcome] + rest.results, rest.trials)
  }

  /** The first step of a run is `ProcessOne` on the head; the rest is a run on the tail. */
  lemma RunExperimentsCons(t: Trials, exps: seq<Experiment>)
    requires 0 < |exps|
    ensures var s := ProcessOne(t, exps[0]);
            var rest := RunExperiments(s.trials, exps[1..]);
            && RunExperiments(t, exps).results == [s.outcome] + rest.results
            && RunExperiments(t, exps).trials == rest.trials
  {
  }

  /**
   * The evaluation function is called for experiment `i` exactly when its key
   * was not stored before the run and no earlier experiment of the run has it:
   * every key is computed at most once per run.
   */
  lemma {:induction false} ComputedIffFirstMiss(t: Trials, exps: seq<Experiment>, i: nat)
    requires i < |exps|
    ensures RunExperiments(t, exps).results[i].computed
            <==> t.keyFn(exps[i]) !in Names(t.checkpoint) && FirstOfKey(t.keyFn, exps, i)
    decreases |exps|
  {
    var s := ProcessOne(t, exps[0]);
    var rest := RunExperiments(s.trials, exps[1..]);
    RunExperimentsCons(t, exps);
    if i > 0 {
      ComputedIffFirstMiss(s.trials, exps[1..], i - 1);
      FirstOfKeyTail(t.keyFn, exps, i - 1);
      assert exps[1..][i - 1] == exps[i];
    }
  }

  /** Each call of the evaluation function adds exactly one checkpoint; a cache hit adds none. */
  lemma {:induction false} EvalCountIsNewNames(t: Trials, exps: seq<Experiment>)
    ensures |Names(RunExperiments(t, exps).trials.checkpoint)|
            == |Names(t.checkpoint)| + EvalCount(RunExperiments(t, exps).results)
    decreases |exps|
  {
    if 0 < |exps| {
      var s := ProcessOne(t, exps[0]);
      var rest := RunExperiments(s.trials, exps[1..]);
      RunExperimentsCons(t, exps);
      EvalCountIsNewNames(s.trials, exps[1..]);
      assert RunExperiments(t, exps).results[1..] == rest.results;
    }
  }

  /** A key stored before the run is served from the store as it was, without evaluation. */
  lemma {:induction false} CacheHitVerbatim(t: Trials, exps: seq<Experiment>, i: nat)
    requires i < |exps|
    requires t.keyFn(exps[i]) in Names(t.checkpoint)
    ensures !RunExperiments(t, exps).results[i].computed
    ensures Some(RunExperiments(t, exps).results[i].result) == Check(t.checkpoint, t.keyFn(exps[i]))
  {
    ComputedIffFirstMiss(t, exps, i);
  }

  /** When every key is already stored, a run calls the evaluation function zero times and changes nothing. */
  lemma {:induction false} AllCachedRun(t: Trials, exps: seq<Experiment>)
    requires forall i :: 0 <= i < |exps| ==> t.keyFn(exps[i]) in Names(t.checkpoint)
    ensures RunExperiments(t, exps).trials == t
    ensures EvalCount(RunExperiments(t, exps).results) == 0
    ensures forall i :: 0 <= i < |exps| ==>
              Some(RunExperiments(t, exps).results[i].result) == Check(t.checkpoint, t.keyFn(exps[i]))
  {
    var out := RunExperiments(t, exps);
    KeySetWithin(t.keyFn, exps, Names(t.checkpoint));
    assert Names(out.trials.checkpoint) == Names(t.checkpoint);
    assert out.trials.checkpoint.entries == t.checkpoint.entries;
    EvalCountIsNewNames(t, exps);
  }

  /**
   * Running the same experiments again on the store a run left behind gives the
   * same records, calls the evaluation function zero times and leaves the store
   * as it was.
   */
  lemma {:induction false} RerunIsCached(t: Trials, exps: seq<Experiment>)
    ensures var first := RunExperiments(t, exps);
            var second := RunExperiments(first.trials, exps);
            && second.trials == first.trials
            && EvalCount(second.results) == 0
            && |second.results| == |first.results|
            && forall i :: 0 <= i < |exps| ==> second.results[i].result == first.results[i].result
  {
    var first := RunExperiments(t, exps);
    AllCachedRun(first.trials, exps);
  }

  /**
   * On a store holding none of the keys, with keys distinct across the run,
   * every experiment is evaluated once, in order, and its record saved.
   */
  lemma {:induction false} FreshRun(t: Trials, exps: seq<Experiment>)
    requires forall i :: 0 <= i < |exps| ==> t.keyFn(exps[i]) !in Names(t.checkpoint)
    requires forall i, j :: 0 <= i < j < |exps| ==> t.keyFn(exps[i]) != t.keyFn(exps[j])
    ensures forall i :: 0 <= i < |exps| ==>
              && RunExperiments(t, exps).results[i].computed
              && RunExperiments(t, exps).results[i].result == t.epochFn(exps[i])
    ensures EvalCount(RunExperiments(t, exps).results) == |exps|
  {
    var out := RunExperiments(t, exps);
    forall i | 0 <= i < |exps| ensures out.results[i].computed {
      ComputedIffFirstMiss(t, exps, i);
    }
    AllComputedCount(out.results);
  }

  /** A list of results that were all computed counts one evaluation per result. */
  lemma {:induction false} AllComputedCount(results: seq<ExperimentResult>)
    requires forall i :: 0 <= i < |results| ==> results[i].computed
    ensures EvalCount(results) == |results|
  {
    if 0 < |results| {
      AllComputedCount(results[1..]);
    }
  }

  /**
   * Caching is transparent: if every stored record for a key of the run is what
   * the evaluation function gives its experiment, and experiments sharing a key
   * evaluate alike, then every result is the evaluation function's record.
   */
  lemma {:induction false} CacheTransparent(t: Trials, exps: seq<Experiment>, i: nat)
    requires i < |exps|
    requires forall j :: 0 <= j < |exps| && Check(t.checkpoint, t.keyFn(exps[j])).Some? ==>
               Check(t.checkpoint, t.keyFn(exps[j])) == Some(t.epochFn(exps[j]))
    requires forall j, k :: 0 <= j < |exps| && 0 <= k < |exps| && t.keyFn(exps[j]) == t.keyFn(exps[k]) ==>
               t.epochFn(exps[j]) == t.epochFn(exps[k])
    ensures RunExperiments(t, exps).results[i].result == t.epochFn(exps[i])
    decreases i
  {
    var out := RunExperiments(t, exps);
    var key := t.keyFn(exps[i]);
    ComputedIffFirstMiss(t, exps, i);
    if !out.results[i].computed && key !in Names(t.checkpoint) {
      var j :| 0 <= j < i && t.keyFn(exps[j]) == key;
      CacheTransparent(t, exps, j);
      assert Check(out.trials.checkpoint, key) == Some(out.results[j].result);
    }
  }

  /** A static run: the experiments of the expanded parameter list, in index order. */
  function Run(t: Trials, params: seq<Param>): (out: RunResult)
    ensures |out.results| == ExperimentCount(params)
    ensures forall i :: 0 <= i < |out.results| ==> out.results[i].experiment.idx == i
    ensures forall i :: 0 <= i < |out.results| ==> out.results[i].experiment.params == Grid(params)[i]
  {
    RunExperiments(t, Expand(params))
  }

  /** An empty parameter list gives an empty result list and leaves the runner untouched. */
  lemma EmptyRun(t: Trials)
    ensures Run(t, []) == RunResult([], t)
  {
    assert Expand([]) == [];
  }

  /** The keys currently stored by the runner's checkpoint: exactly those `Check` finds. */
  function CheckpointNames(t: Trials): (names: set<string>)
    ensures forall k :: k in names <==> Check(t.checkpoint, k).Some?
  {
    Names(t.checkpoint)
  }

  /** Empties the runner's checkpoint store and keeps everything else. */
  function ClearCheckpoints(t: Trials): (r: Trials)
    ensures CheckpointNames(r) == {}
    ensures SameCallbacks(t, r)
    ensures CheckpointDir(r.checkpoint) == CheckpointDir(t.checkpoint)
  {
    t.(checkpoint := Clear(t.checkpoint))
  }
}
