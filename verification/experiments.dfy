/**
 * Experiments and their results, and the expansion of a runner's
 * `(name, count)` parameter list into the ordered list of experiments.
 */
module Experiments {

  import opened Values

  /** One unit of work: its parameters and its position in the run. */
  datatype Experiment = Experiment(params: Record, idx: nat)

  /**
   * The outcome of one experiment. `computed` records whether the evaluation
   * function was called for it (true) or the record came from the checkpoint
   * store (false); it is bookkeeping of the model, not a field of the source.
   */
  datatype ExperimentResult = ExperimentResult(experiment: Experiment, result: Record, computed: bool)

  /** A parameter name with the number of values it takes, `0 .. count - 1`. */
  type Param = (string, nat)

  /** Number of combinations of a parameter list: the product of the counts. */
  function Product(params: seq<Param>): (n: nat)
  {
    if |params| == 0 then 1 else params[0].1 * Product(params[1..])
  }

  /** Number of experiments of a static run: none for an empty list, else one per combination. */
  function ExperimentCount(params: seq<Param>): (n: nat)
  {
    if |params| == 0 then 0 else Product(params)
  }

  /**
   * Every combination of the parameter values, the last parameter varying
   * fastest. When a name occurs twice, the earlier parameter's value wins.
   */
  function Grid(params: seq<Param>): (g: seq<Record>)
    ensures |g| == Product(params)
  {
    if |params| == 0 then [map[]]
    else
      var (name, count) := params[0];
      var rest := Grid(params[1..]);
      if |rest| == 0 then []
      else seq(count * |rest|, k requires 0 <= k < count * |rest| =>
                 rest[k % |rest|][name := Int(k / |rest|)])
  }

  /**
   * The experiments of a static run: combination `i` becomes experiment `i`.
   * An empty parameter list gives no experiments at all.
   */
  function Expand(params: seq<Param>): (exps: seq<Experiment>)
    ensures |exps| == ExperimentCount(params)
    ensures params == [] ==> exps == []
    ensures forall i :: 0 <= i < |exps| ==> exps[i].idx == i
    ensures forall i :: 0 <= i < |exps| ==> exps[i].params == Grid(params)[i]
  {
    if |params| == 0 then []
    else
      var g := Grid(params);
      seq(|g|, i requires 0 <= i < |g| => Experiment(g[i], i))
  }

  /** With a single parameter `(name, n)` there are `n` experiments and experiment `i` has `{name: i}`. */
  lemma ExpandSingle(name: string, n: nat)
    ensures |Expand([(name, n)])| == n
    ensures forall i :: 0 <= i < n ==> Expand([(name, n)])[i] == Experiment(map[name := Int(i)], i)
  {
    var params := [(name, n)];
    assert params[1..] == [];
    var rest := Grid(params[1..]);
    assert rest == [map[]];
    var g := Grid(params);
    forall i | 0 <= i < n
      ensures g[i] == map[name := Int(i)]
    {
      assert i % 1 == 0 && i / 1 == i;
      assert g[i] == rest[i % |rest|][name := Int(i / |rest|)];
    }
  }
}
