/**
 * The runner's test callbacks: an evaluation function that reports the
 * experiment's index, its parity and its parameters, and a key function that
 * names each checkpoint by the experiment's index in decimal.
 */
module Fixtures {

  import opened Values
  import opened Experiments
  import opened Decimal

  /**
   * `{"success": idx is even, "result": idx, **params}`: the parameters are
   * spread last, so a parameter named "success" or "result" overrides.
   */
  function MockEpoch(exp: Experiment): (r: Record)
    ensures r.Keys == exp.params.Keys + {"success", "result"}
    ensures forall k :: k in exp.params ==> r[k] == exp.params[k]
    ensures "success" !in exp.params ==> (r["success"] == Bool(true) <==> exp.idx % 2 == 0)
    ensures "success" !in exp.params ==> r["success"].Bool?
    ensures "result" !in exp.params ==> r["result"] == Int(exp.idx)
  {
    map["success" := Bool(exp.idx % 2 == 0), "result" := Int(exp.idx)] + exp.params
  }

  /**
   * The decimal numeral of the experiment's index, as `f"{idx}"` writes it:
   * non-empty, digits only, no leading zero, and it reads back as the index.
   * These four facts leave exactly one string for each index.
   */
  function KeyGen(exp: Experiment): (key: string)
    ensures 1 <= |key|
    ensures AllDigits(key)
    ensures 1 < |key| ==> key[0] != '0'
    ensures Parse(key) == exp.idx
  {
    ParseNatToString(exp.idx);
    NatToString(exp.idx)
  }

  /** Two experiments share a key exactly when they share an index. */
  lemma KeyGenInjective(a: Experiment, b: Experiment)
    ensures KeyGen(a) == KeyGen(b) <==> a.idx == b.idx
  {
  }

  /** The keys of the first two indices. */
  lemma SmallKeys()
    ensures NatToString(0) == "0"
    ensures NatToString(1) == "1"
  {
  }
}
