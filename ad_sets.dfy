/**
 * The ad-set rows the dashboard components receive (`adset_name` and
 * `metricas.*`). Which code fills them is not part of this model; every metric
 * may be absent.
 */
module AdSets {
  import opened Wrappers

  datatype AdSetMetrics = AdSetMetrics(
    spend: Option<real>,
    cpa: Option<real>,
    cpm: Option<real>,
    ctr: Option<real>,
    frequency: Option<real>)

  datatype AdSet = AdSet(adsetName: string, metricas: AdSetMetrics)

  /** `x > 0` for a number that may be absent: an absent value compares false. */
  predicate IsPositive(x: Option<real>) {
    x.Some? && x.value > 0.0
  }

  /** The ad set at position `i` passes `filter(a => metric(a.metricas) > 0)`. */
  predicate PositiveAt(adsets: seq<AdSet>, metric: AdSetMetrics -> Option<real>, i: nat)
    requires i < |adsets|
  {
    IsPositive(metric(adsets[i].metricas))
  }

  /** The positions that `filter` keeps, in the order it keeps them. */
  function PositiveIndices(adsets: seq<AdSet>, metric: AdSetMetrics -> Option<real>): (idx: seq<nat>)
    ensures forall k :: 0 <= k < |idx| ==> idx[k] < |adsets|
  {
    if adsets == [] then []
    else
      var shifted := Shift(PositiveIndices(adsets[1..], metric));
      if PositiveAt(adsets, metric, 0) then [0] + shifted else shifted
  }

  /** Every index one further on. */
  function Shift(idx: seq<nat>): (r: seq<nat>)
    ensures |r| == |idx| && forall k :: 0 <= k < |r| ==> r[k] == idx[k] + 1
  {
    seq(|idx|, k requires 0 <= k < |idx| => idx[k] + 1)
  }

  /** Only positions whose metric is positive are kept. */
  lemma {:induction false} PositiveIndicesSound(adsets: seq<AdSet>, metric: AdSetMetrics -> Option<real>)
    ensures forall k :: 0 <= k < |PositiveIndices(adsets, metric)| ==>
      PositiveAt(adsets, metric, PositiveIndices(adsets, metric)[k])
  {
    if adsets != [] {
      var rest := PositiveIndices(adsets[1..], metric);
      PositiveIndicesSound(adsets[1..], metric);
      forall k | 0 <= k < |rest|
        ensures PositiveAt(adsets, metric, rest[k] + 1)
      {
        assert PositiveAt(adsets[1..], metric, rest[k]);
        assert adsets[1..][rest[k]] == adsets[rest[k] + 1];
      }
    }
  }

  /** The kept positions are strictly increasing: each once, in input order. */
  lemma {:induction false} PositiveIndicesIncreasing(adsets: seq<AdSet>, metric: AdSetMetrics -> Option<real>)
    ensures forall k, l :: 0 <= k < l < |PositiveIndices(adsets, metric)| ==>
      PositiveIndices(adsets, metric)[k] < PositiveIndices(adsets, metric)[l]
  {
    if adsets != [] {
      var rest := PositiveIndices(adsets[1..], metric);
      var shifted := Shift(rest);
      PositiveIndicesIncreasing(adsets[1..], metric);
      assert forall k, l :: 0 <= k < l < |rest| ==> rest[k] < rest[l];
      assert forall k, l :: 0 <= k < l < |shifted| ==> shifted[k] < shifted[l];
      if PositiveAt(adsets, metric, 0) {
        var idx := [0] + shifted;
        forall k, l | 0 <= k < l < |idx|
          ensures idx[k] < idx[l]
        {
          assert idx[l] == shifted[l - 1];
        }
      }
    }
  }

  /** Every position whose metric is positive is kept. */
  lemma {:induction false} PositiveIndicesComplete(adsets: seq<AdSet>, metric: AdSetMetrics -> Option<real>)
    ensures forall i :: 0 <= i < |adsets| && PositiveAt(adsets, metric, i) ==> i in PositiveIndices(adsets, metric)
  {
    if adsets != [] {
      var rest := PositiveIndices(adsets[1..], metric);
      var shifted := Shift(rest);
      PositiveIndicesComplete(adsets[1..], metric);
      forall i | 1 <= i < |adsets| && PositiveAt(adsets, metric, i)
        ensures i in shifted
      {
        assert adsets[1..][i - 1] == adsets[i];
        assert PositiveAt(adsets[1..], metric, i - 1);
        var k :| 0 <= k < |rest| && rest[k] == i - 1;
        assert shifted[k] == i;
      }
    }
  }
}
