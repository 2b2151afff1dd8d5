/**
 * The CPA bar list: ad sets with a positive CPA, cheapest first, each bar red
 * when its CPA is above 50 and green otherwise.
 */
module CPAHorizontalBar {
  import opened Wrappers
  import opened Sorting
  import opened AdSets

  datatype Bar = Bar(name: string, cpa: real)

  datatype BarColor = Green | Red

  /** The CPA above which a bar is drawn red. */
  const RedAbove: real := 50.0

  function Cpa(b: Bar): real {
    b.cpa
  }

  /** `adsets.filter(a => a.metricas.cpa > 0).map(a => ({ name: a.adset_name, cpa: a.metricas.cpa }))`. */
  function PositiveBars(adsets: seq<AdSet>): (r: seq<Bar>)
    ensures |r| <= |adsets|
    ensures forall i :: 0 <= i < |r| ==> r[i].cpa > 0.0
    ensures forall b :: b in r ==> exists a :: a in adsets && a.adsetName == b.name && a.metricas.cpa == Some(b.cpa)
    ensures forall a :: a in adsets && IsPositive(a.metricas.cpa) ==> Bar(a.adsetName, a.metricas.cpa.value) in r
  {
    if adsets == [] then []
    else
      var rest := PositiveBars(adsets[1..]);
      assert forall a :: a in adsets[1..] ==> a in adsets;
      if IsPositive(adsets[0].metricas.cpa) then
        [Bar(adsets[0].adsetName, adsets[0].metricas.cpa.value)] + rest
      else rest
  }

  /** The metric the bar list filters on. */
  function CpaOf(m: AdSetMetrics): Option<real> {
    m.cpa
  }

  /**
   * `filter` then `map`: one bar per ad set with a positive CPA, in input
   * order, each named and valued from its own ad set.
   */
  lemma {:induction false} PositiveBarsInOrder(adsets: seq<AdSet>)
    ensures |PositiveBars(adsets)| == |PositiveIndices(adsets, CpaOf)|
    ensures forall k :: 0 <= k < |PositiveBars(adsets)| ==>
      var a := adsets[PositiveIndices(adsets, CpaOf)[k]];
      PositiveBars(adsets)[k].name == a.adsetName && Some(PositiveBars(adsets)[k].cpa) == a.metricas.cpa
  {
    if adsets != [] {
      var r := PositiveBars(adsets);
      var rest := PositiveBars(adsets[1..]);
      var idx := PositiveIndices(adsets, CpaOf);
      var restIdx := PositiveIndices(adsets[1..], CpaOf);
      PositiveBarsInOrder(adsets[1..]);
      assert PositiveAt(adsets, CpaOf, 0) == IsPositive(adsets[0].metricas.cpa);
      var offset := if IsPositive(adsets[0].metricas.cpa) then 1 else 0;
      assert r[offset..] == rest;
      assert idx[offset..] == Shift(restIdx);
      forall k | offset <= k < |r|
        ensures r[k].name == adsets[idx[k]].adsetName && Some(r[k].cpa) == adsets[idx[k]].metricas.cpa
      {
        assert r[k] == rest[k - offset];
        assert idx[k] == restIdx[k - offset] + 1;
        assert adsets[1..][restIdx[k - offset]] == adsets[idx[k]];
      }
    }
  }

  /** `data`, or `None` when the component renders nothing: the positive-CPA bars in ascending CPA. */
  function ChartData(adsets: Option<seq<AdSet>>): (r: Option<seq<Bar>>)
    ensures r.None? <==> adsets.None? || adsets.value == []
    ensures r.Some? ==>
      && |r.value| <= |adsets.value|
      && multiset(r.value) == multiset(PositiveBars(adsets.value))
      && (forall i, j :: 0 <= i < j < |r.value| ==> r.value[i].cpa <= r.value[j].cpa)
      && (forall b :: b in r.value ==>
            b.cpa > 0.0 && exists a :: a in adsets.value && a.adsetName == b.name && a.metricas.cpa == Some(b.cpa))
  {
    match adsets
    case None => None
    case Some(rows) =>
      if rows == [] then None
      else
        var bars := PositiveBars(rows);
        var sorted := SortBy(bars, Cpa);
        assert forall b :: b in sorted ==> b in bars by {
          forall b | b in sorted ensures b in bars {
            assert b in multiset(sorted);
          }
        }
        Some(sorted)
  }

  /** `entry.cpa > 50 ? red : green`. */
  function Color(cpa: real): (c: BarColor)
    ensures c == Red <==> cpa > RedAbove
  {
    if cpa > RedAbove then Red else Green
  }

  /** A cheaper bar is never red when a dearer one is green. */
  lemma ColorMonotone(x: real, y: real)
    requires x <= y && Color(x) == Red
    ensures Color(y) == Red
  {
  }
}
