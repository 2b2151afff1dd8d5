/**
 * The spend-share donut: ad sets with a positive spend, largest first, and,
 * when there are more than five, the fifth slice onwards folded into one
 * `'Outros'` slice.
 */
module DonutChart {
  import opened Wrappers
  import opened Sorting
  import opened AdSets

  datatype Slice = Slice(name: string, value: real)

  /** How many slices are drawn at most; a longer list keeps `MaxSlices - 1` and adds `'Outros'`. */
  const MaxSlices: nat := 5

  /** How many of the largest slices survive the folding. */
  const KeptSlices: nat := 4

  const OthersName: string := "Outros"

  function Value(s: Slice): real {
    s.value
  }

  function NegatedValue(s: Slice): real {
    -s.value
  }

  /** `adsets.filter(a => a.metricas.spend > 0).map(a => ({ name: a.adset_name, value: a.metricas.spend }))`. */
  function PositiveSlices(adsets: seq<AdSet>): (r: seq<Slice>)
    ensures |r| <= |adsets|
    ensures forall i :: 0 <= i < |r| ==> r[i].value > 0.0
    ensures forall x :: x in r ==> exists a :: a in adsets && a.adsetName == x.name && a.metricas.spend == Some(x.value)
    ensures forall a :: a in adsets && IsPositive(a.metricas.spend) ==> Slice(a.adsetName, a.metricas.spend.value) in r
  {
    if adsets == [] then []
    else
      var rest := PositiveSlices(adsets[1..]);
      assert forall a :: a in adsets[1..] ==> a in adsets;
      if IsPositive(adsets[0].metricas.spend) then
        [Slice(adsets[0].adsetName, adsets[0].metricas.spend.value)] + rest
      else rest
  }

  /** The metric the donut filters on. */
  function SpendOf(m: AdSetMetrics): Option<real> {
    m.spend
  }

  /**
   * `filter` then `map`: one slice per ad set with a positive spend, in input
   * order, each named and valued from its own ad set.
   */
  lemma {:induction false} PositiveSlicesInOrder(adsets: seq<AdSet>)
    ensures |PositiveSlices(adsets)| == |PositiveIndices(adsets, SpendOf)|
    ensures forall k :: 0 <= k < |PositiveSlices(adsets)| ==>
      var a := adsets[PositiveIndices(adsets, SpendOf)[k]];
      PositiveSlices(adsets)[k].name == a.adsetName && Some(PositiveSlices(adsets)[k].value) == a.metricas.spend
  {
    if adsets != [] {
      var r := PositiveSlices(adsets);
      var rest := PositiveSlices(adsets[1..]);
      var idx := PositiveIndices(adsets, SpendOf);
      var restIdx := PositiveIndices(adsets[1..], SpendOf);
      PositiveSlicesInOrder(adsets[1..]);
      assert PositiveAt(adsets, SpendOf, 0) == IsPositive(adsets[0].metricas.spend);
      var offset := if IsPositive(adsets[0].metricas.spend) then 1 else 0;
      assert r[offset..] == rest;
      assert idx[offset..] == Shift(restIdx);
      forall k | offset <= k < |r|
        ensures r[k].name == adsets[idx[k]].adsetName && Some(r[k].value) == adsets[idx[k]].metricas.spend
      {
        assert r[k] == rest[k - offset];
        assert idx[k] == restIdx[k - offset] + 1;
        assert adsets[1..][restIdx[k - offset]] == adsets[idx[k]];
      }
    }
  }

  /** The total spend of the ad sets that spent something: the reference for the chart's total. */
  function PositiveSpend(adsets: seq<AdSet>): real {
    if adsets == [] then 0.0
    else
      (if IsPositive(adsets[0].metricas.spend) then adsets[0].metricas.spend.value else 0.0)
      + PositiveSpend(adsets[1..])
  }

  lemma {:induction false} PositiveSlicesTotal(adsets: seq<AdSet>)
    ensures Total(PositiveSlices(adsets), Value) == PositiveSpend(adsets)
  {
    if adsets != [] {
      PositiveSlicesTotal(adsets[1..]);
    }
  }

  /** `data`: the positive slices, largest first. */
  function Ordered(adsets: seq<AdSet>): (r: seq<Slice>)
    ensures multiset(r) == multiset(PositiveSlices(adsets))
    ensures forall i, j :: 0 <= i < j < |r| ==> r[i].value >= r[j].value
  {
    var r := SortBy(PositiveSlices(adsets), NegatedValue);
    assert SortedBy(r, NegatedValue);
    assert forall i, j | 0 <= i < j < |r| :: r[i].value >= r[j].value by {
      forall i, j | 0 <= i < j < |r|
        ensures r[i].value >= r[j].value
      {
        assert NegatedValue(r[i]) <= NegatedValue(r[j]);
      }
    }
    r
  }

  /** Ordering the slices keeps the total of the positive spends. */
  lemma OrderedTotal(adsets: seq<AdSet>)
    ensures Total(Ordered(adsets), Value) == PositiveSpend(adsets)
  {
    TotalSortBy(PositiveSlices(adsets), NegatedValue, Value);
    PositiveSlicesTotal(adsets);
  }

  /**
   * `chartData`, or `None` when the component renders nothing: at most five
   * slices, the largest first, and the same total as the positive spends.
   */
  method ChartData(adsets: Option<seq<AdSet>>) returns (r: Option<seq<Slice>>)
    ensures r.None? <==> adsets.None? || adsets.value == []
    ensures r.Some? ==>
      var data := Ordered(adsets.value);
      && |r.value| <= MaxSlices
      && (|data| <= MaxSlices ==> r.value == data)
      && (|data| > MaxSlices ==>
            && |r.value| == MaxSlices
            && r.value[..KeptSlices] == data[..KeptSlices]
            && r.value[KeptSlices] == Slice(OthersName, Total(data[KeptSlices..], Value)))
      && Total(r.value, Value) == PositiveSpend(adsets.value)
  {
    if adsets.None? || |adsets.value| == 0 {
      return None;
    }
    var data := Ordered(adsets.value);
    OrderedTotal(adsets.value);
    var chartData := data;
    if |data| > MaxSlices {
      chartData := data[..KeptSlices];
      var othersSpend := Total(data[KeptSlices..], Value);
      chartData := chartData + [Slice(OthersName, othersSpend)];
      assert data == data[..KeptSlices] + data[KeptSlices..];
      TotalAppend(data[..KeptSlices], data[KeptSlices..], Value);
      TotalAppend(data[..KeptSlices], [Slice(OthersName, othersSpend)], Value);
    }
    r := Some(chartData);
  }
}
