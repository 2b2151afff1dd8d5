/**
 * The single-metric trend chart. It shapes its data with its own copy of the
 * trend chart's sort and formulas; the model keeps that copy and proves it
 * gives the same points.
 */
module MetricTrendChart {
  import opened Wrappers
  import opened Sorting
  import TrendChart

  /** The derived figures of one day, as this component writes them. */
  function Derive(d: TrendChart.Day): (p: TrendChart.Point)
    ensures p == TrendChart.Derive(d)
  {
    TrendChart.Point(
      d,
      if d.conversoes > 0.0 then d.spend / d.conversoes else 0.0,
      if d.spend > 0.0 then d.revenue / d.spend else 0.0,
      if d.impressions > 0.0 then (d.spend / d.impressions) * 1000.0 else 0.0,
      if d.impressions > 0.0 then (d.clicks / d.impressions) * 100.0 else 0.0)
  }

  /** `chartData` of this component; it equals the trend chart's for every input. */
  function ChartData(data: Option<seq<TrendChart.Day>>): (r: Option<seq<TrendChart.Point>>)
    ensures r == TrendChart.ChartData(data)
  {
    match data
    case None => None
    case Some(rows) =>
      if rows == [] then None
      else
        var sorted := SortBy(rows, TrendChart.DateKey);
        var points := seq(|sorted|, i requires 0 <= i < |sorted| => Derive(sorted[i]));
        var reference := TrendChart.ChartData(data).value;
        assert |reference| == |points|;
        assert forall i :: 0 <= i < |points| ==> points[i] == reference[i];
        assert points == reference;
        Some(points)
  }
}
