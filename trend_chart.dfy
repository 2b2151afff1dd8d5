/**
 * The daily trend chart's data: a copy of the account's daily rows sorted by
 * date, each row extended with CPA, ROAS, CPM and CTR computed from its own
 * figures, every ratio guarded against a zero denominator.
 */
module TrendChart {
  import opened Wrappers
  import opened Sorting

  /**
   * One day of the account trend. `date` is the day as an ordered key (the
   * chart compares `new Date(date)` values); the other fields are numbers.
   */
  datatype Day = Day(date: int, spend: real, impressions: real, clicks: real, revenue: real, conversoes: real)

  /** One plotted point: the day's own fields, carried over, and the derived figures. */
  datatype Point = Point(day: Day, cpa: real, roas: real, cpm: real, ctr: real)

  function DateKey(d: Day): real {
    d.date as real
  }

  /** The derived figures of one day. */
  function Derive(d: Day): (p: Point)
    ensures p.day == d
    ensures d.conversoes > 0.0 ==> p.cpa * d.conversoes == d.spend
    ensures d.conversoes <= 0.0 ==> p.cpa == 0.0
    ensures d.spend > 0.0 ==> p.roas * d.spend == d.revenue
    ensures d.spend <= 0.0 ==> p.roas == 0.0
    ensures d.impressions > 0.0 ==> p.cpm * d.impressions == d.spend * 1000.0
    ensures d.impressions > 0.0 ==> p.ctr * d.impressions == d.clicks * 100.0
    ensures d.impressions <= 0.0 ==> p.cpm == 0.0 && p.ctr == 0.0
  {
    Point(
      d,
      if d.conversoes > 0.0 then d.spend / d.conversoes else 0.0,
      if d.spend > 0.0 then d.revenue / d.spend else 0.0,
      if d.impressions > 0.0 then (d.spend / d.impressions) * 1000.0 else 0.0,
      if d.impressions > 0.0 then (d.clicks / d.impressions) * 100.0 else 0.0)
  }

  /** The days behind a list of points. */
  function Days(points: seq<Point>): seq<Day> {
    seq(|points|, i requires 0 <= i < |points| => points[i].day)
  }

  /** One derived point per day, in the same order. */
  function Points(days: seq<Day>): (r: seq<Point>)
    ensures |r| == |days|
    ensures Days(r) == days
    ensures forall i :: 0 <= i < |r| ==> r[i] == Derive(days[i])
  {
    var r := seq(|days|, i requires 0 <= i < |days| => Derive(days[i]));
    assert Days(r) == days;
    r
  }

  /** `chartData`, or `None` when the component renders nothing (no data, or an empty list). */
  function ChartData(data: Option<seq<Day>>): (r: Option<seq<Point>>)
    ensures r.None? <==> data.None? || data.value == []
    ensures r.Some? ==>
      && |r.value| == |data.value|
      && multiset(Days(r.value)) == multiset(data.value)
      && (forall i, j :: 0 <= i < j < |r.value| ==> r.value[i].day.date <= r.value[j].day.date)
      && (forall i :: 0 <= i < |r.value| ==> r.value[i] == Derive(r.value[i].day))
  {
    match data
    case None => None
    case Some(rows) =>
      if rows == [] then None
      else
        var sorted := SortBy(rows, DateKey);
        var points := Points(sorted);
        assert SortedBy(sorted, DateKey);
        assert forall i, j | 0 <= i < j < |points| :: points[i].day.date <= points[j].day.date by {
          forall i, j | 0 <= i < j < |points|
            ensures points[i].day.date <= points[j].day.date
          {
            assert DateKey(sorted[i]) <= DateKey(sorted[j]);
          }
        }
        Some(points)
  }
}
