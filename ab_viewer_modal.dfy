/**
 * The side-by-side A/B view of two ads: each metric of each side is styled as
 * the winner, the loser or a tie against the same metric of the other side.
 */
module ABViewerModal {
  import opened Wrappers
  import FacebookService
  import ReportController

  /** `"text-green-600 font-bold"`, `"text-gray-500"` and `"text-gray-800"`. */
  datatype Style = Winning | Losing | Tied

  /** `getWinnerColor(val1, val2, isHigherBetter)`: how `val1` is styled against `val2`. */
  function WinnerColor(val1: real, val2: real, isHigherBetter: bool): (s: Style)
    ensures s == Tied <==> val1 == val2
    ensures isHigherBetter ==> (s == Winning <==> val1 > val2)
    ensures !isHigherBetter ==> (s == Winning <==> val1 < val2)
  {
    if val1 == val2 then Tied
    else if isHigherBetter then (if val1 > val2 then Winning else Losing)
    else (if val1 < val2 then Winning else Losing)
  }

  /** For two different values exactly one side wins, and the other loses. */
  lemma ExactlyOneWins(a: real, b: real, isHigherBetter: bool)
    requires a != b
    ensures (WinnerColor(a, b, isHigherBetter) == Winning) != (WinnerColor(b, a, isHigherBetter) == Winning)
    ensures WinnerColor(a, b, isHigherBetter) == Losing <==> WinnerColor(b, a, isHigherBetter) == Winning
  {
  }

  /** The styles of one side's comparison panel. */
  datatype Panel = Panel(clicks: Style, ctr: Style, cpa: Style, roas: Style)

  /** One side's panel: clicks, CTR and ROAS higher-is-better, CPA lower-is-better. */
  function PanelFor(mine: FacebookService.Metrics, theirs: FacebookService.Metrics): (p: Panel)
    ensures p.clicks == Winning <==> mine.clicks > theirs.clicks
    ensures p.ctr == Winning <==> mine.ctr > theirs.ctr
    ensures p.cpa == Winning <==> mine.cpa < theirs.cpa
    ensures p.roas == Winning <==> mine.roas > theirs.roas
    ensures p.clicks == Tied <==> mine.clicks == theirs.clicks
    ensures p.ctr == Tied <==> mine.ctr == theirs.ctr
    ensures p.cpa == Tied <==> mine.cpa == theirs.cpa
    ensures p.roas == Tied <==> mine.roas == theirs.roas
  {
    Panel(
      WinnerColor(mine.clicks as real, theirs.clicks as real, true),
      WinnerColor(mine.ctr, theirs.ctr, true),
      WinnerColor(mine.cpa, theirs.cpa, false),
      WinnerColor(mine.roas, theirs.roas, true))
  }

  /** The two panels, or `None` unless the modal is open with exactly two ads. */
  function Comparison(isOpen: bool, ads: Option<seq<FacebookService.Metrics>>): (r: Option<(Panel, Panel)>)
    ensures r.Some? <==> isOpen && ads.Some? && |ads.value| == 2
    ensures r.Some? ==>
      var (a, b) := (ads.value[0], ads.value[1]);
      && (r.value.0.cpa == Winning <==> a.cpa < b.cpa)
      && (r.value.1.cpa == Winning <==> b.cpa < a.cpa)
      && (r.value.0.roas == Winning <==> a.roas > b.roas)
      && (r.value.1.roas == Winning <==> b.roas > a.roas)
      && (r.value.0.ctr == Winning <==> a.ctr > b.ctr)
      && (r.value.1.ctr == Winning <==> b.ctr > a.ctr)
      && (r.value.0.clicks == Winning <==> a.clicks > b.clicks)
      && (r.value.1.clicks == Winning <==> b.clicks > a.clicks)
  {
    if !isOpen || ads.None? || |ads.value| != 2 then None
    else Some((PanelFor(ads.value[0], ads.value[1]), PanelFor(ads.value[1], ads.value[0])))
  }

  /**
   * The A/B view and the ranking disagree on a CPA of 0: here it beats any
   * positive CPA, while the CPA ranking puts it after every positive CPA.
   */
  lemma ZeroCpaWinsHereButRanksLast(a: FacebookService.Metrics, b: FacebookService.Metrics)
    requires a.cpa == 0.0 && b.cpa > 0.0
    ensures Comparison(true, Some([a, b])).value.0.cpa == Winning
    ensures !ReportController.Precedes(ReportController.CpaAscZeroLast, a, b)
    ensures ReportController.Precedes(ReportController.CpaAscZeroLast, b, a)
  {
  }
}
