/**
 * The report endpoint's business rule: the ads of one account are ranked by the
 * client's main KPI, in place, and every ad is then stamped with its score and
 * whether it is the winner. The report record lookup, the HTTP response and the
 * ads-platform fetch are outside the model; the fetch is a parameter.
 */
module ReportController {
  import opened Wrappers
  import opened Text
  import FacebookService

  /** What the marking loop writes into an ad: `score_interno` and `is_winner`. */
  datatype Mark = Mark(scoreInterno: int, isWinner: bool)

  /**
   * One element of `adsData` as the fetch builds it, plus the two fields the
   * ranking adds (`mark` is `None` until the marking loop has run).
   */
  datatype Ad = Ad(
    id: string,
    nomeAnuncio: Option<string>,
    status: string,
    creative: FacebookService.Creative,
    metricas: FacebookService.Metrics,
    mark: Option<Mark>)

  /** The stored report definition the endpoint reads. */
  datatype Relatorio = Relatorio(nomeCliente: string, adAccountIdFacebook: string, kpiPrincipal: string)

  /** The JSON body of a successful response. */
  datatype Report = Report(cliente: string, kpiAnalisado: string, anuncios: seq<Ad>)

  // ---------------------------------------------------------------------------
  // The KPI switch and the order it selects
  // ---------------------------------------------------------------------------

  /** The comparators the KPI switch chooses between. */
  datatype Strategy = RoasDesc | CpaAscZeroLast | CtrDesc | ClicksDesc | SpendDesc

  /** `switch (kpi)` on the lower-cased KPI; any other value falls back to spend. */
  function StrategyFor(kpi: string): (st: Strategy)
    ensures st == RoasDesc <==> kpi == "roas"
    ensures st == CpaAscZeroLast <==> kpi == "cpa"
    ensures st == CtrDesc <==> kpi == "ctr"
    ensures st == ClicksDesc <==> kpi == "cliques"
    ensures st == SpendDesc <==> kpi !in {"roas", "cpa", "ctr", "cliques"}
  {
    if kpi == "roas" then RoasDesc
    else if kpi == "cpa" then CpaAscZeroLast
    else if kpi == "ctr" then CtrDesc
    else if kpi == "cliques" then ClicksDesc
    else SpendDesc
  }

  /**
   * `a` may stand before `b` in a list ranked by `st`: the bigger value first,
   * except for CPA where the smaller non-zero value comes first and every ad with
   * a CPA of 0 ("no conversions") belongs to a tied block at the end.
   */
  function Precedes(st: Strategy, a: FacebookService.Metrics, b: FacebookService.Metrics): (p: bool)
    ensures a == b ==> p
    ensures st == CpaAscZeroLast && b.cpa == 0.0 ==> p
    ensures st == CpaAscZeroLast && a.cpa == 0.0 && b.cpa != 0.0 ==> !p
  {
    match st
    case RoasDesc => a.roas >= b.roas
    case CpaAscZeroLast => b.cpa == 0.0 || (a.cpa != 0.0 && a.cpa <= b.cpa)
    case CtrDesc => a.ctr >= b.ctr
    case ClicksDesc => a.clicks >= b.clicks
    case SpendDesc => a.spend >= b.spend
  }

  /** Every ad of `s` may stand before every later one. */
  predicate Ranked(s: seq<Ad>, st: Strategy) {
    forall i, j :: 0 <= i < j < |s| ==> Precedes(st, s[i].metricas, s[j].metricas)
  }

  /** Each strategy orders every pair of ads, one way or the other. */
  lemma PrecedesTotal(st: Strategy, a: FacebookService.Metrics, b: FacebookService.Metrics)
    ensures Precedes(st, a, b) || Precedes(st, b, a)
  {
  }

  lemma PrecedesTransitive(st: Strategy, a: FacebookService.Metrics, b: FacebookService.Metrics, c: FacebookService.Metrics)
    requires Precedes(st, a, b) && Precedes(st, b, c)
    ensures Precedes(st, a, c)
  {
  }

  // ---------------------------------------------------------------------------
  // The comparator function
  // ---------------------------------------------------------------------------

  /** The comparator of the sort call as written: negative puts `a` first. */
  function CompareAsWritten(st: Strategy, a: FacebookService.Metrics, b: FacebookService.Metrics): (c: real)
    ensures st != CpaAscZeroLast ==> (c <= 0.0 <==> Precedes(st, a, b))
    ensures st == CpaAscZeroLast && a.cpa == 0.0 ==> c > 0.0
    ensures st == CpaAscZeroLast && a.cpa != 0.0 && b.cpa == 0.0 ==> c < 0.0
    ensures st == CpaAscZeroLast && a.cpa != 0.0 && b.cpa != 0.0 ==> (c <= 0.0 <==> a.cpa <= b.cpa)
  {
    match st
    case RoasDesc => b.roas - a.roas
    case CpaAscZeroLast =>
      if a.cpa == 0.0 then 1.0
      else if b.cpa == 0.0 then -1.0
      else a.cpa - b.cpa
    case CtrDesc => b.ctr - a.ctr
    case ClicksDesc => (b.clicks - a.clicks) as real
    case SpendDesc => b.spend - a.spend
  }

  /**
   * As written, two ads that both have a CPA of 0 each claim to sort after the
   * other (and an ad after itself), which is not a consistent comparator.
   */
  lemma CpaZeroPairInconsistent(a: FacebookService.Metrics, b: FacebookService.Metrics)
    requires a.cpa == 0.0 && b.cpa == 0.0
    ensures CompareAsWritten(CpaAscZeroLast, a, b) > 0.0 && CompareAsWritten(CpaAscZeroLast, b, a) > 0.0
    ensures CompareAsWritten(CpaAscZeroLast, a, a) != 0.0
  {
  }

  /** The comparator with the tie the zero block needs: two CPAs of 0 compare equal. */
  function Compare(st: Strategy, a: FacebookService.Metrics, b: FacebookService.Metrics): (c: real)
    ensures c <= 0.0 <==> Precedes(st, a, b)
  {
    if st == CpaAscZeroLast && a.cpa == 0.0 && b.cpa == 0.0 then 0.0
    else CompareAsWritten(st, a, b)
  }

  /** The corrected comparator is consistent: swapping the arguments flips the sign. */
  lemma CompareAntisymmetric(st: Strategy, a: FacebookService.Metrics, b: FacebookService.Metrics)
    ensures Compare(st, a, b) < 0.0 <==> Compare(st, b, a) > 0.0
    ensures Compare(st, a, b) == 0.0 <==> Compare(st, b, a) == 0.0
    ensures Compare(st, a, a) == 0.0
  {
  }

  // ---------------------------------------------------------------------------
  // Sorting in place
  // ---------------------------------------------------------------------------

  /** Ad `x` may stand before ad `y` in the order the strategy sorts by. */
  predicate Before(st: Strategy, x: Ad, y: Ad) {
    Precedes(st, x.metricas, y.metricas)
  }

  /**
   * `adsData.sort(...)` with the comparator the KPI selects, in place. The ghost
   * `pos` says where each ad stood before the sort: it is a permutation, and ads
   * that tie keep their former relative order, as `Array.prototype.sort` does.
   */
  method SortAds(a: array<Ad>, st: Strategy) returns (ghost pos: seq<int>)
    modifies a
    ensures Ranked(a[..], st)
    ensures multiset(a[..]) == old(multiset(a[..]))
    ensures |pos| == a.Length
    ensures forall k :: 0 <= k < a.Length ==> 0 <= pos[k] < a.Length && a[k] == old(a[..])[pos[k]]
    ensures forall k, l :: 0 <= k < l < a.Length ==> pos[k] != pos[l]
    ensures forall k, l :: 0 <= k < l < a.Length && Precedes(st, a[l].metricas, a[k].metricas) ==> pos[k] < pos[l]
  {
    ghost var a0 := a[..];
    pos := seq(a.Length, k requires 0 <= k < a.Length => k);
    var i := 0;
    while i < a.Length
      invariant 0 <= i <= a.Length
      invariant SortedUpTo(a[..], st, i)
      invariant multiset(a[..]) == multiset(a0)
      invariant Tracked(a[..], a0, pos)
      invariant Placed(pos, i)
      invariant StableUpTo(a[..], pos, st, i)
    {
      pos := InsertLast(a, i, st, a0, pos);
      i := i + 1;
    }
    SortedAll(a[..], pos, st, i);
  }

  /** A list sorted and stable up to its end is ranked, and ties keep their order. */
  lemma SortedAll(s: seq<Ad>, pos: seq<int>, st: Strategy, n: int)
    requires n == |s| == |pos|
    requires SortedUpTo(s, st, n) && StableUpTo(s, pos, st, n)
    ensures Ranked(s, st)
    ensures forall k, l :: 0 <= k < l < |s| && Precedes(st, s[l].metricas, s[k].metricas) ==> pos[k] < pos[l]
  {
  }

  /** The first `n` ads of `s` are in the strategy's order. */
  ghost predicate SortedUpTo(s: seq<Ad>, st: Strategy, n: int)
    requires n <= |s|
  {
    forall p, q :: 0 <= p < q < n ==> Before(st, s[p], s[q])
  }

  /** The first `i` ads came from the first `i` places; the others have not moved. */
  ghost predicate Placed(pos: seq<int>, i: int)
    requires 0 <= i <= |pos|
  {
    && (forall k :: 0 <= k < i ==> pos[k] < i)
    && (forall k :: i <= k < |pos| ==> pos[k] == k)
  }

  /** `pos` maps each ad of `s` to a distinct position of `a0` holding the same ad. */
  ghost predicate Tracked(s: seq<Ad>, a0: seq<Ad>, pos: seq<int>) {
    && |pos| == |s| == |a0|
    && (forall k {:trigger pos[k]} :: 0 <= k < |s| ==> 0 <= pos[k] < |a0| && s[k] == a0[pos[k]])
    && (forall k, l :: 0 <= k < l < |s| ==> pos[k] != pos[l])
  }

  /** Among the first `n` ads, one that may stand before an earlier one came later in `pos`. */
  ghost predicate StableUpTo(s: seq<Ad>, pos: seq<int>, st: Strategy, n: int)
    requires n <= |s| == |pos|
  {
    forall p, q :: 0 <= p < q < n && Before(st, s[q], s[p]) ==> pos[p] < pos[q]
  }

  /**
   * One step of the stable insertion sort: moves `a[i]` left past every ad it
   * must precede, so that the ordered prefix grows by one; an ad never passes
   * one it ties with, so ties keep their order.
   */
  method InsertLast(a: array<Ad>, i: nat, st: Strategy, ghost a0: seq<Ad>, ghost pos: seq<int>)
    returns (ghost pos': seq<int>)
    requires i < a.Length && SortedUpTo(a[..], st, i)
    requires Tracked(a[..], a0, pos)
    requires forall k :: 0 <= k < i ==> pos[k] < pos[i]
    requires StableUpTo(a[..], pos, st, i)
    modifies a
    ensures SortedUpTo(a[..], st, i + 1)
    ensures multiset(a[..]) == old(multiset(a[..]))
    ensures Tracked(a[..], a0, pos')
    ensures forall k :: 0 <= k <= i ==> pos'[k] <= pos[i]
    ensures forall k :: i < k < a.Length ==> pos'[k] == pos[k]
    ensures StableUpTo(a[..], pos', st, i + 1)
  {
    ghost var s0 := a[..];
    InsertStart(s0, a0, pos, st, i);
    var j;
    j, pos' := Sink(a, i, st, s0, a0, pos);
    InsertFinish(a[..], pos', s0, a0, pos, st, i, j);
  }

  /** Before the first swap, the `i`-th ad is the one moving and no other has moved. */
  lemma InsertStart(s0: seq<Ad>, a0: seq<Ad>, pos: seq<int>, st: Strategy, i: nat)
    requires i < |s0| && SortedUpTo(s0, st, i) && Tracked(s0, a0, pos)
    requires forall k :: 0 <= k < i ==> pos[k] < pos[i]
    requires StableUpTo(s0, pos, st, i)
    ensures Step(s0, pos, s0, a0, pos, st, i, i)
  {
  }

  /**
   * The inner loop of `InsertLast`: swaps the moving ad one place left while it
   * strictly precedes its left neighbour, and returns where it stopped.
   */
  method Sink(a: array<Ad>, i: nat, st: Strategy, ghost s0: seq<Ad>, ghost a0: seq<Ad>, ghost pos: seq<int>)
    returns (j: nat, ghost pos': seq<int>)
    requires Step(a[..], pos, s0, a0, pos, st, i, i)
    modifies a
    ensures j <= i < a.Length && Step(a[..], pos', s0, a0, pos, st, i, j)
    ensures j == 0 || Before(st, a[j - 1], a[j])
  {
    pos' := pos;
    j := i;
    while j > 0 && !Before(st, a[j - 1], a[j])
      invariant 0 <= j <= i
      invariant Step(a[..], pos', s0, a0, pos, st, i, j)
    {
      ghost var s := a[..];
      SwapKeepsStep(s, pos', s0, a0, pos, st, i, j);
      a[j - 1], a[j] := a[j], a[j - 1];
      assert a[..] == Swap(s, j);
      pos' := Swap(pos', j);
      j := j - 1;
    }
  }

  /**
   * The whole state of an insertion step that started from `s0` with positions
   * `pos`: the ads are a rearrangement of `s0` still tracked into `a0`, nothing
   * after `i` has moved, and the prefix is as `Inserting` describes.
   */
  ghost predicate Step(s: seq<Ad>, ps: seq<int>, s0: seq<Ad>, a0: seq<Ad>, pos: seq<int>, st: Strategy, i: nat, j: nat)
  {
    && |pos| == |s|
    && Tracked(s, a0, ps)
    && multiset(s) == multiset(s0)
    && (forall k :: i < k < |s| ==> ps[k] == pos[k])
    && i < |pos| && Inserting(s, ps, st, i, j, pos[i])
  }

  /** What an insertion step has achieved once the moving ad stops. */
  lemma InsertFinish(s: seq<Ad>, ps: seq<int>, s0: seq<Ad>, a0: seq<Ad>, pos: seq<int>, st: Strategy, i: nat, j: nat)
    requires Step(s, ps, s0, a0, pos, st, i, j) && (j == 0 || Before(st, s[j - 1], s[j]))
    ensures SortedUpTo(s, st, i + 1)
    ensures multiset(s) == multiset(s0)
    ensures Tracked(s, a0, ps)
    ensures forall k :: 0 <= k <= i ==> ps[k] <= pos[i]
    ensures forall k :: i < k < |s| ==> ps[k] == pos[k]
    ensures StableUpTo(s, ps, st, i + 1)
  {
    InsertDone(s, ps, st, i, j, pos[i]);
  }

  lemma SwapKeepsStep(s: seq<Ad>, ps: seq<int>, s0: seq<Ad>, a0: seq<Ad>, pos: seq<int>, st: Strategy, i: nat, j: nat)
    requires 0 < j && Step(s, ps, s0, a0, pos, st, i, j) && !Before(st, s[j - 1], s[j])
    ensures Step(Swap(s, j), Swap(ps, j), s0, a0, pos, st, i, j - 1)
  {
    SwapStep(s, ps, st, i, j, pos[i]);
    SwapTracked(s, a0, ps, j);
    assert s == s[..j - 1] + [s[j - 1], s[j]] + s[j + 1..];
    assert Swap(s, j) == s[..j - 1] + [s[j], s[j - 1]] + s[j + 1..];
  }

  /** The sequence with the elements at `j - 1` and `j` exchanged. */
  function Swap<T>(s: seq<T>, j: nat): (r: seq<T>)
    requires 0 < j < |s|
    ensures |r| == |s| && r[j - 1] == s[j] && r[j] == s[j - 1]
    ensures forall k :: 0 <= k < |s| && k != j - 1 && k != j ==> r[k] == s[k]
  {
    s[j - 1 := s[j]][j := s[j - 1]]
  }

  /**
   * Midway through an insertion step, with the moving ad at `j`: the other ads
   * of the prefix are ordered and ranked stably, the moving ad strictly precedes
   * every ad it has passed, and it came after all of them (`top`).
   */
  ghost predicate Inserting(s: seq<Ad>, ps: seq<int>, st: Strategy, i: nat, j: nat, top: int)
  {
    && j <= i < |s| == |ps|
    && (forall p, q :: 0 <= p < q <= i && p != j && q != j ==> Before(st, s[p], s[q]))
    && (forall p, q :: 0 <= p < q <= i && p != j && q != j && Before(st, s[q], s[p]) ==> ps[p] < ps[q])
    && (forall q :: j < q <= i ==> !Before(st, s[q], s[j]))
    && ps[j] == top
    && (forall k :: 0 <= k <= i && k != j ==> ps[k] < top)
  }

  /** Passing one ad that the moving ad strictly precedes keeps the step's state. */
  lemma SwapStep(s: seq<Ad>, ps: seq<int>, st: Strategy, i: nat, j: nat, top: int)
    requires 0 < j && Inserting(s, ps, st, i, j, top) && !Before(st, s[j - 1], s[j])
    ensures Inserting(Swap(s, j), Swap(ps, j), st, i, j - 1, top)
  {
    var s', ps' := Swap(s, j), Swap(ps, j);
    forall p, q | 0 <= p < q <= i && p != j - 1 && q != j - 1
      ensures Before(st, s'[p], s'[q])
      ensures Before(st, s'[q], s'[p]) ==> ps'[p] < ps'[q]
    {
      var p0 := if p == j then j - 1 else p;
      var q0 := if q == j then j - 1 else q;
      assert s'[p] == s[p0] && s'[q] == s[q0] && ps'[p] == ps[p0] && ps'[q] == ps[q0];
    }
  }

  /** Swapping two ads together with their positions keeps the tracking. */
  lemma SwapTracked(s: seq<Ad>, a0: seq<Ad>, ps: seq<int>, j: nat)
    requires 0 < j < |s| && Tracked(s, a0, ps)
    ensures Tracked(Swap(s, j), a0, Swap(ps, j))
  {
  }

  /** When the moving ad stops, the whole prefix up to `i` is ordered and stable. */
  lemma InsertDone(s: seq<Ad>, ps: seq<int>, st: Strategy, i: nat, j: nat, top: int)
    requires Inserting(s, ps, st, i, j, top) && (j == 0 || Before(st, s[j - 1], s[j]))
    ensures forall p, q :: 0 <= p < q <= i ==> Before(st, s[p], s[q])
    ensures StableUpTo(s, ps, st, i + 1)
    ensures forall k :: 0 <= k <= i ==> ps[k] <= top
  {
    forall p, q | 0 <= p < q <= i
      ensures Before(st, s[p], s[q])
    {
      if q == j && p < j - 1 {
        PrecedesTransitive(st, s[p].metricas, s[j - 1].metricas, s[j].metricas);
      } else if p == j {
        PrecedesTotal(st, s[j].metricas, s[q].metricas);
      }
    }
  }

  /** Ranking by the stored KPI, read back as the order of the metric it names. */
  lemma RankingByKpi(s: seq<Ad>, kpi: string)
    ensures Lower(kpi) == "roas" ==>
      (Ranked(s, StrategyFor(Lower(kpi))) <==>
       forall i, j :: 0 <= i < j < |s| ==> s[i].metricas.roas >= s[j].metricas.roas)
    ensures Lower(kpi) == "cpa" ==>
      (Ranked(s, StrategyFor(Lower(kpi))) <==>
       && (forall i, j :: 0 <= i < j < |s| && s[i].metricas.cpa == 0.0 ==> s[j].metricas.cpa == 0.0)
       && (forall i, j :: 0 <= i < j < |s| && s[i].metricas.cpa != 0.0 && s[j].metricas.cpa != 0.0 ==>
             s[i].metricas.cpa <= s[j].metricas.cpa))
    ensures Lower(kpi) == "ctr" ==>
      (Ranked(s, StrategyFor(Lower(kpi))) <==>
       forall i, j :: 0 <= i < j < |s| ==> s[i].metricas.ctr >= s[j].metricas.ctr)
    ensures Lower(kpi) == "cliques" ==>
      (Ranked(s, StrategyFor(Lower(kpi))) <==>
       forall i, j :: 0 <= i < j < |s| ==> s[i].metricas.clicks >= s[j].metricas.clicks)
    ensures Lower(kpi) !in {"roas", "cpa", "ctr", "cliques"} ==>
      (Ranked(s, StrategyFor(Lower(kpi))) <==>
       forall i, j :: 0 <= i < j < |s| ==> s[i].metricas.spend >= s[j].metricas.spend)
  {
  }

  /** The KPI is matched whatever its letter case: `ROAS`, `Roas` and `roas` choose the same order. */
  lemma KpiCaseInsensitive(kpi: string)
    ensures StrategyFor(Lower(kpi)) == RoasDesc <==> SameIgnoringCase(kpi, "roas")
    ensures StrategyFor(Lower(kpi)) == CpaAscZeroLast <==> SameIgnoringCase(kpi, "cpa")
    ensures StrategyFor(Lower(kpi)) == CtrDesc <==> SameIgnoringCase(kpi, "ctr")
    ensures StrategyFor(Lower(kpi)) == ClicksDesc <==> SameIgnoringCase(kpi, "cliques")
  {
    LowerCaseInsensitive(kpi, "roas");
    LowerCaseInsensitive(kpi, "cpa");
    LowerCaseInsensitive(kpi, "ctr");
    LowerCaseInsensitive(kpi, "cliques");
    assert Lower("roas") == "roas";
    assert Lower("cpa") == "cpa";
    assert Lower("ctr") == "ctr";
    assert Lower("cliques") == "cliques";
  }

  // ---------------------------------------------------------------------------
  // Marking the winner
  // ---------------------------------------------------------------------------

  /** The list after the marking loop: position `i` of `n` scores `n - i`, and only position 0 wins. */
  function Marked(s: seq<Ad>): seq<Ad> {
    seq(|s|, i requires 0 <= i < |s| => s[i].(mark := Some(Mark(|s| - i, i == 0))))
  }

  /** `adsData.forEach((ad, index) => { ad.score_interno = ...; ad.is_winner = ... })`. */
  method MarkWinner(a: array<Ad>)
    modifies a
    ensures a[..] == Marked(old(a[..]))
  {
    for i := 0 to a.Length
      invariant forall k :: 0 <= k < i ==> a[k] == old(a[k]).(mark := Some(Mark(a.Length - k, k == 0)))
      invariant forall k :: i <= k < a.Length ==> a[k] == old(a[k])
    {
      a[i] := a[i].(mark := Some(Mark(a.Length - i, i == 0)));
    }
  }

  predicate IsWinner(ad: Ad) {
    ad.mark.Some? && ad.mark.value.isWinner
  }

  /** How many ads of `s` are marked as winners. */
  function WinnerCount(s: seq<Ad>): nat {
    if s == [] then 0 else (if IsWinner(s[0]) then 1 else 0) + WinnerCount(s[1..])
  }

  lemma {:induction false} NoWinnerCountsZero(s: seq<Ad>)
    requires forall i :: 0 <= i < |s| ==> !IsWinner(s[i])
    ensures WinnerCount(s) == 0
  {
    if s != [] {
      NoWinnerCountsZero(s[1..]);
    }
  }

  /** A marked non-empty list has exactly one winner, its first ad; an empty one has none. */
  lemma {:induction false} MarkedHasOneWinner(s: seq<Ad>)
    ensures WinnerCount(Marked(s)) == if s == [] then 0 else 1
    ensures s != [] ==> IsWinner(Marked(s)[0])
  {
    if s != [] {
      NoWinnerCountsZero(Marked(s)[1..]);
    }
  }

  /** Scores run from `n` at the top down to 1 at the bottom, strictly decreasing. */
  lemma MarkedScores(s: seq<Ad>)
    ensures forall i :: 0 <= i < |s| ==> Marked(s)[i].mark.Some? && 1 <= Marked(s)[i].mark.value.scoreInterno <= |s|
    ensures forall i, j :: 0 <= i < j < |s| ==>
              Marked(s)[i].mark.value.scoreInterno > Marked(s)[j].mark.value.scoreInterno
    ensures s != [] ==> Marked(s)[0].mark.value.scoreInterno == |s| && Marked(s)[|s| - 1].mark.value.scoreInterno == 1
  {
  }

  /** The ads with the ranking's marks removed: what the report is a permutation of. */
  function Unmarked(s: seq<Ad>): seq<Ad> {
    seq(|s|, i requires 0 <= i < |s| => s[i].(mark := None))
  }

  /** Marking changes nothing but the marks, so it keeps the ranking. */
  lemma MarkingKeepsAds(s: seq<Ad>, st: Strategy)
    ensures Unmarked(Marked(s)) == Unmarked(s)
    ensures Ranked(s, st) ==> Ranked(Marked(s), st)
  {
  }

  /** Marking a ranked, stably sorted rearrangement of the fetched ads gives the report's list. */
  lemma ReportOfSorted(sorted: seq<Ad>, ads: seq<Ad>, origin: seq<nat>, st: Strategy)
    requires Ranked(sorted, st) && multiset(sorted) == multiset(ads)
    requires |origin| == |sorted| == |ads|
    requires forall k :: 0 <= k < |sorted| ==> origin[k] < |ads| && sorted[k] == ads[origin[k]]
    requires forall k, l :: 0 <= k < l < |sorted| ==> origin[k] != origin[l]
    requires forall k, l :: 0 <= k < l < |sorted| && Precedes(st, sorted[l].metricas, sorted[k].metricas) ==>
      origin[k] < origin[l]
    ensures var m := Marked(sorted);
      && Ranked(m, st)
      && multiset(Unmarked(m)) == multiset(Unmarked(ads))
      && (forall i :: 0 <= i < |m| ==> m[i].mark == Some(Mark(|m| - i, i == 0)))
      && |origin| == |m| == |ads|
      && (forall k :: 0 <= k < |origin| ==> origin[k] < |ads| && m[k].(mark := None) == ads[origin[k]].(mark := None))
      && (forall k, l :: 0 <= k < l < |origin| ==> origin[k] != origin[l])
      && (forall k, l :: 0 <= k < l < |origin| && Precedes(st, m[l].metricas, m[k].metricas) ==> origin[k] < origin[l])
  {
    MarkingKeepsAds(sorted, st);
    UnmarkedPermutation(sorted, ads);
    MarkedKeepsOrigin(sorted, ads, origin, st);
  }

  /** Marking keeps what each ad came from and the order that ties keep. */
  lemma MarkedKeepsOrigin(sorted: seq<Ad>, ads: seq<Ad>, origin: seq<nat>, st: Strategy)
    requires |origin| == |sorted| == |ads|
    requires forall k :: 0 <= k < |sorted| ==> origin[k] < |ads| && sorted[k] == ads[origin[k]]
    requires forall k, l :: 0 <= k < l < |sorted| && Precedes(st, sorted[l].metricas, sorted[k].metricas) ==>
      origin[k] < origin[l]
    ensures forall k :: 0 <= k < |sorted| ==> Marked(sorted)[k].(mark := None) == ads[origin[k]].(mark := None)
    ensures forall k, l :: 0 <= k < l < |sorted| && Precedes(st, Marked(sorted)[l].metricas, Marked(sorted)[k].metricas) ==>
      origin[k] < origin[l]
  {
    assert forall k :: 0 <= k < |sorted| ==> Marked(sorted)[k].metricas == sorted[k].metricas;
  }

  /** Taking out position `k` takes one copy of `t[k]` out of the multiset. */
  lemma RemoveAt(t: seq<Ad>, k: nat)
    requires k < |t|
    ensures multiset(t[..k] + t[k + 1..]) == multiset(t) - multiset{t[k]}
  {
    assert t == t[..k] + [t[k]] + t[k + 1..];
  }

  lemma UnmarkedRemoveAt(t: seq<Ad>, k: nat)
    requires k < |t|
    ensures multiset(Unmarked(t)) == multiset{t[k].(mark := None)} + multiset(Unmarked(t[..k] + t[k + 1..]))
  {
    assert Unmarked(t) == Unmarked(t[..k]) + [t[k].(mark := None)] + Unmarked(t[k + 1..]);
    assert Unmarked(t[..k] + t[k + 1..]) == Unmarked(t[..k]) + Unmarked(t[k + 1..]);
  }

  lemma UnmarkedCons(s: seq<Ad>)
    requires s != []
    ensures multiset(Unmarked(s)) == multiset{s[0].(mark := None)} + multiset(Unmarked(s[1..]))
  {
    assert Unmarked(s) == [s[0].(mark := None)] + Unmarked(s[1..]);
  }

  /** Reordering the ads reorders their unmarked views alike. */
  lemma {:induction false} UnmarkedPermutation(s: seq<Ad>, t: seq<Ad>)
    requires multiset(s) == multiset(t)
    ensures multiset(Unmarked(s)) == multiset(Unmarked(t))
    decreases |s|
  {
    if s == [] {
      assert |t| == |multiset(t)| == 0;
      assert t == [];
    } else {
      var x := s[0];
      assert x in multiset(t);
      assert x in t;
      var k :| 0 <= k < |t| && t[k] == x;
      var rest := t[..k] + t[k + 1..];
      assert s == [x] + s[1..];
      assert multiset(s[1..]) == multiset(s) - multiset{x};
      RemoveAt(t, k);
      assert multiset(s[1..]) == multiset(rest);
      UnmarkedPermutation(s[1..], rest);
      UnmarkedRemoveAt(t, k);
      UnmarkedCons(s);
    }
  }

  // ---------------------------------------------------------------------------
  // The endpoint
  // ---------------------------------------------------------------------------

  /** `act_${id.replace('act_', '')}`: the account id handed to the fetch. */
  function AccountPath(id: string): (r: string)
    ensures IsPrefix("act_", r)
    ensures !Contains(id, "act_") ==> r == "act_" + id
    ensures IsPrefix("act_", id) ==> r == id
  {
    "act_" + RemoveFirst(id, "act_")
  }

  /** A bare id and its `act_` form name the same account, and normalising twice changes nothing. */
  lemma AccountPathExamples(id: string)
    ensures AccountPath("123") == "act_123" && AccountPath("act_123") == "act_123"
    ensures AccountPath(AccountPath(id)) == AccountPath(id)
  {
    assert !Contains("123", "act_");
    assert IsPrefix("act_", "act_123");
  }

  /**
   * The sort and the marking loop of `getReport`, run on an array copy of the
   * fetched list: the ranked, marked list and, as a ghost, the index each of
   * its ads had in the fetched list. Ads that tie keep their fetched order.
   */
  method RankAds(ads: seq<Ad>, st: Strategy) returns (ranked: seq<Ad>, ghost origin: seq<nat>)
    ensures Ranked(ranked, st)
    ensures multiset(Unmarked(ranked)) == multiset(Unmarked(ads))
    ensures forall i :: 0 <= i < |ranked| ==> ranked[i].mark == Some(Mark(|ranked| - i, i == 0))
    ensures |origin| == |ranked| == |ads|
    ensures forall k :: 0 <= k < |origin| ==>
              origin[k] < |ads| && ranked[k].(mark := None) == ads[origin[k]].(mark := None)
    ensures forall k, l :: 0 <= k < l < |origin| ==> origin[k] != origin[l]
    ensures forall k, l :: 0 <= k < l < |origin| && Precedes(st, ranked[l].metricas, ranked[k].metricas) ==>
              origin[k] < origin[l]
  {
    var a := new Ad[|ads|](i requires 0 <= i < |ads| => ads[i]);
    assert a[..] == ads;
    origin := SortAds(a, st);
    ghost var sorted := a[..];
    MarkWinner(a);
    ReportOfSorted(sorted, ads, origin, st);
    ranked := a[..];
  }

  /**
   * `getReport` once the report definition is found: lower-case the KPI, fetch the
   * account's ads, answer an empty list as is, otherwise rank and mark the list.
   * The ghost `origin` gives each reported ad's index in the fetched list: ads
   * that tie under the KPI's order keep their fetched order, so among ads tied
   * with the best one the winner is the one fetched first.
   */
  method GetReport(relatorio: Relatorio, fetchAdData: string -> Option<seq<Ad>>) returns (r: Report, ghost origin: seq<nat>)
    ensures r.cliente == relatorio.nomeCliente
    ensures
      var ads := fetchAdData(AccountPath(relatorio.adAccountIdFacebook));
      var st := StrategyFor(Lower(relatorio.kpiPrincipal));
      if ads.None? || ads.value == [] then
        r.kpiAnalisado == Lower(relatorio.kpiPrincipal) && r.anuncios == []
      else
        && r.kpiAnalisado == Upper(relatorio.kpiPrincipal)
        && Ranked(r.anuncios, st)
        && multiset(Unmarked(r.anuncios)) == multiset(Unmarked(ads.value))
        && (forall i :: 0 <= i < |r.anuncios| ==> r.anuncios[i].mark == Some(Mark(|r.anuncios| - i, i == 0)))
        && |origin| == |r.anuncios| == |ads.value|
        && (forall k :: 0 <= k < |origin| ==>
              origin[k] < |ads.value| && r.anuncios[k].(mark := None) == ads.value[origin[k]].(mark := None))
        && (forall k, l :: 0 <= k < l < |origin| ==> origin[k] != origin[l])
        && (forall k, l :: 0 <= k < l < |origin| && Precedes(st, r.anuncios[l].metricas, r.anuncios[k].metricas) ==>
              origin[k] < origin[l])
  {
    var kpi := Lower(relatorio.kpiPrincipal);
    var adsData := fetchAdData(AccountPath(relatorio.adAccountIdFacebook));
    if adsData.None? || |adsData.value| == 0 {
      return Report(relatorio.nomeCliente, kpi, []), [];
    }
    var anuncios;
    anuncios, origin := RankAds(adsData.value, StrategyFor(kpi));
    UpperOfLower(relatorio.kpiPrincipal);
    r := Report(relatorio.nomeCliente, Upper(kpi), anuncios);
  }
}
