# BI-ADS report core in Dafny

BI-ADS is a reporting dashboard for ad accounts. Its backend turns the ad
platform's raw ad records into per-ad metrics. It then ranks the ads of one
account by the client's main KPI (ROAS, CPA, CTR, clicks, or spend as the
fallback) and marks the top ad as the winner. Its frontend shapes the report
into charts and tables:

- a daily trend of CPA, ROAS, CPM and CTR;
- a spend donut that folds small slices into `Outros`;
- a CPA bar list;
- banded table cells;
- an A/B comparison of two ads;
- the ROAS card;
- the header's date-range picker.

This project models that core as Dafny functions, methods and one class, and
proves what each piece promises.

Module by module:

- `FacebookService` (`backend/services/facebookService.js`) holds `formatMetrics` and `extractCreativeData`. Both are pure functions over records whose fields may be absent.
- `ReportController` (`backend/controllers/reportController.js`) holds `getReport`. The ranking is a stable in-place insertion sort on an `array<Ad>` holding a copy of the fetched list. Ghost positions record where each ad was fetched, so the contracts can say that ties keep their fetched order. The marking loop writes each ad's score and winner flag in place. The comparator of the source is modelled as written. A corrected comparator sits beside it (see Findings).
- `TrendChart` and `MetricTrendChart` hold the two trend charts' `chartData`: a date-ordered copy extended with derived ratios. The second chart's copy of the code is proved equal to the first.
- `DonutChart` and `CPAHorizontalBar` hold the filtered, mapped and sorted slice and bar lists. The donut's folding of the tail into `Outros` is a method. `AdSets` holds the ad-set record both charts read and the indices their filters keep.
- `AdSetTable`, `ABViewerModal` and `KPICards` hold the threshold bands and the winner styling.
- `DashboardHeader` holds the date button's label and the KPI selector's value. The date picker's four pieces of React state form the class `DatePicker`, whose event handlers are methods.
- `Wrappers`, `Text` and `Sorting` are shared helpers:
  - `Option`;
  - ASCII case conversion, substring search and the first-occurrence `replace`;
  - a stable insertion sort by a real key, with sums over sequences.

## Model

| member | source | states |
|---|---|---|
| Text.Lower | backend/controllers/reportController.js:24 | `toLowerCase` keeps the length, leaves no upper-case letter and changes nothing but letter case |
| Text.Upper | backend/controllers/reportController.js:74 | `toUpperCase` keeps the length, leaves no lower-case letter and changes nothing but letter case |
| Text.LowerCaseInsensitive | backend/controllers/reportController.js:24 | two KPI strings lower-case to the same text exactly when they differ only in letter case |
| Text.UpperOfLower | backend/controllers/reportController.js:74 | upper-casing the lower-cased KPI equals upper-casing the stored KPI |
| Text.RemoveFirst | backend/controllers/reportController.js:27 | `replace` with a string pattern cuts out exactly the earliest occurrence and keeps everything before and after it; an absent pattern leaves the text unchanged, and the length drops by the pattern's length exactly when it occurs |
| Text.ContainsChar | frontend/components/dashboard/DashboardHeader.jsx:105 | `includes(',')` holds exactly when the comma is one of the characters |
| Sorting.Insert | frontend/components/dashboard/TrendChart.jsx:20 | inserting adds exactly one copy of the element and puts it at the head or keeps the old head |
| Sorting.InsertSorted | frontend/components/dashboard/TrendChart.jsx:20 | inserting into a key-ordered list keeps it key-ordered |
| Sorting.SortBy | frontend/components/dashboard/TrendChart.jsx:20 | sorting by a numeric key returns a permutation of the input in non-decreasing key order |
| Sorting.InsertWithKey | frontend/components/dashboard/TrendChart.jsx:20 | inserting puts the element ahead of every element with its key and keeps the order of all elements sharing any key |
| Sorting.SortByStable | frontend/components/dashboard/DonutChart.jsx:13 | for every key, the elements with that key keep their input order after sorting, as a stable `Array.prototype.sort` does |
| Sorting.TotalAppend | frontend/components/dashboard/DonutChart.jsx:19 | the `reduce` sum over a concatenation is the sum of the two parts |
| Sorting.TotalSortBy | frontend/components/dashboard/DonutChart.jsx:13 | sorting does not change the sum of any value over the list |
| FacebookService.FindAction | backend/services/facebookService.js:46 | `find` returns the first action of the given type, and nothing exactly when no action has it |
| FacebookService.ConversionAction | backend/services/facebookService.js:46-48 | the conversion action is a `purchase` when any exists, else a `lead`, else an `onsite_web_lead`, the first of its type, and absent exactly when none of the three occurs |
| FacebookService.Conversions | backend/services/facebookService.js:45-53 | the conversion count is 0 without actions or without a conversion action; when the chosen conversion action's value parses, the count is that value, and a non-zero count is always that parsed value |
| FacebookService.Roas | backend/services/facebookService.js:41-43 | ROAS is 0 when `purchase_roas` is absent or empty; when its first entry's value parses, the ROAS is that value, and a non-zero ROAS is always that parsed value |
| FacebookService.FormatMetrics | backend/services/facebookService.js:31-59 | no insight gives all zeros; otherwise the figures come from the first insight with missing fields as 0, ROAS is the parsed value of the first `purchase_roas` entry when there is one, CPA is spend divided by the chosen action's parsed count when spend and that count are positive, and CPA is non-zero exactly when spend and conversions are both positive, in which case CPA × conversions = spend |
| FacebookService.OnlyFirstInsightRead | backend/services/facebookService.js:34-35 | insight records after the first never change the metrics |
| FacebookService.CpaZeroWithoutSpendOrConversion | backend/services/facebookService.js:50-55 | CPA stays 0 without spend or without any conversion action |
| FacebookService.Coalesce | backend/services/facebookService.js:68 | a chain of JavaScript `or` fallbacks yields the first truthy candidate, and the last candidate when none is truthy |
| FacebookService.ExtractCreativeData | backend/services/facebookService.js:61-83 | no details give only the fallback title; otherwise image, copy and title each resolve through their fallback chain (link data before video data); the video URL is always absent; a non-empty fallback name guarantees a title |
| FacebookService.TitlePrecedence | backend/services/facebookService.js:69-78 | the creative's own title beats link data, and link data's name beats video data's title |
| ReportController.StrategyFor | backend/controllers/reportController.js:43-61 | the lower-cased KPI `roas`, `cpa`, `ctr` or `cliques` selects its own order, and every other value selects the spend order |
| ReportController.Precedes | backend/controllers/reportController.js:38-62 | every order lets an ad stand before an equal one; in the CPA order any ad may stand before a CPA of 0, and a CPA of 0 never before a non-zero one |
| ReportController.PrecedesTotal | backend/controllers/reportController.js:38-63 | every KPI order ranks any two ads one way or the other |
| ReportController.PrecedesTransitive | backend/controllers/reportController.js:38-63 | every KPI order is transitive, the CPA order with its block of zeros at the end included |
| ReportController.CompareAsWritten | backend/controllers/reportController.js:38-62 | as written, the ROAS, CTR, clicks and spend comparators are non-positive exactly when the first ad may stand first; the CPA comparator puts a first ad with CPA 0 after any ad, puts a non-zero first ad before a CPA of 0, and otherwise compares CPAs ascending |
| ReportController.CpaZeroPairInconsistent | backend/controllers/reportController.js:50-51 | as written, two ads with CPA 0 each compare as greater than the other, and an ad with CPA 0 compares unequal to itself |
| ReportController.Compare | backend/controllers/reportController.js:43-61 | the corrected comparator is non-positive exactly when the first ad may be ranked before the second |
| ReportController.CompareAntisymmetric | backend/controllers/reportController.js:38-63 | the corrected comparator flips sign when its arguments swap and is 0 on equal ads |
| ReportController.InsertLast | backend/controllers/reportController.js:38 | one insertion step grows the ranked prefix by one ad, only permutes the array, and keeps every tied pair of the prefix in its original order |
| ReportController.Sink | backend/controllers/reportController.js:38 | the moving ad is swapped left only past ads it strictly precedes, so it stops behind any ad it ties with |
| ReportController.SwapStep | backend/controllers/reportController.js:38 | passing one ad that the moving ad strictly precedes keeps the rest of the prefix ordered and stable |
| ReportController.InsertDone | backend/controllers/reportController.js:38 | where the moving ad stops, the whole prefix is ordered and tied ads keep their original order |
| ReportController.SortAds | backend/controllers/reportController.js:38-63 | the in-place sort leaves the array ranked by the KPI's order; the ghost positions say which original slot each ad came from, form a permutation, and keep tied ads in their original order, as the stable `Array.prototype.sort` does |
| ReportController.RankingByKpi | backend/controllers/reportController.js:43-61 | ranked means non-increasing ROAS, CTR, clicks or spend, or, for CPA, non-decreasing among non-zero CPAs with every 0 after every non-zero |
| ReportController.KpiCaseInsensitive | backend/controllers/reportController.js:24 | the KPI selects the ROAS, CPA, CTR or clicks order exactly when it spells that name in any letter case |
| ReportController.MarkWinner | backend/controllers/reportController.js:66-69 | the loop stamps position `i` of `n` with score `n - i` and the winner flag on position 0 only |
| ReportController.NoWinnerCountsZero | backend/controllers/reportController.js:68 | a list with no winner flag counts zero winners |
| ReportController.MarkedHasOneWinner | backend/controllers/reportController.js:65-69 | a marked non-empty list has exactly one winner, its first ad |
| ReportController.MarkedScores | backend/controllers/reportController.js:67 | scores run strictly down from `n` at the top to 1 at the bottom |
| ReportController.MarkingKeepsAds | backend/controllers/reportController.js:66-69 | marking changes nothing but the marks and keeps the ranking |
| ReportController.UnmarkedPermutation | backend/controllers/reportController.js:38-69 | reordering ads reorders their unmarked views alike, so the report holds the fetched ads |
| ReportController.MarkedKeepsOrigin | backend/controllers/reportController.js:66-69 | marking keeps where each ad came from and the stable order of ties |
| ReportController.ReportOfSorted | backend/controllers/reportController.js:38-69 | marking a stably ranked rearrangement of the fetched ads gives a ranked, scored list that holds the fetched ads, ties in fetched order |
| ReportController.RankAds | backend/controllers/reportController.js:38-69 | sorting and marking a copy of the fetched list yields it ranked, scored `n - i` with only the first a winner, each ad traced to a distinct fetched index, ties in fetched order |
| ReportController.AccountPath | backend/controllers/reportController.js:27 | the fetched account path always starts with `act_`, prefixes a bare id and leaves an `act_` id as it is |
| ReportController.AccountPathExamples | backend/controllers/reportController.js:27 | `123` and `act_123` name the same account, and normalising twice changes nothing |
| ReportController.GetReport | backend/controllers/reportController.js:23-76 | an absent or empty fetch answers the lower-cased KPI and no ads; otherwise the upper-cased KPI and a permutation of the fetched ads, ranked by the KPI and scored `n - i` with only the first a winner; ads that tie keep their fetched order, so among ads tied with the best one the first fetched is the winner |
| TrendChart.Derive | frontend/components/dashboard/TrendChart.jsx:24-27 | each ratio is 0 when its denominator is not positive, and otherwise multiplies back: CPA × conversions = spend, ROAS × spend = revenue, CPM × impressions = 1000 × spend, CTR × impressions = 100 × clicks |
| TrendChart.Points | frontend/components/dashboard/TrendChart.jsx:20-28 | one derived point per day, in the same order, carrying its day |
| TrendChart.ChartData | frontend/components/dashboard/TrendChart.jsx:17-28 | nothing for absent or empty data; otherwise a point per row, the rows permuted into ascending date order, each point derived from its own row |
| MetricTrendChart.Derive | frontend/components/dashboard/MetricTrendChart.jsx:49-52 | this chart's formulas give the same point as the trend chart's |
| MetricTrendChart.ChartData | frontend/components/dashboard/MetricTrendChart.jsx:40-53 | this chart's data equals the trend chart's for every input |
| DonutChart.PositiveSlices | frontend/components/dashboard/DonutChart.jsx:10-12 | exactly the ad sets with a positive spend become slices, named and valued from their ad set |
| AdSets.PositiveIndicesSound | frontend/components/dashboard/DonutChart.jsx:10 | every index the filter keeps is an ad set whose metric is present and positive |
| AdSets.PositiveIndicesIncreasing | frontend/components/dashboard/DonutChart.jsx:10 | the kept indices are strictly increasing, so the filter keeps input order and keeps no ad set twice |
| AdSets.PositiveIndicesComplete | frontend/components/dashboard/DonutChart.jsx:10 | every ad set whose metric is present and positive is kept |
| DonutChart.PositiveSlicesInOrder | frontend/components/dashboard/DonutChart.jsx:10-12 | one slice per positive-spend ad set, in input order, each named and valued from its ad set |
| DonutChart.PositiveSlicesTotal | frontend/components/dashboard/DonutChart.jsx:10-12 | the slices add up to the total positive spend |
| DonutChart.Ordered | frontend/components/dashboard/DonutChart.jsx:10-13 | the data is a permutation of the positive slices with the largest first |
| DonutChart.OrderedTotal | frontend/components/dashboard/DonutChart.jsx:13 | ordering keeps the total positive spend |
| DonutChart.ChartData | frontend/components/dashboard/DonutChart.jsx:7-21 | nothing for absent or empty input; at most five slices; five or fewer are kept as they are; more keep the largest four plus `Outros` holding the sum of the rest; the total is always the total positive spend |
| CPAHorizontalBar.PositiveBars | frontend/components/dashboard/CPAHorizontalBar.jsx:10-12 | exactly the ad sets with a positive CPA become bars, named and valued from their ad set |
| CPAHorizontalBar.PositiveBarsInOrder | frontend/components/dashboard/CPAHorizontalBar.jsx:10-12 | one bar per positive-CPA ad set, in input order, each named and valued from its ad set |
| CPAHorizontalBar.ChartData | frontend/components/dashboard/CPAHorizontalBar.jsx:7-13 | nothing for absent or empty input; otherwise a permutation of the positive-CPA bars in ascending CPA, each from an ad set of the input |
| CPAHorizontalBar.Color | frontend/components/dashboard/CPAHorizontalBar.jsx:50 | a bar is red exactly when its CPA is above 50 |
| CPAHorizontalBar.ColorMonotone | frontend/components/dashboard/CPAHorizontalBar.jsx:50 | a dearer bar is red whenever a cheaper one is |
| AdSetTable.CpmCell | frontend/components/dashboard/AdSetTable.jsx:43-48 | a missing CPM counts as 0; above 80 is expensive, above 40 up to 80 a warning, otherwise normal |
| AdSetTable.CpmCellMonotone | frontend/components/dashboard/AdSetTable.jsx:46-48 | a dearer CPM is never flagged milder |
| AdSetTable.CtrCell | frontend/components/dashboard/AdSetTable.jsx:60-65 | a missing CTR counts as 0; below 1 is low, 2 or more high, otherwise normal |
| AdSetTable.CtrCellMonotone | frontend/components/dashboard/AdSetTable.jsx:63-65 | a higher CTR never gets a worse class |
| AdSetTable.CpaCell | frontend/components/dashboard/AdSetTable.jsx:87-91 | a missing CPA counts as 0; good exactly when strictly between 0 and 20, bad exactly above 50, neutral otherwise |
| AdSetTable.CpaCellMonotone | frontend/components/dashboard/AdSetTable.jsx:89-91 | among positive CPAs a dearer one is never classed better |
| AdSetTable.IsFatigued | frontend/components/dashboard/AdSetTable.jsx:105-107 | an ad set is fatigued exactly when its frequency is present and above 3 |
| ABViewerModal.WinnerColor | frontend/components/dashboard/ABViewerModal.jsx:12-19 | tied exactly on equal values; otherwise winning exactly when higher (or lower, for lower-is-better) |
| ABViewerModal.ExactlyOneWins | frontend/components/dashboard/ABViewerModal.jsx:12-19 | for two different values exactly one side wins and the other loses |
| ABViewerModal.PanelFor | frontend/components/dashboard/ABViewerModal.jsx:68-86 | one side's panel wins clicks, CTR and ROAS exactly when higher and CPA exactly when lower than the other side, and ties each metric exactly on equal values |
| ABViewerModal.Comparison | frontend/components/dashboard/ABViewerModal.jsx:7-126 | panels exist exactly when the modal is open with two ads; each side wins clicks, CTR and ROAS exactly when higher, CPA exactly when lower |
| ABViewerModal.ZeroCpaWinsHereButRanksLast | frontend/components/dashboard/ABViewerModal.jsx:80 | a CPA of 0 wins the A/B CPA comparison against any positive CPA, yet the CPA ranking puts it after that ad |
| KPICards.ColorOf | frontend/components/dashboard/KPICards.jsx:11 | ROAS of at least 2 is green, below 1 red, in between yellow |
| KPICards.RoasCard | frontend/components/dashboard/KPICards.jsx:5-11 | no overview renders nothing; otherwise the card takes its ROAS band |
| KPICards.ColorMonotone | frontend/components/dashboard/KPICards.jsx:11 | a higher ROAS never gets a worse colour |
| DashboardHeader.PresetValuesDistinct | frontend/components/dashboard/DashboardHeader.jsx:25-35 | the nine preset values are pairwise distinct |
| DashboardHeader.NoPresetHasComma | frontend/components/dashboard/DashboardHeader.jsx:25-35 | no preset value contains a comma |
| DashboardHeader.FindRange | frontend/components/dashboard/DashboardHeader.jsx:105 | `find` returns the first preset with the value, and nothing exactly when none has it |
| DashboardHeader.RangeCaption | frontend/components/dashboard/DashboardHeader.jsx:105 | a preset value shows its label; another value with a comma shows `Personalizado`; anything else shows `Selecione...` |
| DashboardHeader.DateRangeLabel | frontend/components/dashboard/DashboardHeader.jsx:15 | a missing `dateRange` defaults to `30d` and shows `Últimos 30 dias`; a given one shows its caption |
| DashboardHeader.CustomRangeLabel | frontend/components/dashboard/DashboardHeader.jsx:148-158 | every `start,end` range the calendar emits is labelled `Personalizado` |
| DashboardHeader.KpiDisplay | frontend/components/dashboard/DashboardHeader.jsx:83 | the selector shows the KPI upper-cased, or `ROAS` when it is absent or empty; never an empty or lower-case text |
| DashboardHeader.DatePicker.constructor | frontend/components/dashboard/DashboardHeader.jsx:20-23 | the picker starts closed, not in custom mode, with no dates |
| DashboardHeader.DatePicker.View | frontend/components/dashboard/DashboardHeader.jsx:108-137 | the preset list shows exactly when open and not custom, the calendar exactly when open and custom |
| DashboardHeader.DatePicker.ToggleClick | frontend/components/dashboard/DashboardHeader.jsx:98-101 | the date button flips open/closed and always leaves custom mode, so it shows the preset list or nothing |
| DashboardHeader.DatePicker.OverlayClick | frontend/components/dashboard/DashboardHeader.jsx:114 | the overlay closes the picker and keeps the custom flag and the dates |
| DashboardHeader.DatePicker.PresetClick | frontend/components/dashboard/DashboardHeader.jsx:120-126 | `custom` switches to the calendar and emits nothing; any other preset is emitted and closes the menu |
| DashboardHeader.DatePicker.DatesChange | frontend/components/dashboard/DashboardHeader.jsx:148-158 | both dates chosen emits `start,end` and closes everything; otherwise nothing is emitted and the calendar stays open; the dates are stored either way |

## Left out

- Looking the report up in the database is not modelled. The same goes for the 404 answer for an unknown id and the 500 answer on any thrown error (`backend/controllers/reportController.js:15-21` and `78-84`). These are persistence and HTTP. `GetReport` starts from a found report definition.
- `fetchAdData` and `getCreativeDetails` (`backend/services/facebookService.js:11-29` and `89-128`) are left out. They make network calls to the ad platform, check the access token and page the results. `GetReport` takes the fetch as a function parameter: `None` stands for an absent result, and a thrown fetch error belongs to the 500 path left out above.
- `Number.parseFloat` and `Number.parseInt` with `|| 0` are not modelled as parsers. Each raw field arrives already parsed as an optional number, with `None` for absent or not-a-number. IEEE doubles, NaN, infinities and rounding are not modelled: numbers are exact reals and unbounded integers.
- Dates are not parsed. Trend rows carry an integer date key in place of `new Date(date)`. The `formatedDate` display string is not modelled, and the calendar's dates arrive already formatted as days (`toISOString().split('T')[0]`).
- Text.Lower, Text.Upper: only the ASCII letters change case. JavaScript also maps non-ASCII letters.
- ReportController.GetReport: ranks with the corrected CPA order, not the inconsistent comparator as written (see Findings). What a JavaScript engine does with the inconsistent comparator is engine-dependent and not modelled.
- Trend rows are assumed to carry numeric `spend`, `impressions`, `clicks`, `revenue` and `conversoes`. Derived fields that a row already carries are always recomputed, so they are not modelled.
- Rendering is not modelled. That covers JSX, the recharts and react-table components, the colour palette, the currency, percent and compact number formatters, and the remaining table columns, which only display values.
- The metric selectors of the two trend charts (`metricLeft`, `metricRight`, `metric`) only choose which already-computed field is drawn, so they are not modelled.
- The header's breadcrumb buttons and KPI `<select>` are not modelled: they only forward to the parent's callbacks. A handler's call to `onDateRangeChange` is modelled as the method's `emitted` result.
- Routes, `server.js`, `seed.js` and the report-creation endpoint are not part of this model.

## Findings

| source | as written | input that shows it | evidently intended | confidence | as-written member | corrected member |
|---|---|---|---|---|---|---|
| backend/controllers/reportController.js:50-51 | the CPA comparator returns 1 whenever the first ad's CPA is 0, whatever the second's | two ads with CPA 0 (or one such ad compared with itself): each comparison returns 1, so each ad claims to sort after the other | ads with CPA 0 form one tied block at the end: two zeros compare as 0, and a zero is after every positive CPA | medium, not executed | ReportController.CpaZeroPairInconsistent | ReportController.Compare |

`ReportController.Compare`'s contract says it is non-positive exactly when `ReportController.Precedes` holds, the order that `SortAds` and `GetReport` use. `ReportController.PrecedesTotal` and `ReportController.PrecedesTransitive` make that order a total preorder. `ReportController.CompareAntisymmetric` shows that the comparator flips sign when its arguments swap. Together these make it a consistent comparator.
