/**
 * Turning one raw ad record of the ads platform into the figures the report
 * ranks (`formatMetrics`) and picking the creative's image and texts through
 * fixed fallback chains (`extractCreativeData`).
 *
 * Numeric fields arrive as text; `Number.parseFloat(x) || 0` and
 * `Number.parseInt(x, 10) || 0` are modelled by giving each field as an
 * already-parsed optional value, `None` standing for absent or not a number.
 */
module FacebookService {
  import opened Wrappers

  /** One entry of `insight.actions`; `value` is the entry's count after `parseInt`. */
  datatype Action = Action(actionType: string, value: Option<int>)

  /** One entry of `insight.purchase_roas`; `value` after `parseFloat`. */
  datatype RoasEntry = RoasEntry(value: Option<real>)

  /** One record of `insights.data`. */
  datatype Insight = Insight(
    spend: Option<real>,
    cpc: Option<real>,
    ctr: Option<real>,
    clicks: Option<int>,
    purchaseRoas: Option<seq<RoasEntry>>,
    actions: Option<seq<Action>>)

  /** The part of an ad's JSON that `formatMetrics` reads: `insights.data`, possibly absent. */
  datatype RawAd = RawAd(insights: Option<seq<Insight>>)

  /** The `metricas` object attached to every ad. */
  datatype Metrics = Metrics(spend: real, cpc: real, ctr: real, clicks: int, roas: real, cpa: real)

  const ZeroMetrics := Metrics(0.0, 0.0, 0.0, 0, 0.0, 0.0)

  /** The action types that count as a conversion, most preferred first. */
  const ConversionTypes: seq<string> := ["purchase", "lead", "onsite_web_lead"]

  /** `actions.find(a => a.action_type === t)`, as the index of the first action of type `t`. */
  function FindAction(actions: seq<Action>, t: string): (r: Option<nat>)
    ensures r.None? <==> forall i :: 0 <= i < |actions| ==> actions[i].actionType != t
    ensures r.Some? ==> r.value < |actions| && actions[r.value].actionType == t
    ensures r.Some? ==> forall j :: 0 <= j < r.value ==> actions[j].actionType != t
  {
    if actions == [] then None
    else if actions[0].actionType == t then Some(0)
    else match FindAction(actions[1..], t)
      case None => None
      case Some(k) => Some(k + 1)
  }

  /** Whether some action has type `t`. */
  predicate HasAction(actions: seq<Action>, t: string) {
    exists i :: 0 <= i < |actions| && actions[i].actionType == t
  }

  /**
   * The action whose count is used as conversions: the first `purchase`, else the
   * first `lead`, else the first `onsite_web_lead`.
   */
  function ConversionAction(actions: seq<Action>): (r: Option<Action>)
    ensures r.None? <==>
              !HasAction(actions, "purchase") && !HasAction(actions, "lead") && !HasAction(actions, "onsite_web_lead")
    ensures r.Some? ==> r.value in actions && r.value.actionType in ConversionTypes
    ensures HasAction(actions, "purchase") ==> r.Some? && r.value.actionType == "purchase"
    ensures r.Some? && r.value.actionType == "lead" ==> !HasAction(actions, "purchase")
    ensures r.Some? && r.value.actionType == "onsite_web_lead" ==>
              !HasAction(actions, "purchase") && !HasAction(actions, "lead")
    ensures r.Some? ==>
      exists i :: 0 <= i < |actions| && actions[i] == r.value &&
        (forall j :: 0 <= j < i ==> actions[j].actionType != r.value.actionType)
  {
    match FindAction(actions, "purchase")
    case Some(i) => Some(actions[i])
    case None =>
      match FindAction(actions, "lead")
      case Some(i) => Some(actions[i])
      case None =>
        match FindAction(actions, "onsite_web_lead")
        case Some(i) => Some(actions[i])
        case None => None
  }

  /** The conversion count the CPA divides by: the chosen action's parsed value, 0 when there is none. */
  function Conversions(insight: Insight): (n: int)
    ensures insight.actions.None? ==> n == 0
    ensures insight.actions.Some? && ConversionAction(insight.actions.value).None? ==> n == 0
    ensures n != 0 ==>
      insight.actions.Some? && ConversionAction(insight.actions.value).Some? &&
      ConversionAction(insight.actions.value).value.value == Some(n)
    ensures insight.actions.Some? && ConversionAction(insight.actions.value).Some? &&
            ConversionAction(insight.actions.value).value.value.Some? ==>
      n == ConversionAction(insight.actions.value).value.value.value
  {
    match insight.actions
    case None => 0
    case Some(actions) =>
      match ConversionAction(actions)
      case None => 0
      case Some(a) => a.value.GetOr(0)
  }

  /** The ROAS: the first `purchase_roas` entry's value, 0 when the list is absent or empty. */
  function Roas(insight: Insight): (r: real)
    ensures insight.purchaseRoas.None? || insight.purchaseRoas.value == [] ==> r == 0.0
    ensures r != 0.0 ==>
      insight.purchaseRoas.Some? && |insight.purchaseRoas.value| > 0 &&
      insight.purchaseRoas.value[0].value == Some(r)
    ensures insight.purchaseRoas.Some? && |insight.purchaseRoas.value| > 0 &&
            insight.purchaseRoas.value[0].value.Some? ==>
      r == insight.purchaseRoas.value[0].value.value
  {
    match insight.purchaseRoas
    case Some(entries) => if |entries| > 0 then entries[0].value.GetOr(0.0) else 0.0
    case None => 0.0
  }

  /** `formatMetrics`: the six figures of an ad, every missing or unparseable field defaulting to 0. */
  function FormatMetrics(ad: RawAd): (m: Metrics)
    ensures ad.insights.None? || ad.insights.value == [] ==> m == ZeroMetrics
    ensures ad.insights.Some? && ad.insights.value != [] ==>
      var insight := ad.insights.value[0];
      && m.spend == insight.spend.GetOr(0.0)
      && m.cpc == insight.cpc.GetOr(0.0)
      && m.ctr == insight.ctr.GetOr(0.0)
      && m.clicks == insight.clicks.GetOr(0)
      && m.roas == Roas(insight)
      && (m.cpa != 0.0 <==> m.spend > 0.0 && Conversions(insight) > 0)
      && (m.cpa != 0.0 ==> m.cpa > 0.0 && m.cpa * Conversions(insight) as real == m.spend)
    ensures ad.insights.Some? && ad.insights.value != [] ==>
      var insight := ad.insights.value[0];
      && (insight.purchaseRoas.Some? && |insight.purchaseRoas.value| > 0 &&
          insight.purchaseRoas.value[0].value.Some? ==>
            m.roas == insight.purchaseRoas.value[0].value.value)
      && (insight.actions.Some? && ConversionAction(insight.actions.value).Some? &&
          ConversionAction(insight.actions.value).value.value.Some? &&
          ConversionAction(insight.actions.value).value.value.value > 0 && m.spend > 0.0 ==>
            m.cpa == m.spend / ConversionAction(insight.actions.value).value.value.value as real)
  {
    match ad.insights
    case None => ZeroMetrics
    case Some(data) =>
      if |data| == 0 then ZeroMetrics
      else
        var insight := data[0];
        var spend := insight.spend.GetOr(0.0);
        var conversions := Conversions(insight);
        var cpa := if spend > 0.0 && conversions > 0 then spend / conversions as real else 0.0;
        Metrics(spend, insight.cpc.GetOr(0.0), insight.ctr.GetOr(0.0), insight.clicks.GetOr(0), Roas(insight), cpa)
  }

  /** Entries after the first insight record never change the figures. */
  lemma OnlyFirstInsightRead(first: Insight, rest: seq<Insight>)
    ensures FormatMetrics(RawAd(Some([first] + rest))) == FormatMetrics(RawAd(Some([first])))
  {
  }

  /** CPA is 0 whenever nothing was spent or no conversion action is present. */
  lemma CpaZeroWithoutSpendOrConversion(ad: RawAd)
    requires ad.insights.Some? && ad.insights.value != []
    requires var insight := ad.insights.value[0];
      insight.spend.GetOr(0.0) <= 0.0 || insight.actions.None? ||
      (!HasAction(insight.actions.value, "purchase") && !HasAction(insight.actions.value, "lead") &&
       !HasAction(insight.actions.value, "onsite_web_lead"))
    ensures FormatMetrics(ad).cpa == 0.0
  {
  }

  /** `creative.image_url`, `creative.title`, ...: each field a text that may be absent. */
  datatype LinkData = LinkData(message: Option<string>, name: Option<string>)
  datatype VideoData = VideoData(message: Option<string>, title: Option<string>)
  datatype StorySpec = StorySpec(linkData: Option<LinkData>, videoData: Option<VideoData>)
  datatype CreativeDetails = CreativeDetails(
    imageUrl: Option<string>,
    thumbnailUrl: Option<string>,
    title: Option<string>,
    body: Option<string>,
    objectStorySpec: Option<StorySpec>)

  /** What an ad card shows of its creative. */
  datatype Creative = Creative(
    imageUrl: Option<string>,
    videoUrl: Option<string>,
    copyPrincipal: Option<string>,
    title: Option<string>)

  /** JavaScript truthiness of a text that may be absent: present and non-empty. */
  predicate Truthy(o: Option<string>) {
    o.Some? && o.value != ""
  }

  /** `a || b` on texts. */
  function Or(a: Option<string>, b: Option<string>): Option<string> {
    if Truthy(a) then a else b
  }

  /**
   * `c0 || c1 || ... || cn`, the reference meaning of a fallback chain: the first
   * truthy candidate, and the last candidate when none is truthy.
   */
  function Coalesce(chain: seq<Option<string>>): (r: Option<string>)
    requires |chain| > 0
    ensures Truthy(r) <==> exists i :: 0 <= i < |chain| && Truthy(chain[i])
    ensures Truthy(r) ==>
      exists i :: 0 <= i < |chain| && chain[i] == r &&
        (forall j :: 0 <= j < i ==> !Truthy(chain[j]))
    ensures (forall i :: 0 <= i < |chain| ==> !Truthy(chain[i])) ==> r == chain[|chain| - 1]
  {
    if |chain| == 1 || Truthy(chain[0]) then chain[0]
    else
      var r := Coalesce(chain[1..]);
      assert forall i :: 1 <= i < |chain| ==> chain[i] == chain[1..][i - 1];
      r
  }

  /** Where the title and the copy come from: the creative, then link data, else video data. */
  function TitleChain(d: CreativeDetails, fallbackName: Option<string>): seq<Option<string>> {
    [d.title] +
    (match d.objectStorySpec
     case Some(StorySpec(Some(link), _)) => [link.name]
     case Some(StorySpec(None, Some(video))) => [video.title]
     case _ => []) +
    [fallbackName]
  }

  function CopyChain(d: CreativeDetails): seq<Option<string>> {
    [d.body] +
    match d.objectStorySpec
    case Some(StorySpec(Some(link), _)) => [link.message]
    case Some(StorySpec(None, Some(video))) => [video.message]
    case _ => []
  }

  /** `extractCreativeData`: the creative's image, copy and title, resolved through their fallbacks. */
  function ExtractCreativeData(details: Option<CreativeDetails>, fallbackName: Option<string>): (c: Creative)
    ensures c.videoUrl.None?
    ensures details.None? ==> c.imageUrl.None? && c.copyPrincipal.None? && c.title == fallbackName
    ensures details.Some? ==>
      && c.imageUrl == Coalesce([details.value.imageUrl, details.value.thumbnailUrl])
      && c.copyPrincipal == Coalesce(CopyChain(details.value))
      && c.title == Coalesce(TitleChain(details.value, fallbackName))
    ensures Truthy(fallbackName) ==> Truthy(c.title)
  {
    if details.None? then Creative(None, None, None, fallbackName)
    else
      var d := details.value;
      var imageUrl := Or(d.imageUrl, d.thumbnailUrl);
      var (copyPrincipal, title) :=
        match d.objectStorySpec
        case Some(StorySpec(Some(link), _)) => (Or(d.body, link.message), Or(d.title, link.name))
        case Some(StorySpec(None, Some(video))) => (Or(d.body, video.message), Or(d.title, video.title))
        case _ => (d.body, d.title);
      Creative(imageUrl, None, copyPrincipal, Or(title, fallbackName))
  }

  /** The creative's own title wins over link data and video data, and link data over video data. */
  lemma TitlePrecedence(d: CreativeDetails, fallbackName: Option<string>)
    ensures Truthy(d.title) ==> ExtractCreativeData(Some(d), fallbackName).title == d.title
    ensures !Truthy(d.title) && d.objectStorySpec.Some? && d.objectStorySpec.value.linkData.Some? &&
            Truthy(d.objectStorySpec.value.linkData.value.name) ==>
              ExtractCreativeData(Some(d), fallbackName).title == d.objectStorySpec.value.linkData.value.name
    ensures !Truthy(d.title) && d.objectStorySpec.Some? && d.objectStorySpec.value.linkData.None? &&
            d.objectStorySpec.value.videoData.Some? && Truthy(d.objectStorySpec.value.videoData.value.title) ==>
              ExtractCreativeData(Some(d), fallbackName).title == d.objectStorySpec.value.videoData.value.title
  {
  }
}
