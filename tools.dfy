/** The deterministic helpers of the tool layer (src/tools.ts): the category
    and inventory recommendation rules, the velocity sort, the not-found
    list of a batch lookup, the seller-count competition and margin rule,
    the price-history statistics, the displayed ranks and the fast/slow/
    stockout lists. Recommendation lines are values of a datatype whose
    text is given by a function; the leading emoji are not modelled. */
module Tools {
  import opened Wrappers
  import opened Numbers
  import opened Seqs
  import opened Sorting
  import opened Products
  import opened Velocity
  import opened Inventory

  // ---- category recommendations (src/tools.ts:941-972) ----

  /** The insight figures the rule reads: the average price is a whole
      number of cents, the opportunity score a fraction (its saturation term
      is scaled by 0.4). */
  datatype CategoryInsights = CategoryInsights(competitionLevel: string, averagePrice: int, opportunityScore: real)

  datatype CategoryAdvice =
    | HighOpportunity | ModerateOpportunity | SaturatedMarket
    | LowCompetition | HighCompetition
    | PremiumPrice | PriceSensitive
    | UseProductFinder | StudyTopPerformers
    | MonitorTrends

  function CategoryMessage(a: CategoryAdvice): string {
    match a
    case HighOpportunity => "High opportunity category - consider immediate entry with differentiated product"
    case ModerateOpportunity => "Moderate opportunity - focus on niche segments or product improvements"
    case SaturatedMarket => "Saturated market - only enter with significant competitive advantages"
    case LowCompetition => "Low competition detected - opportunity for premium positioning"
    case HighCompetition => "High competition - focus on unique value propositions and cost optimization"
    case PremiumPrice => "Higher price point category - justify premium with quality and features"
    case PriceSensitive => "Price-sensitive market - optimize for cost-effectiveness and value"
    case UseProductFinder => "Use Product Finder tool to identify specific low-competition products"
    case StudyTopPerformers => "Analyze top performers for successful product patterns"
    case MonitorTrends => "Monitor trends regularly to time market entry/exit decisions"
  }

  /** The category advice the insights call for, in the tool's order: the
      opportunity tier, the competition line (none unless 'Low' or 'High'),
      the price line, the two research lines for an 'opportunities'
      analysis, and the closing trends line. */
  function CategoryAdviceFor(analysisType: string, insights: CategoryInsights): seq<CategoryAdvice> {
    [if insights.opportunityScore > 70.0 then HighOpportunity
     else if insights.opportunityScore > 40.0 then ModerateOpportunity
     else SaturatedMarket]
    + (if insights.competitionLevel == "Low" then [LowCompetition]
       else if insights.competitionLevel == "High" then [HighCompetition] else [])
    + [if insights.averagePrice > 5000 then PremiumPrice else PriceSensitive]
    + (if analysisType == "opportunities" then [UseProductFinder, StudyTopPerformers] else [])
    + [MonitorTrends]
  }

  /** generateRecommendations of the category tool: an opportunity tier, an
      optional competition line, a price line, the two research lines for an
      'opportunities' analysis, and the closing trends line. */
  method GenerateCategoryRecommendations(analysisType: string, insights: CategoryInsights) returns (recs: seq<CategoryAdvice>)
    ensures recs == CategoryAdviceFor(analysisType, insights)
    ensures 3 <= |recs| <= 6
    ensures recs[0] == if insights.opportunityScore > 70.0 then HighOpportunity
                       else if insights.opportunityScore > 40.0 then ModerateOpportunity
                       else SaturatedMarket
    ensures recs[|recs| - 1] == MonitorTrends
    ensures LowCompetition in recs <==> insights.competitionLevel == "Low"
    ensures HighCompetition in recs <==> insights.competitionLevel == "High"
    ensures PremiumPrice in recs <==> insights.averagePrice > 5000
    ensures PriceSensitive in recs <==> insights.averagePrice <= 5000
    ensures UseProductFinder in recs <==> analysisType == "opportunities"
    ensures StudyTopPerformers in recs <==> analysisType == "opportunities"
    ensures |recs| == 3 + (if insights.competitionLevel in {"Low", "High"} then 1 else 0)
                        + (if analysisType == "opportunities" then 2 else 0)
  {
    var tier;
    if insights.opportunityScore > 70.0 {
      tier := HighOpportunity;
    } else if insights.opportunityScore > 40.0 {
      tier := ModerateOpportunity;
    } else {
      tier := SaturatedMarket;
    }
    var competition := [];
    if insights.competitionLevel == "Low" {
      competition := [LowCompetition];
    } else if insights.competitionLevel == "High" {
      competition := [HighCompetition];
    }
    var price := if insights.averagePrice > 5000 then PremiumPrice else PriceSensitive;
    var research := if analysisType == "opportunities" then [UseProductFinder, StudyTopPerformers] else [];
    recs := [tier] + competition + [price] + research + [MonitorTrends];
    CategoryAssembled(tier, competition, price, research);
  }

  /** What the assembled category list holds, piece by piece. */
  lemma CategoryAssembled(tier: CategoryAdvice, competition: seq<CategoryAdvice>, price: CategoryAdvice, research: seq<CategoryAdvice>)
    requires tier == HighOpportunity || tier == ModerateOpportunity || tier == SaturatedMarket
    requires forall a :: a in competition ==> a == LowCompetition || a == HighCompetition
    requires price == PremiumPrice || price == PriceSensitive
    requires forall a :: a in research ==> a == UseProductFinder || a == StudyTopPerformers
    ensures var recs := [tier] + competition + [price] + research + [MonitorTrends];
      && |recs| == 3 + |competition| + |research|
      && recs[0] == tier && recs[|recs| - 1] == MonitorTrends
      && (LowCompetition in recs <==> LowCompetition in competition)
      && (HighCompetition in recs <==> HighCompetition in competition)
      && (PremiumPrice in recs <==> price == PremiumPrice)
      && (PriceSensitive in recs <==> price == PriceSensitive)
      && (UseProductFinder in recs <==> UseProductFinder in research)
      && (StudyTopPerformers in recs <==> StudyTopPerformers in research)
  {
  }

  // ---- inventory recommendations (src/tools.ts:1331-1357) ----

  datatype StockAdvice =
    | StrongPortfolio | LowPortfolio
    | StockoutRisk | SlowMoverMix
    | MonitorDaily | AimForLevels | FocusSpend

  function StockMessage(a: StockAdvice): string {
    match a
    case StrongPortfolio => "Strong portfolio velocity - maintain current strategy"
    case LowPortfolio => "Low portfolio velocity - consider more aggressive promotions"
    case StockoutRisk => "High stockout exposure - improve reorder point management"
    case SlowMoverMix => "Too many slow movers - evaluate product mix and consider liquidation"
    case MonitorDaily => "Monitor daily for velocity changes and adjust reorder points"
    case AimForLevels => "Aim for 15-45 day inventory levels for optimal cash flow"
    case FocusSpend => "Focus marketing spend on products with accelerating trends"
  }

  const StockClosingLines := [MonitorDaily, AimForLevels, FocusSpend]

  /** The stock advice the portfolio's figures call for, in the tool's
      order: the velocity line (none for an empty list), the stockout line,
      the slow-mover line, the three closing lines. */
  function StockAdviceFor(items: seq<VelocityItem>): seq<StockAdvice> {
    var n, avg := |items| as real, MeanOr(Monthlies(items), 0);
    (if items == [] then [] else if avg > 25.0 then [StrongPortfolio] else if avg < 15.0 then [LowPortfolio] else [])
    + (if RiskCount(items) as real > 0.2 * n then [StockoutRisk] else [])
    + (if SlowCount(items) as real > 0.3 * n then [SlowMoverMix] else [])
    + StockClosingLines
  }

  /** The tool's generateInventoryRecommendations: at most one velocity line
      (none between 15 and 25 a month, and none for an empty list, whose
      average is NaN), the stockout line above 20% high-risk products, the
      slow-mover line above 30% slow movers, then three fixed lines. The
      target turnover it is passed goes unused. */
  method GenerateStockRecommendations(items: seq<VelocityItem>) returns (recs: seq<StockAdvice>)
    ensures recs == StockAdviceFor(items)
    ensures 3 <= |recs| <= 6
    ensures recs[|recs| - 3..] == StockClosingLines
    ensures StrongPortfolio in recs <==> items != [] && MeanOr(Monthlies(items), 0) > 25.0
    ensures LowPortfolio in recs <==> items != [] && MeanOr(Monthlies(items), 0) < 15.0
    ensures StockoutRisk in recs <==> RiskCount(items) as real > 0.2 * |items| as real
    ensures SlowMoverMix in recs <==> SlowCount(items) as real > 0.3 * |items| as real
  {
    var velocity := [];
    if items != [] {
      if Above(Monthlies(items), 25, 0) {
        velocity := [StrongPortfolio];
      } else if Below(Monthlies(items), 15, 0) {
        velocity := [LowPortfolio];
      }
    }
    var risk := if 5 * RiskCount(items) > |items| then [StockoutRisk] else [];
    var slow := if 10 * SlowCount(items) > 3 * |items| then [SlowMoverMix] else [];
    recs := velocity + risk + slow + StockClosingLines;
    StockAssembled(velocity, risk, slow);
  }

  lemma StockAssembled(velocity: seq<StockAdvice>, risk: seq<StockAdvice>, slow: seq<StockAdvice>)
    requires |velocity| <= 1 && |risk| <= 1 && |slow| <= 1
    requires forall a :: a in velocity ==> a == StrongPortfolio || a == LowPortfolio
    requires forall a :: a in risk ==> a == StockoutRisk
    requires forall a :: a in slow ==> a == SlowMoverMix
    ensures var recs := velocity + risk + slow + StockClosingLines;
      && 3 <= |recs| <= 6
      && recs[|recs| - 3..] == StockClosingLines
      && (StrongPortfolio in recs <==> StrongPortfolio in velocity)
      && (LowPortfolio in recs <==> LowPortfolio in velocity)
      && (StockoutRisk in recs <==> StockoutRisk in risk)
      && (SlowMoverMix in recs <==> SlowMoverMix in slow)
  {
    var head := velocity + risk + slow;
    assert velocity + risk + slow + StockClosingLines == head + StockClosingLines;
    assert (head + StockClosingLines)[|head|..] == StockClosingLines;
  }

  // ---- velocity sort (src/tools.ts:1210-1238) ----

  datatype SortKey = ByVelocity | ByTurnover | ByRevenue | ByTrend

  /** The `sortBy` switch; anything unrecognised sorts by daily velocity. */
  function SortKeyOf(sortBy: string): (k: SortKey)
    ensures k == ByTurnover <==> sortBy == "turnoverRate"
    ensures k == ByRevenue <==> sortBy == "revenueVelocity"
    ensures k == ByTrend <==> sortBy == "trend"
  {
    if sortBy == "turnoverRate" then ByTurnover
    else if sortBy == "revenueVelocity" then ByRevenue
    else if sortBy == "trend" then ByTrend
    else ByVelocity
  }

  /** The compared figure; a NaN change percentage compares as 0. */
  function KeyValue(k: SortKey, v: VelocityItem): int {
    match k
    case ByVelocity => v.daily
    case ByTurnover => v.turnoverTenths
    case ByRevenue => v.revenueCents
    case ByTrend => v.changePercent.GetOr(0)
  }

  /** sortVelocityData: sorts the list in place on the chosen figure,
      non-increasing for 'desc' and non-decreasing for anything else. */
  method SortVelocityData(a: array<VelocityItem>, sortBy: string, sortOrder: string)
    modifies a
    ensures multiset(a[..]) == multiset(old(a[..]))
    ensures sortOrder == "desc" ==>
      forall i, j :: 0 <= i < j < a.Length ==> KeyValue(SortKeyOf(sortBy), a[i]) >= KeyValue(SortKeyOf(sortBy), a[j])
    ensures sortOrder != "desc" ==>
      forall i, j :: 0 <= i < j < a.Length ==> KeyValue(SortKeyOf(sortBy), a[i]) <= KeyValue(SortKeyOf(sortBy), a[j])
  {
    var k := SortKeyOf(sortBy);
    if sortOrder == "desc" {
      var key := (v: VelocityItem) => -KeyValue(k, v);
      SortBy(a, key);
      assert forall i, j :: 0 <= i < j < a.Length ==> key(a[..][i]) <= key(a[..][j]);
    } else {
      var key := (v: VelocityItem) => KeyValue(k, v);
      SortBy(a, key);
      assert forall i, j :: 0 <= i < j < a.Length ==> key(a[..][i]) <= key(a[..][j]);
    }
  }

  // ---- batch lookup: requested ASINs with no product (src/tools.ts:217-219) ----

  predicate Returned(products: seq<Product>, asin: string) {
    exists p :: p in products && p.asin == asin
  }

  /** The requested ASINs no returned product carries, duplicates kept:
      a missing ASIN occurs as often as it was requested. */
  function NotFound(requested: seq<string>, products: seq<Product>): (missing: seq<string>)
    ensures |missing| <= |requested|
    ensures forall a :: a in missing <==> a in requested && !Returned(products, a)
    ensures forall a :: multiset(missing)[a] == if Returned(products, a) then 0 else multiset(requested)[a]
  {
    var keep := (a: string) => !Returned(products, a);
    assert forall a :: keep(a) <==> !Returned(products, a);
    FilterCounts(requested, keep);
    Filter(requested, keep)
  }

  /** The missing ASINs appear in request order. */
  lemma NotFoundInRequestOrder(requested: seq<string>, products: seq<Product>) returns (pos: seq<nat>)
    ensures |pos| == |NotFound(requested, products)|
    ensures forall k :: 0 <= k < |pos| ==> pos[k] < |requested| && NotFound(requested, products)[k] == requested[pos[k]]
    ensures forall k, l :: 0 <= k < l < |pos| ==> pos[k] < pos[l]
  {
    pos := FilterKeepsOrder(requested, (a: string) => !Returned(products, a));
  }

  // ---- product finder: competition and margin (src/tools.ts:544-595) ----

  /** `avg90_COUNT_NEW || sellerCount || 1`: never 0. */
  function SellerCount(countNew: Option<int>, listed: Option<int>): (n: int)
    ensures n != 0
    ensures Truthy(countNew) ==> n == countNew.value
    ensures !Truthy(countNew) && Truthy(listed) ==> n == listed.value
    ensures !Truthy(countNew) && !Truthy(listed) ==> n == 1
  {
    OrElse(countNew, OrElse(listed, 1))
  }

  datatype Competition = Low | Medium | High

  /** The finder's competition rule: Medium unless at most three sellers
      (Low) or at least ten (High). */
  method FinderCompetition(sellerCount: int) returns (c: Competition)
    ensures c == Competition.Low <==> sellerCount <= 3
    ensures c == Competition.High <==> sellerCount >= 10
  {
    c := Competition.Medium;
    if sellerCount <= 3 {
      c := Competition.Low;
    } else if sellerCount >= 10 {
      c := Competition.High;
    }
  }

  /** The estimated margin `max(15, min(40, 30 - 2·sellers))`, in percent. */
  function EstimatedMargin(sellerCount: int): (m: int)
    ensures 15 <= m <= 40
    ensures sellerCount >= 0 ==> m <= 30
    ensures m == 40 <==> sellerCount <= -5
    ensures m == 15 <==> sellerCount >= 8
  {
    Max(15, Min(40, 30 - sellerCount * 2))
  }

  /** More sellers never raise the margin; a High-competition listing gets
      the floor, a Low-competition one at least 24%. */
  lemma MarginFallsWithSellers(fewer: int, more: int)
    requires fewer <= more
    ensures EstimatedMargin(more) <= EstimatedMargin(fewer)
    ensures more >= 10 ==> EstimatedMargin(more) == 15
    ensures 0 <= fewer <= 3 ==> EstimatedMargin(fewer) >= 24
  {
  }

  /** The margin line of a listing: shown only for a truthy price above
      1000 cents, with the estimated margin for its seller count. */
  function ShownMargin(price: Option<int>, sellerCount: int): (m: Option<int>)
    ensures m.Some? <==> Truthy(price) && price.value > 1000
    ensures m.Some? ==> m.value == EstimatedMargin(sellerCount) && 15 <= m.value <= 40
  {
    if Truthy(price) && price.value > 1000 then Some(EstimatedMargin(sellerCount)) else None
  }

  // ---- price history statistics (src/tools.ts:438, 446-457) ----

  /** The series shown as prices: Amazon, new and used (0-2) and buy box (18). */
  predicate IsPriceSeries(dataType: int) {
    dataType <= 2 || dataType == 18
  }

  datatype PriceStats = PriceStats(minimum: int, average: int, maximum: int)

  function MinOf(xs: seq<int>): (m: int)
    requires xs != []
    ensures m in xs && forall x :: x in xs ==> m <= x
  {
    if |xs| == 1 then xs[0]
    else
      assert forall x :: x in xs ==> x == xs[0] || x in xs[1..];
      Min(xs[0], MinOf(xs[1..]))
  }

  function MaxOf(xs: seq<int>): (m: int)
    requires xs != []
    ensures m in xs && forall x :: x in xs ==> x <= m
  {
    if |xs| == 1 then xs[0]
    else
      assert forall x :: x in xs ==> x == xs[0] || x in xs[1..];
      Max(xs[0], MaxOf(xs[1..]))
  }

  function Positive(x: int): bool { x > 0 }

  /** The statistics block: only for a price series with some positive
      value; the minimum and maximum of the positive values and their mean
      rounded to whole cents. */
  function PriceHistoryStats(dataType: int, values: seq<int>): (r: Option<PriceStats>)
    ensures r.Some? <==> IsPriceSeries(dataType) && exists v :: v in values && v > 0
    ensures r.Some? ==>
      && r.value.minimum in values && r.value.maximum in values
      && (forall v :: v in values && v > 0 ==> 0 < r.value.minimum <= v <= r.value.maximum)
      && r.value.average as real - 0.5 <= MeanOr(Filter(values, Positive), 0) < r.value.average as real + 0.5
  {
    var prices := Filter(values, Positive);
    if !IsPriceSeries(dataType) || prices == [] then None
    else
      RoundDivNearest(Sum(prices), |prices|);
      Some(PriceStats(MinOf(prices), RoundDiv(Sum(prices), |prices|), MaxOf(prices)))
  }

  /** The rounded average lies between the minimum and the maximum. */
  lemma AverageBetweenExtremes(dataType: int, values: seq<int>)
    requires PriceHistoryStats(dataType, values).Some?
    ensures var s := PriceHistoryStats(dataType, values).value;
      s.minimum <= s.average <= s.maximum
  {
    var prices := Filter(values, Positive);
    var s := PriceHistoryStats(dataType, values).value;
    forall i | 0 <= i < |prices|
      ensures s.minimum <= prices[i] <= s.maximum
    {
      assert prices[i] in prices;
    }
    RoundedMeanBounds(prices, s.minimum, s.maximum);
  }

  // ---- displayed ranks (src/tools.ts:544) ----

  /** The 1-based position of item i on a page of the product finder:
      `page * perPage + i + 1`. */
  function DisplayRank(page: nat, pageSize: nat, i: nat): (r: nat)
    requires i < pageSize
    ensures page * pageSize < r <= (page + 1) * pageSize
  {
    page * pageSize + i + 1
  }

  /** Different slots of the same page size never share a rank. */
  lemma RanksAreDistinct(page: nat, i: nat, otherPage: nat, j: nat, pageSize: nat)
    requires i < pageSize && j < pageSize
    requires page != otherPage || i != j
    ensures DisplayRank(page, pageSize, i) != DisplayRank(otherPage, pageSize, j)
  {
    if page < otherPage {
      MulLe(pageSize, page + 1, otherPage);
      assert (page + 1) * pageSize == pageSize * (page + 1);
      assert otherPage * pageSize == pageSize * otherPage;
    } else if otherPage < page {
      MulLe(pageSize, otherPage + 1, page);
      assert (otherPage + 1) * pageSize == pageSize * (otherPage + 1);
      assert page * pageSize == pageSize * page;
    }
  }

  // ---- inventory lists (src/tools.ts:1186-1188, 1202-1204) ----

  datatype InventoryLists = InventoryLists(
    fastMovers: seq<VelocityItem>,
    slowMovers: seq<VelocityItem>,
    stockoutRisks: seq<VelocityItem>)

  /** `slice(0, 10)`: the first ten elements, or all of fewer. */
  function FirstTen(xs: seq<VelocityItem>): (ys: seq<VelocityItem>)
    ensures |ys| == Min(10, |xs|)
    ensures ys <= xs
  {
    xs[..Min(10, |xs|)]
  }

  /** The fast, slow and High-risk products, each cut to its first ten. */
  function InventoryPartition(items: seq<VelocityItem>): (lists: InventoryLists)
    ensures lists.fastMovers == FirstTen(Filter(items, FastMover))
    ensures lists.slowMovers == FirstTen(Filter(items, SlowMover))
    ensures lists.stockoutRisks == FirstTen(Filter(items, AtRisk))
    ensures |lists.fastMovers| <= 10 && |lists.slowMovers| <= 10 && |lists.stockoutRisks| <= 10
    ensures forall v :: v in lists.fastMovers ==> v in items && FastMover(v)
    ensures forall v :: v in lists.slowMovers ==> v in items && SlowMover(v)
    ensures forall v :: v in lists.stockoutRisks ==> v in items && AtRisk(v)
    ensures FastCount(items) <= 10 ==> forall v :: v in items && FastMover(v) ==> v in lists.fastMovers
    ensures SlowCount(items) <= 10 ==> forall v :: v in items && SlowMover(v) ==> v in lists.slowMovers
    ensures RiskCount(items) <= 10 ==> forall v :: v in items && AtRisk(v) ==> v in lists.stockoutRisks
  {
    var fast, slow, risks := Filter(items, FastMover), Filter(items, SlowMover), Filter(items, AtRisk);
    assert FirstTen(fast) <= fast && FirstTen(slow) <= slow && FirstTen(risks) <= risks;
    InventoryLists(FirstTen(fast), FirstTen(slow), FirstTen(risks))
  }

  /** The fast and slow lists never share a product, and each list holds
      products of the input at increasing positions: the first ten that
      qualify, in input order. */
  lemma PartitionDisjointAndOrdered(items: seq<VelocityItem>) returns (fastPos: seq<nat>, slowPos: seq<nat>, riskPos: seq<nat>)
    ensures var lists := InventoryPartition(items);
      && (forall v :: !(v in lists.fastMovers && v in lists.slowMovers))
      && InputPositions(items, lists.fastMovers, fastPos)
      && InputPositions(items, lists.slowMovers, slowPos)
      && InputPositions(items, lists.stockoutRisks, riskPos)
  {
    fastPos := FirstTenPositions(items, FastMover);
    slowPos := FirstTenPositions(items, SlowMover);
    riskPos := FirstTenPositions(items, AtRisk);
  }

  /** `pos` gives, for each element of `list`, its position in `items`, the
      positions strictly increasing. */
  ghost predicate InputPositions(items: seq<VelocityItem>, list: seq<VelocityItem>, pos: seq<nat>) {
    && |pos| == |list|
    && (forall k :: 0 <= k < |pos| ==> pos[k] < |items| && list[k] == items[pos[k]])
    && (forall k, l :: 0 <= k < l < |pos| ==> pos[k] < pos[l])
  }

  lemma FirstTenPositions(items: seq<VelocityItem>, keep: VelocityItem -> bool) returns (pos: seq<nat>)
    ensures InputPositions(items, FirstTen(Filter(items, keep)), pos)
  {
    var all := FilterKeepsOrder(items, keep);
    pos := all[..Min(10, |all|)];
  }
}
