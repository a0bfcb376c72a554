/** The inventory roll-up over analysed products
    (src/keepa-client.ts:640-816): averages and counts, the portfolio health
    verdict, the recommendation list and the report analyzeInventory
    assembles from them. Averages are compared against thresholds exactly
    (as reals, decided on integers); the `Math.round(x * 10) / 10` figures are
    kept in tenths and money in cents. */
module Inventory {
  import opened Wrappers
  import opened Numbers
  import opened Seqs
  import opened Velocity

  /** The three filters the roll-up counts with. */
  predicate FastMover(v: VelocityItem) { v.monthly >= 30 }

  predicate SlowMover(v: VelocityItem) { v.monthly < 10 }

  predicate AtRisk(v: VelocityItem) { v.stockoutRisk == High }

  function FastCount(items: seq<VelocityItem>): nat { |Filter(items, FastMover)| }

  function SlowCount(items: seq<VelocityItem>): nat { |Filter(items, SlowMover)| }

  function RiskCount(items: seq<VelocityItem>): nat { |Filter(items, AtRisk)| }

  /** A product is never both a fast and a slow mover. */
  lemma MoversFit(items: seq<VelocityItem>)
    ensures FastCount(items) + SlowCount(items) <= |items|
  {
    DisjointFiltersFit(items, FastMover, SlowMover);
  }

  /** The per-item figures the averages read. */
  function Monthlies(items: seq<VelocityItem>): (xs: seq<int>)
    ensures |xs| == |items| && forall i :: 0 <= i < |items| ==> xs[i] == items[i].monthly
  {
    seq(|items|, i requires 0 <= i < |items| => items[i].monthly as int)
  }

  function Turnovers(items: seq<VelocityItem>): (xs: seq<int>)
    ensures |xs| == |items| && forall i :: 0 <= i < |items| ==> xs[i] == items[i].turnoverTenths
  {
    seq(|items|, i requires 0 <= i < |items| => items[i].turnoverTenths)
  }

  function DaysOf(items: seq<VelocityItem>): (xs: seq<int>)
    ensures |xs| == |items| && forall i :: 0 <= i < |items| ==> xs[i] == items[i].daysOfInventory
  {
    seq(|items|, i requires 0 <= i < |items| => items[i].daysOfInventory)
  }

  function Revenues(items: seq<VelocityItem>): (xs: seq<int>)
    ensures |xs| == |items| && forall i :: 0 <= i < |items| ==> xs[i] == items[i].revenueCents
  {
    seq(|items|, i requires 0 <= i < |items| => items[i].revenueCents)
  }

  /** `Math.round(total / n * scale)`: the scaled quotient rounded to the
      nearest integer, halves up. */
  function Rounded(total: int, n: int, scale: int): (r: int)
    requires n > 0
    ensures r as real - 0.5 <= (scale * total) as real / n as real < r as real + 0.5
  {
    RoundDivNearest(scale * total, n);
    RoundDiv(scale * total, n)
  }

  /** calculateAverageTurnover: the mean turnover rounded to one decimal, in
      tenths; 0 without products. */
  function CalculateAverageTurnover(items: seq<VelocityItem>): (t: int)
    ensures items == [] ==> t == 0
    ensures items != [] ==> t as real - 0.5 <= MeanOr(Turnovers(items), 0) < t as real + 0.5
  {
    if items == [] then 0 else Rounded(Sum(Turnovers(items)), |items|, 1)
  }

  /** The averaged turnover stays within the bounds every product's does. */
  lemma AverageTurnoverBounds(items: seq<VelocityItem>, lo: int, hi: int)
    requires items != []
    requires forall i :: 0 <= i < |items| ==> lo <= items[i].turnoverTenths <= hi
    ensures lo <= CalculateAverageTurnover(items) <= hi
  {
    RoundedMeanBounds(Turnovers(items), lo, hi);
  }

  const ExcellentHealth := "Excellent - High velocity, low risk portfolio"
  const GoodHealth := "Good - Balanced velocity with manageable risk"
  const PoorHealth := "Poor - Too many slow movers impacting cash flow"
  const FairHealth := "Fair - Room for improvement in velocity optimization"

  /** assessPortfolioHealth on the fast and slow shares; with no products
      both shares are NaN, every comparison fails and the verdict is Fair. */
  function AssessPortfolioHealth(items: seq<VelocityItem>): (h: string)
    ensures items == [] ==> h == FairHealth
    ensures items != [] ==>
      var n, fast, slow := |items| as real, FastCount(items) as real, SlowCount(items) as real;
      && (h == ExcellentHealth <==> fast > 0.3 * n && slow < 0.3 * n)
      && (h == GoodHealth <==> !(fast > 0.3 * n && slow < 0.3 * n) && fast > 0.2 * n && slow < 0.4 * n)
      && (h == PoorHealth <==>
            !(fast > 0.3 * n && slow < 0.3 * n) && !(fast > 0.2 * n && slow < 0.4 * n) && slow > 0.5 * n)
  {
    var n, fast, slow := |items|, FastCount(items), SlowCount(items);
    if n == 0 then FairHealth
    else if 10 * fast > 3 * n && 10 * slow < 3 * n then ExcellentHealth
    else if 5 * fast > n && 5 * slow < 2 * n then GoodHealth
    else if 2 * slow > n then PoorHealth
    else FairHealth
  }

  /** A Poor portfolio has fewer than half its products moving fast, and an
      Excellent one more fast movers than slow ones. */
  lemma HealthVerdictsReflectMix(items: seq<VelocityItem>)
    requires items != []
    ensures AssessPortfolioHealth(items) == PoorHealth ==> 2 * FastCount(items) < |items|
    ensures AssessPortfolioHealth(items) == ExcellentHealth ==> FastCount(items) > SlowCount(items)
  {
    MoversFit(items);
  }

  /** The lines generateInventoryRecommendations can push. */
  datatype Advice =
    | NothingToAnalyzeLine | NoProductsExpand
    | StrongVelocity | LowVelocity | ModerateVelocity
    | StockoutExposure | MonitorStockouts
    | TooManySlowMovers | NeedFastMovers
    | HighInventory | LowInventory
    | MonitorWeekly | TargetDays | FocusMarketing

  /** The text of each line, without its leading emoji. */
  function Message(a: Advice): string {
    match a
    case NothingToAnalyzeLine => "No products to analyze"
    case NoProductsExpand => "No products to analyze - consider expanding product portfolio"
    case StrongVelocity => "Strong portfolio velocity - maintain current sourcing strategy"
    case LowVelocity => "Low portfolio velocity - consider more aggressive pricing and promotion"
    case ModerateVelocity => "Moderate velocity - optimize product mix for better performance"
    case StockoutExposure => "High stockout risk exposure - implement automated reorder points"
    case MonitorStockouts => "Monitor stockout risks - set up velocity alerts for fast movers"
    case TooManySlowMovers => "Too many slow movers - implement liquidation strategy for bottom 20%"
    case NeedFastMovers => "Need more fast movers - research trending products in successful categories"
    case HighInventory => "High inventory levels - optimize reorder quantities to improve cash flow"
    case LowInventory => "Low inventory levels - consider increasing safety stock to avoid stockouts"
    case MonitorWeekly => "Monitor velocity weekly and adjust reorder points based on trend changes"
    case TargetDays => "Target 20-35 day inventory levels for optimal cash flow balance"
    case FocusMarketing => "Focus marketing budget on products with accelerating velocity trends"
  }

  const OperationalLines := [MonitorWeekly, TargetDays, FocusMarketing]

  datatype PerformanceMetrics = PerformanceMetrics(
    averageVelocityTenths: int,
    averageTurnoverTenths: int,
    totalRevenueCents: int,
    averageDaysInventory: int)

  datatype RiskAssessment = RiskAssessment(
    highRiskProducts: nat,
    riskPercentage: int,
    slowMoversRatio: int,
    fastMoversRatio: int)

  datatype CashFlowMetrics = CashFlowMetrics(
    inventoryTurnsTenths: int,
    avgDaysToSell: real,
    portfolioHealth: string)

  /** The result of performInventoryAnalysis: a lone recommendation for an
      empty portfolio, the three metric groups otherwise. */
  datatype InventoryAnalysis =
    | NothingToAnalyze(recommendations: seq<Advice>)
    | Analysis(performance: PerformanceMetrics, risk: RiskAssessment, cashFlow: CashFlowMetrics)

  /** The performance group: the monthly velocity average in tenths and the
      days-of-inventory average, each the exact mean rounded to the nearest
      unit, and the exact revenue total in cents. */
  function Performance(items: seq<VelocityItem>): (p: PerformanceMetrics)
    requires items != []
    ensures p.averageVelocityTenths as real - 0.5 <= 10.0 * MeanOr(Monthlies(items), 0) < p.averageVelocityTenths as real + 0.5
    ensures p.averageTurnoverTenths == CalculateAverageTurnover(items)
    ensures p.totalRevenueCents == Sum(Revenues(items))
    ensures p.averageDaysInventory as real - 0.5 <= MeanOr(DaysOf(items), 0) < p.averageDaysInventory as real + 0.5
  {
    var n := |items|;
    ScaledMean(Sum(Monthlies(items)), n, 10);
    PerformanceMetrics(
      Rounded(Sum(Monthlies(items)), n, 10),
      CalculateAverageTurnover(items),
      Sum(Revenues(items)),
      Rounded(Sum(DaysOf(items)), n, 1))
  }

  /** The risk group: the high-risk count and the three shares as whole
      percentages, each the exact share rounded to the nearest unit. */
  function Risk(items: seq<VelocityItem>): (k: RiskAssessment)
    requires items != []
    ensures k.highRiskProducts == RiskCount(items)
    ensures k.riskPercentage as real - 0.5 <= 100.0 * (RiskCount(items) as real / |items| as real) < k.riskPercentage as real + 0.5
    ensures k.slowMoversRatio as real - 0.5 <= 100.0 * (SlowCount(items) as real / |items| as real) < k.slowMoversRatio as real + 0.5
    ensures k.fastMoversRatio as real - 0.5 <= 100.0 * (FastCount(items) as real / |items| as real) < k.fastMoversRatio as real + 0.5
  {
    var n := |items|;
    ScaledMean(RiskCount(items), n, 100);
    ScaledMean(SlowCount(items), n, 100);
    ScaledMean(FastCount(items), n, 100);
    RiskAssessment(RiskCount(items), Rounded(RiskCount(items), n, 100),
      Rounded(SlowCount(items), n, 100), Rounded(FastCount(items), n, 100))
  }

  /** performInventoryAnalysis: "No products to analyze" for an empty
      portfolio, otherwise the three groups; the cash-flow group repeats the
      turnover average and holds the exact mean days and the health verdict. */
  function PerformInventoryAnalysis(items: seq<VelocityItem>): (r: InventoryAnalysis)
    ensures items == [] <==> r.NothingToAnalyze?
    ensures items == [] ==> r.recommendations == [NothingToAnalyzeLine]
    ensures items != [] ==>
      && r.performance == Performance(items)
      && r.risk == Risk(items)
      && r.cashFlow == CashFlowMetrics(CalculateAverageTurnover(items), MeanOr(DaysOf(items), 0), AssessPortfolioHealth(items))
  {
    if items == [] then NothingToAnalyze([NothingToAnalyzeLine])
    else
      Analysis(Performance(items), Risk(items),
        CashFlowMetrics(CalculateAverageTurnover(items), MeanOr(DaysOf(items), 0), AssessPortfolioHealth(items)))
  }

  lemma ScaledMean(total: int, n: int, scale: int)
    requires n > 0
    ensures (scale * total) as real / n as real == scale as real * (total as real / n as real)
  {
  }

  /** The percentages are percentages: each lies in [0, 100]. */
  lemma RiskPercentagesInRange(items: seq<VelocityItem>)
    requires items != []
    ensures var k := Risk(items);
      && 0 <= k.riskPercentage <= 100
      && 0 <= k.slowMoversRatio <= 100
      && 0 <= k.fastMoversRatio <= 100
  {
    var n := |items|;
    RoundDivBetween(100 * RiskCount(items), n, 0, 100);
    RoundDivBetween(100 * SlowCount(items), n, 0, 100);
    RoundDivBetween(100 * FastCount(items), n, 0, 100);
  }

  /** Every analysed product holds between 1 and 30 days of inventory, so
      the rounded average does too. */
  lemma AverageDaysWithinMonth(items: seq<VelocityItem>)
    requires items != []
    requires forall i :: 0 <= i < |items| ==> 1 <= items[i].daysOfInventory <= 30
    ensures 1 <= Performance(items).averageDaysInventory <= 30
  {
    RoundedMeanBounds(DaysOf(items), 1, 30);
  }

  /** The products analyzeSalesVelocity produces meet that requirement. */
  lemma {:induction false} AnalysedDaysWithinMonth(products: seq<Products.Product>, minVelocity: Option<int>)
    ensures var items := AnalyzeSalesVelocity(products, minVelocity);
      forall i :: 0 <= i < |items| ==> 1 <= items[i].daysOfInventory <= 30
  {
    var items := AnalyzeSalesVelocity(products, minVelocity);
    forall i | 0 <= i < |items|
      ensures 1 <= items[i].daysOfInventory <= 30
    {
      VelocityMembership(products, minVelocity, items[i]);
      var p :| p in products && Kept(p, minVelocity) && Metrics(p) == Some(items[i]);
      MetricsDaysWithinMonth(p);
    }
  }

  /** Ceiling of 30 over a daily rate of at least one: between 1 and 30. */
  lemma MetricsDaysWithinMonth(p: Products.Product)
    requires Metrics(p).Some?
    ensures 1 <= Metrics(p).value.daysOfInventory <= 30
  {
    var v := Metrics(p).value;
    var m := Max(1, v.daily);
    assert m * 0 == 0 && m * 30 == 30 * m;
    LessByFactor(m, v.daysOfInventory - 1, 30);
    LessByFactor(m, 0, v.daysOfInventory);
  }

  /** The advice the portfolio's figures call for, in the client's order:
      the velocity line, the stockout line, the slow-mover line, the
      fast-mover line, the inventory-level line, the operational lines. */
  function InventoryAdviceFor(items: seq<VelocityItem>): seq<Advice> {
    [VelocityAdvice(items)] + StockoutAdvice(items) + MixAdvice(items) + LevelAdvice(items) + OperationalLines
  }

  /** Strong above a mean of 25 sales a month, low below 15. */
  function VelocityAdvice(items: seq<VelocityItem>): Advice {
    var avg := MeanOr(Monthlies(items), 0);
    if avg > 25.0 then StrongVelocity else if avg < 15.0 then LowVelocity else ModerateVelocity
  }

  /** Exposure when more than a fifth of the products are at risk, a
      monitoring line when some are. */
  function StockoutAdvice(items: seq<VelocityItem>): seq<Advice> {
    var n, risk := |items| as real, RiskCount(items) as real;
    if risk > 0.2 * n then [StockoutExposure] else if risk > 0.0 then [MonitorStockouts] else []
  }

  /** A line for more than 40% slow movers, then one for under 20% fast movers. */
  function MixAdvice(items: seq<VelocityItem>): seq<Advice> {
    var n := |items| as real;
    (if SlowCount(items) as real > 0.4 * n then [TooManySlowMovers] else [])
    + (if FastCount(items) as real < 0.2 * n then [NeedFastMovers] else [])
  }

  /** High above a mean of 45 days of inventory, low below 15. */
  function LevelAdvice(items: seq<VelocityItem>): seq<Advice> {
    var days := MeanOr(DaysOf(items), 0);
    if days > 45.0 then [HighInventory] else if days < 15.0 then [LowInventory] else []
  }

  /** The client's generateInventoryRecommendations: one velocity line, at
      most one stockout line, the slow- and fast-mover lines, at most one
      inventory-level line, then the three operational lines. The target
      turnover it is passed goes unused. */
  method GenerateInventoryRecommendations(items: seq<VelocityItem>) returns (recs: seq<Advice>)
    ensures items == [] ==> recs == [NoProductsExpand]
    ensures items != [] ==> recs == InventoryAdviceFor(items)
    ensures items != [] ==>
      var n, avg, days := |items| as real, MeanOr(Monthlies(items), 0), MeanOr(DaysOf(items), 0);
      var risk := RiskCount(items) as real;
      && 4 <= |recs| <= 8
      && recs[0] == (if avg > 25.0 then StrongVelocity else if avg < 15.0 then LowVelocity else ModerateVelocity)
      && (StockoutExposure in recs <==> risk > 0.2 * n)
      && (MonitorStockouts in recs <==> !(risk > 0.2 * n) && risk > 0.0)
      && (TooManySlowMovers in recs <==> SlowCount(items) as real > 0.4 * n)
      && (NeedFastMovers in recs <==> FastCount(items) as real < 0.2 * n)
      && (HighInventory in recs <==> days > 45.0)
      && (LowInventory in recs <==> days < 15.0)
      && recs[|recs| - 3..] == OperationalLines
      && NoProductsExpand !in recs
  {
    if items == [] {
      return [NoProductsExpand];
    }
    var first := VelocityLine(items);
    var riskLine := RiskLine(items);
    var mixLines := MixLines(items);
    var levelLine := LevelLine(items);
    recs := [first] + riskLine + mixLines + levelLine + OperationalLines;
    Assembled(first, riskLine, mixLines, levelLine);
  }

  /** What the assembled list holds, piece by piece. */
  lemma Assembled(first: Advice, riskLine: seq<Advice>, mixLines: seq<Advice>, levelLine: seq<Advice>)
    requires first == StrongVelocity || first == LowVelocity || first == ModerateVelocity
    requires forall a :: a in riskLine ==> a == StockoutExposure || a == MonitorStockouts
    requires forall a :: a in mixLines ==> a == TooManySlowMovers || a == NeedFastMovers
    requires forall a :: a in levelLine ==> a == HighInventory || a == LowInventory
    ensures var recs := [first] + riskLine + mixLines + levelLine + OperationalLines;
      && |recs| == 4 + |riskLine| + |mixLines| + |levelLine|
      && recs[0] == first
      && recs[|recs| - 3..] == OperationalLines
      && (StockoutExposure in recs <==> StockoutExposure in riskLine)
      && (MonitorStockouts in recs <==> MonitorStockouts in riskLine)
      && (TooManySlowMovers in recs <==> TooManySlowMovers in mixLines)
      && (NeedFastMovers in recs <==> NeedFastMovers in mixLines)
      && (HighInventory in recs <==> HighInventory in levelLine)
      && (LowInventory in recs <==> LowInventory in levelLine)
      && NoProductsExpand !in recs
  {
    var recs := [first] + riskLine + mixLines + levelLine + OperationalLines;
    var head := [first] + riskLine + mixLines + levelLine;
    assert recs == head + OperationalLines;
    assert recs[|head|..] == OperationalLines;
  }

  method VelocityLine(items: seq<VelocityItem>) returns (line: Advice)
    ensures line == VelocityAdvice(items)
  {
    if Above(Monthlies(items), 25, 0) {
      line := StrongVelocity;
    } else if Below(Monthlies(items), 15, 0) {
      line := LowVelocity;
    } else {
      line := ModerateVelocity;
    }
  }

  method RiskLine(items: seq<VelocityItem>) returns (line: seq<Advice>)
    ensures line == StockoutAdvice(items)
    ensures |line| <= 1
    ensures forall a :: a in line ==> a == StockoutExposure || a == MonitorStockouts
    ensures var n, risk := |items| as real, RiskCount(items) as real;
      && (StockoutExposure in line <==> risk > 0.2 * n)
      && (MonitorStockouts in line <==> !(risk > 0.2 * n) && risk > 0.0)
  {
    line := [];
    var risk := RiskCount(items);
    if 5 * risk > |items| {
      line := [StockoutExposure];
    } else if risk > 0 {
      line := [MonitorStockouts];
    }
  }

  method MixLines(items: seq<VelocityItem>) returns (lines: seq<Advice>)
    ensures lines == MixAdvice(items)
    ensures |lines| <= 2
    ensures forall a :: a in lines ==> a == TooManySlowMovers || a == NeedFastMovers
    ensures var n := |items| as real;
      && (TooManySlowMovers in lines <==> SlowCount(items) as real > 0.4 * n)
      && (NeedFastMovers in lines <==> FastCount(items) as real < 0.2 * n)
  {
    lines := [];
    if 5 * SlowCount(items) > 2 * |items| {
      lines := lines + [TooManySlowMovers];
    }
    if 5 * FastCount(items) < |items| {
      lines := lines + [NeedFastMovers];
    }
  }

  method LevelLine(items: seq<VelocityItem>) returns (line: seq<Advice>)
    ensures line == LevelAdvice(items)
    ensures |line| <= 1
    ensures forall a :: a in line ==> a == HighInventory || a == LowInventory
    ensures HighInventory in line <==> MeanOr(DaysOf(items), 0) > 45.0
    ensures LowInventory in line <==> MeanOr(DaysOf(items), 0) < 15.0
  {
    line := [];
    if Above(DaysOf(items), 45, 0) {
      line := [HighInventory];
    } else if Below(DaysOf(items), 15, 0) {
      line := [LowInventory];
    }
  }

  /** What analyzeInventory returns. With no products the analysis' own
      recommendation list, spread in last, replaces the generated one. */
  datatype InventoryReport = InventoryReport(
    analysisType: string,
    totalProducts: nat,
    averageTurnoverTenths: int,
    fastMovers: seq<VelocityItem>,
    slowMovers: seq<VelocityItem>,
    stockoutRisks: seq<VelocityItem>,
    recommendations: seq<Advice>,
    analysis: InventoryAnalysis)

  /** analyzeInventory over the analysed products: the mover lists are the
      filters of the input, and the recommendations are the generated ones
      unless the portfolio is empty. */
  method AnalyzeInventory(items: seq<VelocityItem>, analysisType: Option<string>) returns (report: InventoryReport)
    ensures report.analysisType == if analysisType.Some? && analysisType.value != "" then analysisType.value else "overview"
    ensures report.totalProducts == |items|
    ensures report.averageTurnoverTenths == CalculateAverageTurnover(items)
    ensures report.fastMovers == Filter(items, FastMover)
    ensures report.slowMovers == Filter(items, SlowMover)
    ensures report.stockoutRisks == Filter(items, AtRisk)
    ensures forall v :: v in report.fastMovers <==> v in items && FastMover(v)
    ensures forall v :: v in report.slowMovers <==> v in items && SlowMover(v)
    ensures forall v :: v in report.stockoutRisks <==> v in items && AtRisk(v)
    ensures forall v :: !(v in report.fastMovers && v in report.slowMovers)
    ensures items == [] ==> report.recommendations == [NothingToAnalyzeLine]
    ensures items != [] ==> report.recommendations == InventoryAdviceFor(items)
    ensures items != [] ==>
      && |report.recommendations| >= 3
      && report.recommendations[|report.recommendations| - 3..] == OperationalLines
    ensures report.analysis == PerformInventoryAnalysis(items)
  {
    var recs := GenerateInventoryRecommendations(items);
    var analysis := PerformInventoryAnalysis(items);
    if analysis.NothingToAnalyze? {
      recs := analysis.recommendations;
    }
    report := InventoryReport(
      if analysisType.Some? && analysisType.value != "" then analysisType.value else "overview",
      |items|, CalculateAverageTurnover(items),
      Filter(items, FastMover), Filter(items, SlowMover), Filter(items, AtRisk),
      recs, analysis);
  }
}
