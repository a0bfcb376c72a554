/** The per-product metrics of analyzeSalesVelocity
    (src/keepa-client.ts:972-1057): a sales estimate from the current sales
    rank, inventory and market figures, and the filter that drops products
    without statistics or below the requested velocity. Ratings are kept on
    Keepa's ×10 scale, prices and revenue in cents, turnover in tenths. */
module Velocity {
  import opened Wrappers
  import opened KeepaTypes
  import opened Numbers
  import opened Products
  import opened Seqs

  datatype Trend = Accelerating | Stable | Declining

  datatype Risk = Low | Medium | High

  /** One analysed product. `changePercent` is None where the source yields
      NaN (an average rank above 0 but no current rank). `revenueCents` is
      `daily * buyBoxPrice`; the source reports it divided by 100, in the
      currency's major unit. */
  datatype VelocityItem = VelocityItem(
    asin: string,
    title: Option<string>,
    brand: Option<string>,
    buyBoxPrice: int,
    daily: nat,
    weekly: nat,
    monthly: nat,
    trend: Trend,
    changePercent: Option<int>,
    turnoverTenths: int,
    daysOfInventory: int,
    stockoutRisk: Risk,
    recommendedOrderQuantity: nat,
    ratingTenths: int,
    salesRank: Option<int>,
    revenueCents: int)

  const SalesScale := 1000000000000

  /** `rank > 0 ? Math.max(1, Math.floor(1000000 / Math.sqrt(rank))) : 0`,
      computed exactly as the integer square root of ⌊10¹² / rank⌋ (the two
      agree on every positive integer rank; the floating-point original may
      differ where the quotient sits at an exact boundary). */
  function DailySales(rank: Option<int>): (d: nat)
    ensures !(rank.Some? && rank.value > 0) <==> d == 0
  {
    if rank.Some? && rank.value > 0 then Max(1, ISqrt(SalesScale / rank.value)) else 0
  }

  /** The estimate is the largest d with d·d·rank <= 10¹², and 1 for ranks
      beyond 10¹² (where that largest d is 0). */
  lemma DailySalesIsLargest(rank: int)
    requires rank > 0
    ensures rank <= SalesScale ==>
      DailySales(Some(rank)) * DailySales(Some(rank)) * rank <= SalesScale
      < (DailySales(Some(rank)) + 1) * (DailySales(Some(rank)) + 1) * rank
    ensures rank > SalesScale ==> DailySales(Some(rank)) == 1
  {
    if rank <= SalesScale {
      LargestSquareUnder(SalesScale, rank, ISqrt(SalesScale / rank));
    }
  }

  /** A better (smaller) rank never gives a smaller sales estimate. */
  lemma DailySalesMonotone(better: int, worse: int)
    requires 0 < better <= worse
    ensures DailySales(Some(worse)) <= DailySales(Some(better))
  {
    QuotientAntitone(SalesScale, better, worse);
    ISqrtMonotone(SalesScale / worse, SalesScale / better);
  }

  lemma QuotientAntitone(n: nat, a: int, b: int)
    requires 0 < a <= b
    ensures n / b <= n / a
  {
    var qb, qa := n / b, n / a;
    assert qb * b <= n;
    MulLe(qb, a, b);
    assert a * qb <= n < a * (qa + 1);
    LessByFactor(a, qb, qa + 1);
  }

  /** `outOfStockPercentage > 30 ? 'High' : > 15 ? 'Medium' : 'Low'`. */
  function StockoutRisk(outOfStock: int): (r: Risk)
    ensures r == High <==> outOfStock > 30
    ensures r == Medium <==> 15 < outOfStock <= 30
    ensures r == Low <==> outOfStock <= 15
  {
    if outOfStock > 30 then High else if outOfStock > 15 then Medium else Low
  }

  /** The turnover rate in tenths: `12 - oos/10` (at least 1) below 50% out
      of stock, 1 otherwise. The rate has one decimal for a whole-number
      percentage, so tenths hold it exactly. */
  function TurnoverTenths(outOfStock: int): (t: int)
    ensures t as real == 10.0 * (if outOfStock < 50 then RealMax(1.0, 12.0 - outOfStock as real / 10.0) else 1.0)
    ensures t >= 10
    ensures 0 <= outOfStock ==> t <= 120
  {
    if outOfStock < 50 then Max(10, 120 - outOfStock) else 10
  }

  function RealMax(x: real, y: real): real {
    if x < y then y else x
  }

  /** The trend compares the average rank with the current one; a missing
      rank compares false both ways and gives Stable. */
  function RankTrend(avg: Option<int>, current: Option<int>): (t: Trend)
    ensures t == Accelerating <==> avg.Some? && current.Some? && avg.value > current.value
    ensures t == Declining <==> avg.Some? && current.Some? && avg.value < current.value
  {
    if avg.Some? && current.Some? && avg.value > current.value then Accelerating
    else if avg.Some? && current.Some? && avg.value < current.value then Declining
    else Stable
  }

  /** `avg > 0 ? Math.round((avg - current) / avg * 100) : 0`, None for NaN. */
  function ChangePercent(avg: Option<int>, current: Option<int>): (c: Option<int>)
    ensures c.None? <==> avg.Some? && avg.value > 0 && current.None?
    ensures !(avg.Some? && avg.value > 0) ==> c == Some(0)
    ensures avg.Some? && avg.value > 0 && current.Some? ==>
      2 * avg.value * c.value <= 200 * (avg.value - current.value) + avg.value < 2 * avg.value * c.value + 2 * avg.value
  {
    if avg.Some? && avg.value > 0 then
      if current.Some? then Some(RoundDiv(100 * (avg.value - current.value), avg.value)) else None
    else Some(0)
  }

  /** The metrics of one product, None when it has no statistics. */
  function Metrics(p: Product): (item: Option<VelocityItem>)
    ensures item.Some? <==> p.stats.Some?
    ensures item.Some? ==>
      var v := item.value;
      var rank := At(p.stats.value.current, SALES_RANK);
      var avgRank := At(p.stats.value.avg, SALES_RANK);
      var outOfStock := OrElse(p.stats.value.outOfStockPercentage30, 0);
      && v.asin == p.asin && v.title == p.title && v.brand == p.brand
      && v.daily == DailySales(rank) && v.weekly == 7 * v.daily && v.monthly == 30 * v.daily
      && v.salesRank == rank
      && v.trend == RankTrend(avgRank, rank) && v.changePercent == ChangePercent(avgRank, rank)
      && v.stockoutRisk == StockoutRisk(outOfStock) && v.turnoverTenths == TurnoverTenths(outOfStock)
      && v.buyBoxPrice == OrElse(p.stats.value.buyBoxPrice, 0)
      && v.ratingTenths == OrElse(At(p.stats.value.current, RATING), 0)
      && v.revenueCents == v.daily * v.buyBoxPrice
      && v.recommendedOrderQuantity == v.monthly
      && Max(1, v.daily) * (v.daysOfInventory - 1) < 30 <= Max(1, v.daily) * v.daysOfInventory
  {
    match p.stats
    case None => None
    case Some(stats) =>
      var rank := At(stats.current, SALES_RANK);
      var avgRank := At(stats.avg, SALES_RANK);
      var daily := DailySales(rank);
      var buyBox := OrElse(stats.buyBoxPrice, 0);
      var outOfStock := OrElse(stats.outOfStockPercentage30, 0);
      var days := CeilDiv(30, Max(1, daily));
      Some(VelocityItem(
        p.asin, p.title, p.brand, buyBox,
        daily, daily * 7, daily * 30,
        RankTrend(avgRank, rank),
        ChangePercent(avgRank, rank),
        TurnoverTenths(outOfStock),
        days,
        StockoutRisk(outOfStock),
        daily * 30,
        OrElse(At(stats.current, RATING), 0),
        rank,
        daily * buyBox))
  }

  /** Whether a product survives the filter: it has statistics and, when
      minVelocity is truthy, sells at least that many a day. */
  predicate Kept(p: Product, minVelocity: Option<int>) {
    Metrics(p).Some? && !(Truthy(minVelocity) && Metrics(p).value.daily < minVelocity.value)
  }

  /** The map/filter of analyzeSalesVelocity over the fetched products. */
  function AnalyzeSalesVelocity(products: seq<Product>, minVelocity: Option<int>): (items: seq<VelocityItem>)
    ensures |items| <= |products|
    ensures forall i :: 0 <= i < |items| ==> !(Truthy(minVelocity) && items[i].daily < minVelocity.value)
  {
    if products == [] then []
    else
      var last := products[|products| - 1];
      AnalyzeSalesVelocity(products[..|products| - 1], minVelocity)
      + (if Kept(last, minVelocity) then [Metrics(last).value] else [])
  }

  /** An item is in the answer exactly when some kept product produced it. */
  lemma {:induction false} VelocityMembership(products: seq<Product>, minVelocity: Option<int>, v: VelocityItem)
    ensures v in AnalyzeSalesVelocity(products, minVelocity) <==>
      exists p :: p in products && Kept(p, minVelocity) && Metrics(p) == Some(v)
  {
    if products != [] {
      var init, last := products[..|products| - 1], products[|products| - 1];
      VelocityMembership(init, minVelocity, v);
      assert products == init + [last];
      if exists p :: p in products && Kept(p, minVelocity) && Metrics(p) == Some(v) {
        var p :| p in products && Kept(p, minVelocity) && Metrics(p) == Some(v);
        if p != last {
          assert p in init;
        }
      }
    }
  }

  /** The metrics of products that all have statistics, one item each, in
      order: the `map` half of analyzeSalesVelocity. */
  function MetricsOf(ps: seq<Product>): (vs: seq<VelocityItem>)
    requires forall p :: p in ps ==> Metrics(p).Some?
    ensures |vs| == |ps|
  {
    if ps == [] then []
    else MetricsOf(ps[..|ps| - 1]) + [Metrics(ps[|ps| - 1]).value]
  }

  /** The answer is exactly the metrics of the kept products, in input order
      and once each: the source's map followed by its filter. */
  lemma {:induction false} VelocityIsMapOfFilter(products: seq<Product>, minVelocity: Option<int>)
    ensures AnalyzeSalesVelocity(products, minVelocity)
      == MetricsOf(Filter(products, p => Kept(p, minVelocity)))
  {
    if products != [] {
      var init, last := products[..|products| - 1], products[|products| - 1];
      VelocityIsMapOfFilter(init, minVelocity);
      assert products == init + [last];
      FilterSnoc(init, last, p => Kept(p, minVelocity));
    }
  }

  predicate HasStats(p: Product) {
    p.stats.Some?
  }

  /** With no minimum, the answer is the metrics of exactly the products
      with statistics, in order, whatever else the list holds. */
  lemma {:induction false} ProductsWithStatsKept(products: seq<Product>)
    ensures AnalyzeSalesVelocity(products, None) == MetricsOf(Filter(products, HasStats))
  {
    if products != [] {
      var init, last := products[..|products| - 1], products[|products| - 1];
      ProductsWithStatsKept(init);
      assert products == init + [last];
      FilterSnoc(init, last, HasStats);
    }
  }

  /** The special case of a list where every product has statistics: each
      one yields its own metrics at its own position. */
  lemma {:induction false} EveryAnalysableProductKept(products: seq<Product>)
    requires forall i :: 0 <= i < |products| ==> products[i].stats.Some?
    ensures |AnalyzeSalesVelocity(products, None)| == |products|
    ensures forall i :: 0 <= i < |products| ==>
      Some(AnalyzeSalesVelocity(products, None)[i]) == Metrics(products[i])
  {
    if products != [] {
      EveryAnalysableProductKept(products[..|products| - 1]);
    }
  }

  /** Where analyzeSalesVelocity takes its products from: the `asins` list
      (or the single `asin`) through getProductsBatch, else the category's
      search results (25 per page), else nothing. */
  datatype Source = ByAsins(asins: seq<string>) | ByCategory(categoryId: int) | NoSource

  function VelocitySource(asin: Option<string>, asins: Option<seq<string>>, categoryId: Option<int>): (s: Source)
    ensures asins.Some? ==> s == ByAsins(asins.value)
    ensures asins.None? && asin.Some? && asin.value != "" ==> s == ByAsins([asin.value])
    ensures s.ByCategory? <==> asins.None? && !(asin.Some? && asin.value != "") && Truthy(categoryId)
  {
    if (asin.Some? && asin.value != "") || asins.Some? then
      ByAsins(if asins.Some? then asins.value else [asin.value])
    else if Truthy(categoryId) then ByCategory(categoryId.value)
    else NoSource
  }
}
