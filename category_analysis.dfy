/** The category market analysis of analyzeCategory
    (src/keepa-client.ts:413-624): price statistics and bands, brand counts,
    competition and quality levels, insights, the opportunity score and the
    recommendations. Prices are in cents and ratings on Keepa's ×10 scale;
    every average is compared with its threshold on integers by
    cross-multiplying, so every contract states the comparison on the exact
    average. For prices, ranks and counts, whose sums are whole numbers,
    that is the comparison the source makes; the rating mean, which the
    source sums as floating-point tenths (4.1 + 4.3 is 8.399999999999999),
    can fall on the other side of a threshold it meets exactly. */
module CategoryAnalysis {
  import opened Wrappers
  import opened KeepaTypes
  import opened Numbers
  import opened Products
  import opened Seqs
  import opened Sorting

  datatype Level = Low | Medium | High

  // ---- the figures the analyses read ----

  /** `products.filter(p => p.stats?.current[index]).map(p => p.stats.current[index])`. */
  function TruthyStats(ps: seq<Product>, index: int): (vs: seq<int>)
    ensures |vs| <= |ps|
    ensures forall k :: 0 <= k < |vs| ==> vs[k] != 0
  {
    if ps == [] then []
    else
      var v := CurrentAt(ps[|ps| - 1], index);
      TruthyStats(ps[..|ps| - 1], index) + (if Truthy(v) then [v.value] else [])
  }

  /** A value is read exactly when some product holds it, non-zero, at that index. */
  lemma {:induction false} TruthyStatsMembership(ps: seq<Product>, index: int, v: int)
    ensures v in TruthyStats(ps, index) <==> v != 0 && exists p :: p in ps && CurrentAt(p, index) == Some(v)
  {
    if ps != [] {
      var init, last := ps[..|ps| - 1], ps[|ps| - 1];
      TruthyStatsMembership(init, index, v);
      assert ps == init + [last];
      if v != 0 && exists p :: p in ps && CurrentAt(p, index) == Some(v) {
        var p :| p in ps && CurrentAt(p, index) == Some(v);
        if p != last {
          assert p in init;
        }
      }
    }
  }

  /** `p.price > 0 && p.stats`: the products the insight rules look at. */
  predicate AnalysableProduct(p: Product) {
    Priced(p) && p.stats.Some?
  }

  function Analysable(ps: seq<Product>): seq<Product> {
    Filter(ps, AnalysableProduct)
  }

  /** The insight rules filter the priced products again; that keeps the
      same products as filtering the whole list once, so the category report
      decides its insights, score and recommendations on Analysable(ps). */
  lemma {:induction false} AnalysableOfPriced(ps: seq<Product>)
    ensures Analysable(Filter(ps, Priced)) == Analysable(ps)
  {
    if ps != [] {
      var init, last := ps[..|ps| - 1], ps[|ps| - 1];
      AnalysableOfPriced(init);
      if Priced(last) {
        FilterSnoc(Filter(init, Priced), last, AnalysableProduct);
      }
    }
  }

  function PricesOf(ps: seq<Product>): (prices: seq<int>)
    ensures |prices| == |ps|
    ensures forall i :: 0 <= i < |ps| ==> ps[i].price.Some? ==> prices[i] == ps[i].price.value
  {
    seq(|ps|, i requires 0 <= i < |ps| => ps[i].price.GetOr(0))
  }

  /** The averages the rules compare, exactly as the source computes them:
      the mean price, the mean truthy sales rank (with the given fallback
      when no rank is known) and the mean truthy rating in tenths (0 when
      none is known). */
  function PriceMean(ps: seq<Product>): real {
    MeanOr(PricesOf(ps), 0)
  }

  function RankMean(ps: seq<Product>, fallback: int): real {
    MeanOr(TruthyStats(ps, SALES_RANK), fallback)
  }

  function RatingMean(ps: seq<Product>): real {
    MeanOr(TruthyStats(ps, RATING), 0)
  }

  // ---- price bands ----

  datatype PriceBucket = PriceBucket(band: string, min: int, max: int, count: nat)

  /** The four bands of categorizePrice, `[min, max)` in cents. */
  const PriceBands: seq<PriceBucket> := [
    PriceBucket("Budget", 0, 2500, 0),
    PriceBucket("Mid-range", 2500, 7500, 0),
    PriceBucket("Premium", 7500, 20000, 0),
    PriceBucket("Luxury", 20000, 999999, 0)
  ]

  /** How many prices lie in `[lo, hi)`. */
  function CountIn(prices: seq<int>, lo: int, hi: int): (c: nat)
    ensures c <= |prices|
  {
    if prices == [] then 0
    else CountIn(prices[..|prices| - 1], lo, hi) + (if lo <= prices[|prices| - 1] < hi then 1 else 0)
  }

  /** `ranges.find(r => price >= r.min && price < r.max)`, as an index. */
  function BandOf(price: int): (k: Option<nat>)
    ensures k.Some? <==> 0 <= price < 999999
    ensures k.Some? ==> k.value < 4 && PriceBands[k.value].min <= price < PriceBands[k.value].max
  {
    if 0 <= price < 2500 then Some(0)
    else if 2500 <= price < 7500 then Some(1)
    else if 7500 <= price < 20000 then Some(2)
    else if 20000 <= price < 999999 then Some(3)
    else None
  }

  /** categorizePrice: one counter per band, bumped for the band each price
      falls in; a price outside every band is not counted. */
  method CategorizePrice(prices: seq<int>) returns (buckets: seq<PriceBucket>)
    ensures |buckets| == 4
    ensures forall k :: 0 <= k < 4 ==>
      && buckets[k].band == PriceBands[k].band
      && buckets[k].min == PriceBands[k].min && buckets[k].max == PriceBands[k].max
      && buckets[k].count == CountIn(prices, PriceBands[k].min, PriceBands[k].max)
  {
    buckets := PriceBands;
    for i := 0 to |prices|
      invariant |buckets| == 4
      invariant forall k :: 0 <= k < 4 ==>
        && buckets[k].band == PriceBands[k].band
        && buckets[k].min == PriceBands[k].min && buckets[k].max == PriceBands[k].max
        && buckets[k].count == CountIn(prices[..i], PriceBands[k].min, PriceBands[k].max)
    {
      assert prices[..i + 1][..i] == prices[..i];
      var band := BandOf(prices[i]);
      if band.Some? {
        var k := band.value;
        buckets := buckets[k := buckets[k].(count := buckets[k].count + 1)];
      }
    }
    assert prices[..|prices|] == prices;
  }

  lemma {:induction false} CountSplit(prices: seq<int>, lo: int, mid: int, hi: int)
    requires lo <= mid <= hi
    ensures CountIn(prices, lo, mid) + CountIn(prices, mid, hi) == CountIn(prices, lo, hi)
  {
    if prices != [] {
      CountSplit(prices[..|prices| - 1], lo, mid, hi);
    }
  }

  /** The bands partition `[0, 999999)`: their counts add up to the number of
      prices in that span, so a price of 999999 cents or more is in no band. */
  lemma BandsPartition(prices: seq<int>)
    ensures CountIn(prices, 0, 2500) + CountIn(prices, 2500, 7500)
          + CountIn(prices, 7500, 20000) + CountIn(prices, 20000, 999999)
         == CountIn(prices, 0, 999999)
  {
    CountSplit(prices, 0, 2500, 7500);
    CountSplit(prices, 0, 7500, 20000);
    CountSplit(prices, 0, 20000, 999999);
  }

  lemma {:induction false} CountAppend(xs: seq<int>, ys: seq<int>, lo: int, hi: int)
    ensures CountIn(xs + ys, lo, hi) == CountIn(xs, lo, hi) + CountIn(ys, lo, hi)
    decreases |ys|
  {
    if ys != [] {
      var ys' := ys[..|ys| - 1];
      assert (xs + ys)[..|xs + ys| - 1] == xs + ys';
      assert (xs + ys)[|xs + ys| - 1] == ys[|ys| - 1];
      CountAppend(xs, ys', lo, hi);
    } else {
      assert xs + ys == xs;
    }
  }

  /** Band counts do not depend on the order of the prices. */
  lemma {:induction false} CountPermutation(xs: seq<int>, ys: seq<int>, lo: int, hi: int)
    requires multiset(xs) == multiset(ys)
    ensures CountIn(xs, lo, hi) == CountIn(ys, lo, hi)
    decreases |xs|
  {
    if xs != [] {
      var x := xs[|xs| - 1];
      var init := xs[..|xs| - 1];
      assert xs == init + [x];
      assert x in multiset(ys);
      var j :| 0 <= j < |ys| && ys[j] == x;
      var rest := ys[..j] + ys[j + 1..];
      RemoveOne(ys, j);
      assert multiset(xs) == multiset(init) + multiset{x};
      CountPermutation(init, rest, lo, hi);
      CountWithout(ys, j, lo, hi);
    }
  }

  /** Taking out the element at j takes it out of the multiset. */
  lemma RemoveOne(ys: seq<int>, j: int)
    requires 0 <= j < |ys|
    ensures multiset(ys[..j] + ys[j + 1..]) == multiset(ys) - multiset{ys[j]}
  {
    assert ys == ys[..j] + [ys[j]] + ys[j + 1..];
    assert multiset(ys) == multiset(ys[..j]) + multiset{ys[j]} + multiset(ys[j + 1..]);
  }

  /** Taking out the element at j takes it out of the band count. */
  lemma CountWithout(ys: seq<int>, j: int, lo: int, hi: int)
    requires 0 <= j < |ys|
    ensures CountIn(ys, lo, hi)
      == CountIn(ys[..j] + ys[j + 1..], lo, hi) + (if lo <= ys[j] < hi then 1 else 0)
  {
    var x := ys[j];
    assert ys == ys[..j] + [x] + ys[j + 1..];
    CountAppend(ys[..j] + [x], ys[j + 1..], lo, hi);
    CountAppend(ys[..j], [x], lo, hi);
    CountAppend(ys[..j], ys[j + 1..], lo, hi);
    assert [x][..0] == [];
  }

  // ---- the whole analysis ----

  datatype CategoryReport = CategoryReport(
    totalProducts: nat,
    priceAnalysis: Result<PriceStatistics, string>,
    brandAnalysis: BrandAnalysis,
    competitionAnalysis: CompetitionAnalysis,
    performanceAnalysis: PerformanceAnalysis,
    marketInsights: seq<string>,
    opportunityScore: int,
    recommendations: seq<string>)

  /** performCategoryAnalysis: every aggregate is taken over the priced
      products; the insight, score and recommendation rules narrow them
      further to those with statistics. */
  method PerformCategoryAnalysis(ps: seq<Product>) returns (r: CategoryReport)
    ensures var valid := Filter(ps, Priced);
      && r.totalProducts == |valid|
      && (r.priceAnalysis.Failure? <==> valid == [])
      && DescribesPrices(PricesOf(valid), r.priceAnalysis)
      && DescribesBrands(valid, r.brandAnalysis)
      && r.competitionAnalysis == AnalyzeCompetition(valid)
      && r.performanceAnalysis == AnalyzePerformance(valid)
    ensures var valid := Filter(ps, Priced);
      Analysable(valid) == [] ==>
        r.marketInsights == [InsufficientData] && r.recommendations == [NeedMoreData] && r.opportunityScore == 0
    ensures var valid := Filter(ps, Priced);
      Analysable(valid) != [] ==>
        && r.marketInsights == MarketInsightsFor(Analysable(valid))
        && r.recommendations == CategoryRecommendationsFor(Analysable(valid))
        && InsufficientData !in r.marketInsights && NeedMoreData !in r.recommendations
        && r.opportunityScore == Min(100, Max(0, OpportunityPoints(valid))) >= 50
  {
    var valid := Filter(ps, Priced);
    // Every price of a priced product is positive, so the `p > 0` filter of
    // the price list keeps them all.
    var priceStats := CalculatePriceStatistics(PricesOf(valid));
    var brands := AnalyzeBrands(valid);
    var insights := GenerateMarketInsights(valid);
    var score := CalculateOpportunityScore(valid);
    var recs := GenerateRecommendations(valid);
    r := CategoryReport(|valid|, priceStats, brands, AnalyzeCompetition(valid), AnalyzePerformance(valid),
      insights, score, recs);
  }

  // ---- price statistics ----

  datatype PriceStatistics = PriceStatistics(
    averagePrice: real,
    medianPrice: int,
    minPrice: int,
    maxPrice: int,
    priceDistribution: seq<PriceBucket>)

  ghost predicate SortedPermutationOf(s: seq<int>, prices: seq<int>) {
    multiset(s) == multiset(prices) && SortedBy(s, x => x)
  }

  lemma SortedPermutationEnds(s: seq<int>, prices: seq<int>)
    requires |prices| > 0 && SortedPermutationOf(s, prices)
    ensures |s| == |prices|
    ensures s[0] in prices && s[|s| - 1] in prices
    ensures forall x :: x in prices ==> s[0] <= x <= s[|s| - 1]
  {
    assert |multiset(s)| == |multiset(prices)|;
    assert s[0] in multiset(s) && s[|s| - 1] in multiset(s);
    forall x | x in prices
      ensures s[0] <= x <= s[|s| - 1]
    {
      assert x in multiset(prices);
      assert x in multiset(s);
      var k :| 0 <= k < |s| && s[k] == x;
    }
  }

  /** What calculatePriceStatistics answers for a price list: an error for
      no prices, otherwise the mean, the two ends, the element at the middle
      index of the sorted list, and the count in each price band. */
  ghost predicate DescribesPrices(prices: seq<int>, r: Result<PriceStatistics, string>) {
    && (r.Failure? <==> prices == [])
    && (r.Failure? ==> r.error == "No valid prices")
    && (r.Success? ==>
      var st := r.value;
      && st.averagePrice == MeanOr(prices, 0)
      && st.minPrice in prices && st.maxPrice in prices
      && (forall x :: x in prices ==> st.minPrice <= x <= st.maxPrice)
      && (exists s :: SortedPermutationOf(s, prices) && st.medianPrice == s[|s| / 2])
      && |st.priceDistribution| == 4
      && (forall k :: 0 <= k < 4 ==> st.priceDistribution[k].count == CountIn(prices, PriceBands[k].min, PriceBands[k].max)))
  }

  /** calculatePriceStatistics: sort the prices in place, then read the
      average, the element at the middle index, and the two ends. */
  method CalculatePriceStatistics(prices: seq<int>) returns (r: Result<PriceStatistics, string>)
    ensures DescribesPrices(prices, r)
  {
    if prices == [] {
      return Failure("No valid prices");
    }
    var a := new int[|prices|](i requires 0 <= i < |prices| => prices[i]);
    assert a[..] == prices;
    SortBy(a, x => x);
    var sorted := a[..];
    assert SortedPermutationOf(sorted, prices);
    SortedPermutationEnds(sorted, prices);
    var distribution := CategorizePrice(sorted);
    forall k | 0 <= k < 4
      ensures distribution[k].count == CountIn(prices, PriceBands[k].min, PriceBands[k].max)
    {
      CountPermutation(sorted, prices, PriceBands[k].min, PriceBands[k].max);
    }
    r := Success(PriceStatistics(MeanOr(prices, 0), sorted[|sorted| / 2], sorted[0], sorted[|sorted| - 1], distribution));
  }

  // ---- brands ----

  /** `p.brand || 'Unknown'`. */
  function BrandOf(p: Product): string {
    if p.brand.Some? && p.brand.value != "" then p.brand.value else "Unknown"
  }

  function BrandCount(ps: seq<Product>, brand: string): nat {
    if ps == [] then 0
    else BrandCount(ps[..|ps| - 1], brand) + (if BrandOf(ps[|ps| - 1]) == brand then 1 else 0)
  }

  ghost function Brands(ps: seq<Product>): set<string> {
    set p | p in ps :: BrandOf(p)
  }

  datatype BrandShare = BrandShare(brand: string, productCount: nat)

  datatype BrandAnalysis = BrandAnalysis(totalBrands: nat, topBrands: seq<BrandShare>)

  /** What analyzeBrands answers for a product list: the number of distinct
      brands, and up to ten distinct brands with their true product counts,
      most first, none outsold by a brand left out. */
  ghost predicate DescribesBrands(ps: seq<Product>, r: BrandAnalysis) {
    && r.totalBrands == |Brands(ps)|
    && |r.topBrands| == Min(10, r.totalBrands)
    && (forall k :: 0 <= k < |r.topBrands| ==>
          r.topBrands[k].brand in Brands(ps) && r.topBrands[k].productCount == BrandCount(ps, r.topBrands[k].brand))
    && (forall k, l :: 0 <= k < l < |r.topBrands| ==> r.topBrands[k].productCount >= r.topBrands[l].productCount)
    && (forall k, l :: 0 <= k < l < |r.topBrands| ==> r.topBrands[k].brand != r.topBrands[l].brand)
    && (forall b :: b in Brands(ps) && (forall k :: 0 <= k < |r.topBrands| ==> r.topBrands[k].brand != b) ==>
          forall k :: 0 <= k < |r.topBrands| ==> BrandCount(ps, b) <= r.topBrands[k].productCount)
  }

  /** analyzeBrands: count products per brand, then the ten brands with the
      most products, most first, and the number of distinct brands. */
  method AnalyzeBrands(ps: seq<Product>) returns (r: BrandAnalysis)
    ensures DescribesBrands(ps, r)
  {
    var counts, order := CountBrands(ps);
    DistinctCardinality(order);
    assert Brands(ps) == set b | b in order;
    var top := TopBrands(counts, order);
    r := BrandAnalysis(|order|, top);
  }

  /** The `brandCounts` dictionary, with its keys in insertion order. */
  method CountBrands(ps: seq<Product>) returns (counts: map<string, nat>, order: seq<string>)
    ensures counts.Keys == Brands(ps)
    ensures forall b :: b in counts ==> counts[b] == BrandCount(ps, b)
    ensures Distinct(order)
    ensures forall b :: b in order <==> b in counts
  {
    counts, order := map[], [];
    for i := 0 to |ps|
      invariant Tallied(ps[..i], counts)
      invariant forall i, j :: 0 <= i < j < |order| ==> order[i] != order[j]
      invariant forall b :: b in order <==> b in counts
    {
      var b := BrandOf(ps[i]);
      TallyStep(ps, i, counts);
      if b !in counts {
        order := order + [b];
      }
      counts := Tally(counts, b);
    }
    assert ps[..|ps|] == ps;
  }

  /** `counts` holds exactly the brands of `ps`, each with its product count. */
  ghost predicate Tallied(ps: seq<Product>, counts: map<string, nat>) {
    && counts.Keys == Brands(ps)
    && forall b :: BrandCount(ps, b) == (if b in counts then counts[b] else 0)
  }

  /** `brandCounts[brand] = (brandCounts[brand] || 0) + 1`. */
  function Tally(counts: map<string, nat>, b: string): map<string, nat> {
    if b in counts then counts[b := counts[b] + 1] else counts[b := 1]
  }

  /** Tallying the next product's brand keeps the counts exact. */
  lemma TallyStep(ps: seq<Product>, i: int, counts: map<string, nat>)
    requires 0 <= i < |ps| && Tallied(ps[..i], counts)
    ensures Tallied(ps[..i + 1], Tally(counts, BrandOf(ps[i])))
  {
    assert ps[..i + 1] == ps[..i] + [ps[i]];
    BrandsSnoc(ps[..i], ps[i]);
    BrandCountSnoc(ps[..i], ps[i]);
  }

  lemma BrandsSnoc(ps: seq<Product>, p: Product)
    ensures Brands(ps + [p]) == Brands(ps) + {BrandOf(p)}
  {
    assert forall q :: q in ps + [p] <==> q in ps || q == p;
  }

  lemma BrandCountSnoc(ps: seq<Product>, p: Product)
    ensures forall b :: BrandCount(ps + [p], b) == BrandCount(ps, b) + (if BrandOf(p) == b then 1 else 0)
  {
    assert (ps + [p])[..|ps + [p]| - 1] == ps;
  }

  lemma {:induction false} DistinctCardinality(xs: seq<string>)
    requires forall i, j :: 0 <= i < j < |xs| ==> xs[i] != xs[j]
    ensures |set x | x in xs| == |xs|
  {
    if xs != [] {
      var init := xs[..|xs| - 1];
      DistinctCardinality(init);
      assert (set x | x in xs) == (set x | x in init) + {xs[|xs| - 1]};
    }
  }

  /** `Object.entries(brandCounts).sort((a, b) => b.count - a.count).slice(0, 10)`. */
  method TopBrands(counts: map<string, nat>, order: seq<string>) returns (top: seq<BrandShare>)
    requires forall b :: b in order <==> b in counts
    requires Distinct(order)
    ensures |top| == Min(10, |order|)
    ensures forall k, l :: 0 <= k < l < |top| ==> top[k].brand != top[l].brand
    ensures forall k :: 0 <= k < |top| ==> top[k].brand in counts && top[k].productCount == counts[top[k].brand]
    ensures forall k, l :: 0 <= k < l < |top| ==> top[k].productCount >= top[l].productCount
    ensures forall b :: b in counts && (forall k :: 0 <= k < |top| ==> top[k].brand != b) ==>
      forall k :: 0 <= k < |top| ==> counts[b] <= top[k].productCount
  {
    var entries := seq(|order|, i requires 0 <= i < |order| => BrandShare(order[i], counts[order[i]]));
    var a := new BrandShare[|order|](i requires 0 <= i < |order| => entries[i]);
    assert a[..] == entries;
    SortBy(a, ByCountDescending);
    top := a[..Min(10, a.Length)];
    TopOfSortedEntries(counts, order, entries, a[..], top);
    DistinctBrands(counts, order, entries, a[..]);
  }

  /** The sort key that puts larger counts first. */
  function ByCountDescending(e: BrandShare): int {
    -(e.productCount as int)
  }

  lemma TopOfSortedEntries(counts: map<string, nat>, order: seq<string>, entries: seq<BrandShare>,
                           sorted: seq<BrandShare>, top: seq<BrandShare>)
    requires forall b :: b in order <==> b in counts
    requires |entries| == |order|
    requires forall i :: 0 <= i < |order| ==> entries[i] == BrandShare(order[i], counts[order[i]])
    requires multiset(sorted) == multiset(entries) && SortedBy(sorted, ByCountDescending)
    requires top == sorted[..Min(10, |sorted|)]
    ensures forall k :: 0 <= k < |top| ==> top[k].brand in counts && top[k].productCount == counts[top[k].brand]
    ensures forall k, l :: 0 <= k < l < |top| ==> top[k].productCount >= top[l].productCount
    ensures forall b :: b in counts && (forall k :: 0 <= k < |top| ==> top[k].brand != b) ==>
      forall k :: 0 <= k < |top| ==> counts[b] <= top[k].productCount
  {
    SortedAreEntries(counts, order, entries, sorted);
    forall k, l | 0 <= k < l < |top|
      ensures top[k].productCount >= top[l].productCount
    {
      assert ByCountDescending(sorted[k]) <= ByCountDescending(sorted[l]);
    }
    forall b | b in counts && (forall k :: 0 <= k < |top| ==> top[k].brand != b)
      ensures forall k :: 0 <= k < |top| ==> counts[b] <= top[k].productCount
    {
      var m := PositionOfBrand(counts, order, entries, sorted, b);
      assert m >= |top|;
      forall k | 0 <= k < |top|
        ensures counts[b] <= top[k].productCount
      {
        assert ByCountDescending(sorted[k]) <= ByCountDescending(sorted[m]);
      }
    }
  }

  /** Sorting the entries of distinct brands lists each brand once. */
  lemma DistinctBrands(counts: map<string, nat>, order: seq<string>, entries: seq<BrandShare>, sorted: seq<BrandShare>)
    requires forall b :: b in order <==> b in counts
    requires Distinct(order) && |entries| == |order|
    requires forall i :: 0 <= i < |order| ==> entries[i] == BrandShare(order[i], counts[order[i]])
    requires multiset(sorted) == multiset(entries)
    ensures forall k, l :: 0 <= k < l < |sorted| ==> sorted[k].brand != sorted[l].brand
  {
    assert Distinct(entries) by {
      forall i, j | 0 <= i < j < |entries|
        ensures entries[i] != entries[j]
      {
        assert entries[i].brand == order[i] != order[j] == entries[j].brand;
      }
    }
    DistinctPermutation(entries, sorted);
    SortedAreEntries(counts, order, entries, sorted);
  }

  /** Every sorted entry is a brand with its count. */
  lemma SortedAreEntries(counts: map<string, nat>, order: seq<string>, entries: seq<BrandShare>, sorted: seq<BrandShare>)
    requires forall b :: b in order <==> b in counts
    requires |entries| == |order|
    requires forall i :: 0 <= i < |order| ==> entries[i] == BrandShare(order[i], counts[order[i]])
    requires multiset(sorted) == multiset(entries)
    ensures forall k :: 0 <= k < |sorted| ==> sorted[k].brand in counts && sorted[k].productCount == counts[sorted[k].brand]
  {
    forall k | 0 <= k < |sorted|
      ensures sorted[k].brand in counts && sorted[k].productCount == counts[sorted[k].brand]
    {
      assert sorted[k] in multiset(entries);
    }
  }

  /** Where a brand's entry ended up after sorting. */
  lemma PositionOfBrand(counts: map<string, nat>, order: seq<string>, entries: seq<BrandShare>,
                        sorted: seq<BrandShare>, b: string) returns (m: nat)
    requires forall b :: b in order <==> b in counts
    requires |entries| == |order|
    requires forall i :: 0 <= i < |order| ==> entries[i] == BrandShare(order[i], counts[order[i]])
    requires multiset(sorted) == multiset(entries)
    requires b in counts
    ensures m < |sorted| && sorted[m] == BrandShare(b, counts[b])
  {
    var i :| 0 <= i < |order| && order[i] == b;
    assert entries[i] in multiset(sorted);
    m :| 0 <= m < |sorted| && sorted[m] == entries[i];
  }

  // ---- competition and quality ----

  datatype CompetitionAnalysis = CompetitionAnalysis(
    competitionLevel: Level,
    averageSalesRank: real,
    marketSaturation: Level)

  /** analyzeCompetition: the mean truthy sales rank (0 when none) below
      10000 is High, below 50000 Medium; more than 40 products saturate the
      market, more than 20 half-saturate it. */
  function AnalyzeCompetition(ps: seq<Product>): (c: CompetitionAnalysis)
    ensures c.averageSalesRank == RankMean(ps, 0)
    ensures c.competitionLevel == High <==> RankMean(ps, 0) < 10000.0
    ensures c.competitionLevel == Medium <==> 10000.0 <= RankMean(ps, 0) < 50000.0
    ensures c.marketSaturation == High <==> |ps| > 40
    ensures c.marketSaturation == Low <==> |ps| <= 20
  {
    var ranks := TruthyStats(ps, SALES_RANK);
    var level := if Below(ranks, 10000, 0) then High else if Below(ranks, 50000, 0) then Medium else Low;
    var saturation := if |ps| > 40 then High else if |ps| > 20 then Medium else Low;
    CompetitionAnalysis(level, MeanOr(ranks, 0), saturation)
  }

  datatype Quality = Excellent | Good | Fair | Poor

  datatype PerformanceAnalysis = PerformanceAnalysis(
    averageRatingTenths: real,
    totalRatedProducts: nat,
    highRatedProducts: nat,
    qualityLevel: Quality)

  /** analyzePerformance over truthy ratings: a mean of at least 4.2 stars is
      Excellent, 3.8 Good, 3.0 Fair; products rated 4.0 or more count as
      highly rated. */
  function AnalyzePerformance(ps: seq<Product>): (perf: PerformanceAnalysis)
    ensures perf.averageRatingTenths == RatingMean(ps)
    ensures perf.totalRatedProducts == |TruthyStats(ps, RATING)|
    ensures perf.highRatedProducts == |Filter(TruthyStats(ps, RATING), r => r >= 40)|
    ensures perf.highRatedProducts <= perf.totalRatedProducts
    ensures perf.qualityLevel == Excellent <==> RatingMean(ps) >= 42.0
    ensures perf.qualityLevel == Good <==> 38.0 <= RatingMean(ps) < 42.0
    ensures perf.qualityLevel == Fair <==> 30.0 <= RatingMean(ps) < 38.0
    ensures perf.qualityLevel == Poor <==> RatingMean(ps) < 30.0
  {
    var ratings := TruthyStats(ps, RATING);
    var quality :=
      if !Below(ratings, 42, 0) then Excellent
      else if !Below(ratings, 38, 0) then Good
      else if !Below(ratings, 30, 0) then Fair
      else Poor;
    PerformanceAnalysis(MeanOr(ratings, 0), |ratings|, |Filter(ratings, r => r >= 40)|, quality)
  }

  // ---- insights, opportunity score and recommendations ----

  const InsufficientData := "Insufficient data for market insights"
  const BudgetInsight := "Budget-friendly category with high volume potential"
  const PremiumInsight := "Premium category with higher profit margins"
  const CompetitiveInsight := "Highly competitive market - established players dominate"
  const NicheInsight := "Less competitive niche with growth opportunities"
  const HighQualityInsight := "High-quality category - customer satisfaction is key"
  const QualityGapInsight := "Quality improvement opportunity - many products underperform"

  /** An `if (first) push(a) else if (second) push(b)` step: one line at
      most, the first rule that holds. */
  function Line(first: bool, a: string, second: bool, b: string): seq<string> {
    if first then [a] else if second then [b] else []
  }

  /** The market insights the averages of the analysable products call for:
      the price line, the competition line, the quality line. */
  function MarketInsightsFor(valid: seq<Product>): seq<string> {
    Line(PriceMean(valid) < 2500.0, BudgetInsight, PriceMean(valid) > 10000.0, PremiumInsight)
    + Line(RankMean(valid, 999999) < 10000.0, CompetitiveInsight, RankMean(valid, 999999) > 100000.0, NicheInsight)
    + Line(RatingMean(valid) >= 42.0, HighQualityInsight, RatingMean(valid) < 35.0, QualityGapInsight)
  }

  /** generateMarketInsights (its `analysisType` argument is unused): at most
      one price, one competition and one quality insight, in that order,
      decided on the analysable products' averages. */
  method GenerateMarketInsights(ps: seq<Product>) returns (insights: seq<string>)
    ensures Analysable(ps) == [] ==> insights == [InsufficientData]
    ensures Analysable(ps) != [] ==> insights == MarketInsightsFor(Analysable(ps))
    ensures Analysable(ps) != [] ==>
      var valid := Analysable(ps);
      && |insights| <= 3
      && (BudgetInsight in insights <==> PriceMean(valid) < 2500.0)
      && (PremiumInsight in insights <==> PriceMean(valid) > 10000.0)
      && (CompetitiveInsight in insights <==> RankMean(valid, 999999) < 10000.0)
      && (NicheInsight in insights <==> RankMean(valid, 999999) > 100000.0)
      && (HighQualityInsight in insights <==> RatingMean(valid) >= 42.0)
      && (QualityGapInsight in insights <==> RatingMean(valid) < 35.0)
      && InsufficientData !in insights
  {
    var valid := Analysable(ps);
    if valid == [] {
      return [InsufficientData];
    }
    var priceLine := PriceInsight(PricesOf(valid));
    var rankLine := CompetitionInsight(TruthyStats(valid, SALES_RANK));
    var ratingLine := QualityInsight(TruthyStats(valid, RATING));
    insights := priceLine + rankLine + ratingLine;
  }

  method PriceInsight(prices: seq<int>) returns (line: seq<string>)
    requires |prices| > 0
    ensures |line| <= 1
    ensures line == Line(MeanOr(prices, 0) < 2500.0, BudgetInsight, MeanOr(prices, 0) > 10000.0, PremiumInsight)
    ensures forall x :: x in line ==> x == BudgetInsight || x == PremiumInsight
    ensures BudgetInsight in line <==> MeanOr(prices, 0) < 2500.0
    ensures PremiumInsight in line <==> MeanOr(prices, 0) > 10000.0
  {
    line := [];
    if Below(prices, 2500, 0) {
      line := [BudgetInsight];
    } else if Above(prices, 10000, 0) {
      line := [PremiumInsight];
    }
  }

  method CompetitionInsight(ranks: seq<int>) returns (line: seq<string>)
    ensures |line| <= 1
    ensures line == Line(MeanOr(ranks, 999999) < 10000.0, CompetitiveInsight, MeanOr(ranks, 999999) > 100000.0, NicheInsight)
    ensures forall x :: x in line ==> x == CompetitiveInsight || x == NicheInsight
    ensures CompetitiveInsight in line <==> MeanOr(ranks, 999999) < 10000.0
    ensures NicheInsight in line <==> MeanOr(ranks, 999999) > 100000.0
  {
    line := [];
    if Below(ranks, 10000, 999999) {
      line := [CompetitiveInsight];
    } else if Above(ranks, 100000, 999999) {
      line := [NicheInsight];
    }
  }

  method QualityInsight(ratings: seq<int>) returns (line: seq<string>)
    ensures |line| <= 1
    ensures line == Line(MeanOr(ratings, 0) >= 42.0, HighQualityInsight, MeanOr(ratings, 0) < 35.0, QualityGapInsight)
    ensures forall x :: x in line ==> x == HighQualityInsight || x == QualityGapInsight
    ensures HighQualityInsight in line <==> MeanOr(ratings, 0) >= 42.0
    ensures QualityGapInsight in line <==> MeanOr(ratings, 0) < 35.0
  {
    line := [];
    if !Below(ratings, 42, 0) {
      line := [HighQualityInsight];
    } else if Below(ratings, 35, 0) {
      line := [QualityGapInsight];
    }
  }

  /** The additive score of calculateOpportunityScore before the clamp:
      base 50, +20 for a mean rank above 50000 and +10 more above 100000
      (999999 when no rank is known), +15 for a mean rating below 3.8 stars,
      +10 for a mean price strictly between 2000 and 15000 cents. */
  function OpportunityPoints(ps: seq<Product>): (points: int)
    ensures 50 <= points <= 105
  {
    var valid := Analysable(ps);
    50
    + (if RankMean(valid, 999999) > 50000.0 then 20 else 0)
    + (if RankMean(valid, 999999) > 100000.0 then 10 else 0)
    + (if RatingMean(valid) < 38.0 then 15 else 0)
    + (if 2000.0 < PriceMean(valid) < 15000.0 then 10 else 0)
  }

  /** calculateOpportunityScore: 0 without analysable products, otherwise
      the additive score clamped to [0, 100]. */
  method CalculateOpportunityScore(ps: seq<Product>) returns (score: int)
    ensures 0 <= score <= 100
    ensures Analysable(ps) == [] ==> score == 0
    ensures Analysable(ps) != [] ==> score == Min(100, Max(0, OpportunityPoints(ps))) && score >= 50
  {
    score := 50;
    var valid := Analysable(ps);
    if valid == [] {
      return 0;
    }
    var ranks := TruthyStats(valid, SALES_RANK);
    if Above(ranks, 50000, 999999) {
      score := score + 20;
    }
    if Above(ranks, 100000, 999999) {
      score := score + 10;
    }
    var ratings := TruthyStats(valid, RATING);
    if Below(ratings, 38, 0) {
      score := score + 15;
    }
    var prices := PricesOf(valid);
    if Above(prices, 2000, 0) && Below(prices, 15000, 0) {
      score := score + 10;
    }
    score := Min(100, Max(0, score));
  }

  /** One priced product with a 200000 rank and a 3.0 rating scores the
      maximum 105 points, which the clamp cuts to 100. */
  lemma OpportunityClampIsLive()
    ensures OpportunityPoints([ClampExample()]) == 105
    ensures Min(100, Max(0, OpportunityPoints([ClampExample()]))) == 100
  {
    ClampExampleMeans();
  }

  /** The example's three averages are its own rank, rating and price. */
  lemma ClampExampleMeans()
    ensures RankMean(Analysable([ClampExample()]), 999999) == 200000.0
    ensures RatingMean(Analysable([ClampExample()])) == 30.0
    ensures PriceMean(Analysable([ClampExample()])) == 5000.0
  {
    ClampExampleAnalysable();
    ClampExampleStats();
    assert Sum([200000]) == 200000 && Sum([30]) == 30 && Sum([5000]) == 5000;
  }

  lemma ClampExampleAnalysable()
    ensures Analysable([ClampExample()]) == [ClampExample()]
  {
    FilterAll([ClampExample()], AnalysableProduct);
  }

  lemma ClampExampleStats()
    ensures TruthyStats([ClampExample()], SALES_RANK) == [200000]
    ensures TruthyStats([ClampExample()], RATING) == [30]
    ensures PricesOf([ClampExample()]) == [5000]
  {
    var ps := [ClampExample()];
    assert ps[..0] == [];
  }

  /** A 50-dollar product ranked 200000 with a 3.0-star rating. */
  function ClampExample(): Product {
    Product("B0", None, None, Some(5000),
      Some(Stats([0, 0, 0, 200000, 0, 0, 0, 0, 0, 0, 0, 0, 0, 0, 0, 0, 30], [], None, None)))
  }

  const NeedMoreData := "Need more product data to generate recommendations"
  const VolumeStrategy := "Consider volume-based strategies for this budget category"
  const PremiumPositioning := "Focus on quality and premium positioning"
  const Differentiate := "Highly competitive - differentiation and branding crucial"
  const MarketEntry := "Opportunity for market entry with good products"
  const QualityOpportunity := "Quality improvement opportunity exists"

  /** The category recommendations the averages of the analysable products
      call for: the price line, the competition line, the quality line. */
  function CategoryRecommendationsFor(valid: seq<Product>): seq<string> {
    Line(PriceMean(valid) < 2500.0, VolumeStrategy, PriceMean(valid) > 10000.0, PremiumPositioning)
    + Line(RankMean(valid, 999999) < 10000.0, Differentiate, RankMean(valid, 999999) > 100000.0, MarketEntry)
    + (if RatingMean(valid) < 38.0 then [QualityOpportunity] else [])
  }

  /** The category recommendations: at most one price line, one competition
      line and the quality line, decided on the analysable products' averages. */
  method GenerateRecommendations(ps: seq<Product>) returns (recs: seq<string>)
    ensures Analysable(ps) == [] ==> recs == [NeedMoreData]
    ensures Analysable(ps) != [] ==> recs == CategoryRecommendationsFor(Analysable(ps))
    ensures Analysable(ps) != [] ==>
      var valid := Analysable(ps);
      && |recs| <= 3
      && (VolumeStrategy in recs <==> PriceMean(valid) < 2500.0)
      && (PremiumPositioning in recs <==> PriceMean(valid) > 10000.0)
      && (Differentiate in recs <==> RankMean(valid, 999999) < 10000.0)
      && (MarketEntry in recs <==> RankMean(valid, 999999) > 100000.0)
      && (QualityOpportunity in recs <==> RatingMean(valid) < 38.0)
      && NeedMoreData !in recs
  {
    var valid := Analysable(ps);
    if valid == [] {
      return [NeedMoreData];
    }
    var priceLine := PriceRecommendation(PricesOf(valid));
    var rankLine := CompetitionRecommendation(TruthyStats(valid, SALES_RANK));
    var ratingLine := [];
    if Below(TruthyStats(valid, RATING), 38, 0) {
      ratingLine := [QualityOpportunity];
    }
    recs := priceLine + rankLine + ratingLine;
  }

  method PriceRecommendation(prices: seq<int>) returns (line: seq<string>)
    requires |prices| > 0
    ensures |line| <= 1
    ensures line == Line(MeanOr(prices, 0) < 2500.0, VolumeStrategy, MeanOr(prices, 0) > 10000.0, PremiumPositioning)
    ensures forall x :: x in line ==> x == VolumeStrategy || x == PremiumPositioning
    ensures VolumeStrategy in line <==> MeanOr(prices, 0) < 2500.0
    ensures PremiumPositioning in line <==> MeanOr(prices, 0) > 10000.0
  {
    line := [];
    if Below(prices, 2500, 0) {
      line := [VolumeStrategy];
    } else if Above(prices, 10000, 0) {
      line := [PremiumPositioning];
    }
  }

  method CompetitionRecommendation(ranks: seq<int>) returns (line: seq<string>)
    ensures |line| <= 1
    ensures line == Line(MeanOr(ranks, 999999) < 10000.0, Differentiate, MeanOr(ranks, 999999) > 100000.0, MarketEntry)
    ensures forall x :: x in line ==> x == Differentiate || x == MarketEntry
    ensures Differentiate in line <==> MeanOr(ranks, 999999) < 10000.0
    ensures MarketEntry in line <==> MeanOr(ranks, 999999) > 100000.0
  {
    line := [];
    if Below(ranks, 10000, 999999) {
      line := [Differentiate];
    } else if Above(ranks, 100000, 999999) {
      line := [MarketEntry];
    }
  }
}
