/** The Product Finder selection object that searchProducts builds field by
    field (src/keepa-client.ts:821-900) before posting it to `/query`. */
module Selection {
  import opened Wrappers
  import opened KeepaTypes

  /** A `{gte?, lte?}` filter on one product metric. */
  datatype Range = Range(gte: Option<int>, lte: Option<int>)

  /** The selection object; an absent key is None (or false for isPrime). */
  datatype Selection = Selection(
    categoryId: Option<int>,
    currentAmazon: Option<Range>,
    currentShipping: Option<Range>,
    currentRating: Option<Range>,
    currentSales: Option<Range>,
    currentCountNew: Option<Range>,
    currentCountReviews: Option<Range>,
    isPrime: bool,
    currentSalesRank: Option<Range>)

  /** The caller's finder parameters; prices in cents, ratings in stars. */
  datatype FinderParams = FinderParams(
    categoryId: Option<int>,
    minPrice: Option<int>, maxPrice: Option<int>,
    minShipping: Option<int>, maxShipping: Option<int>,
    minRating: Option<real>, maxRating: Option<real>,
    minMonthlySales: Option<int>, maxMonthlySales: Option<int>,
    minSellerCount: Option<int>, maxSellerCount: Option<int>,
    minReviewCount: Option<int>,
    isPrime: Option<bool>,
    hasReviews: Option<bool>,
    minSalesRank: Option<int>, maxSalesRank: Option<int>,
    domain: Option<int>, page: Option<int>, perPage: Option<int>)

  /** The filter a pair of given bounds denotes: absent when neither is given. */
  function Bounds(lo: Option<int>, hi: Option<int>): Option<Range> {
    if lo.None? && hi.None? then None else Some(Range(lo, hi))
  }

  /** A star rating on Keepa's ×10 scale, `Math.floor(r * 10)`, when the
      rating is truthy (non-zero). */
  function Tenfold(r: Option<real>): (t: Option<int>)
    ensures t.Some? <==> r.Some? && r.value != 0.0
    ensures t.Some? ==> t.value as real <= r.value * 10.0 < t.value as real + 1.0
  {
    if r.Some? && r.value != 0.0 then Some((r.value * 10.0).Floor) else None
  }

  /** `{ ...prev, lte: v }` and `{ ...prev, gte: v }`: keep the other bound. */
  function WithLte(prev: Option<Range>, v: int): Range {
    Range(if prev.Some? then prev.value.gte else None, Some(v))
  }

  function WithGte(prev: Option<Range>, v: int): Range {
    Range(Some(v), if prev.Some? then prev.value.lte else None)
  }

  /** Whether a metric value passes a filter. */
  predicate Admits(r: Option<Range>, x: int) {
    r.None? || ((r.value.gte.None? || r.value.gte.value <= x) && (r.value.lte.None? || x <= r.value.lte.value))
  }

  /** The selection the finder parameters denote: each metric's truthy
      bounds merged into one range, the review bound replaced by `gte: 1`
      when hasReviews is true, isPrime only when it is exactly true. */
  predicate Selects(p: FinderParams, s: Selection) {
    && s.categoryId == Given(p.categoryId)
    && s.currentAmazon == Bounds(Given(p.minPrice), Given(p.maxPrice))
    && s.currentShipping == Bounds(Given(p.minShipping), Given(p.maxShipping))
    && s.currentRating == Bounds(Tenfold(p.minRating), Tenfold(p.maxRating))
    && s.currentSales == Bounds(Given(p.minMonthlySales), Given(p.maxMonthlySales))
    && s.currentCountNew == Bounds(Given(p.minSellerCount), Given(p.maxSellerCount))
    && s.currentCountReviews == (if p.hasReviews == Some(true) then Some(Range(Some(1), None))
                                 else Bounds(Given(p.minReviewCount), None))
    && (s.isPrime <==> p.isPrime == Some(true))
    && s.currentSalesRank == Bounds(Given(p.minSalesRank), Given(p.maxSalesRank))
  }

  /** The selection builder of searchProducts, one guarded update per
      parameter in the order of the source; `categoryName` is the verified
      table's name for a truthy categoryId (only logged by the source). */
  method BuildSelection(p: FinderParams) returns (s: Selection, categoryName: Option<string>)
    ensures Selects(p, s)
    ensures categoryName == (if Truthy(p.categoryId) then GetCategoryName(p.categoryId.value) else None)
  {
    categoryName := None;
    var categoryId: Option<int> := None;
    if Truthy(p.categoryId) {
      categoryName := GetCategoryName(p.categoryId.value);
      categoryId := p.categoryId;
    }
    var currentAmazon := MinThenMax(p.minPrice, p.maxPrice);
    var currentShipping := MinThenMax(p.minShipping, p.maxShipping);
    var currentRating := RatingFilter(p.minRating, p.maxRating);
    var currentSales := MinThenMax(p.minMonthlySales, p.maxMonthlySales);
    var currentCountNew := MinThenMax(p.minSellerCount, p.maxSellerCount);
    var currentCountReviews := MinThenMax(p.minReviewCount, None);
    var isPrime := false;
    if p.isPrime == Some(true) {
      isPrime := true;
    }
    if p.hasReviews == Some(true) {
      currentCountReviews := Some(Range(Some(1), None));
    }
    var currentSalesRank := MaxThenMin(p.minSalesRank, p.maxSalesRank);
    s := Selection(categoryId, currentAmazon, currentShipping, currentRating, currentSales,
                   currentCountNew, currentCountReviews, isPrime, currentSalesRank);
  }

  /** The pattern repeated for each metric: `if (min) key = {gte: min}` then
      `if (max) key = {...key, lte: max}`. */
  method MinThenMax(min: Option<int>, max: Option<int>) returns (key: Option<Range>)
    ensures key == Bounds(Given(min), Given(max))
  {
    key := None;
    if Truthy(min) {
      key := Some(Range(min, None));
    }
    if Truthy(max) {
      key := Some(WithLte(key, max.value));
    }
  }

  /** The rating filter: the same pattern on star ratings, each bound
      converted to Keepa's ×10 scale with `Math.floor(r * 10)`. */
  method RatingFilter(min: Option<real>, max: Option<real>) returns (key: Option<Range>)
    ensures key == Bounds(Tenfold(min), Tenfold(max))
  {
    key := None;
    if min.Some? && min.value != 0.0 {
      key := Some(Range(Some((min.value * 10.0).Floor), None));
    }
    if max.Some? && max.value != 0.0 {
      key := Some(WithLte(key, (max.value * 10.0).Floor));
    }
  }

  /** The sales-rank filter, written the other way round: the upper bound
      first, then `{...key, gte: min}`. */
  method MaxThenMin(min: Option<int>, max: Option<int>) returns (key: Option<Range>)
    ensures key == Bounds(Given(min), Given(max))
  {
    key := None;
    if Truthy(max) {
      key := Some(Range(None, max));
    }
    if Truthy(min) {
      key := Some(WithGte(key, min.value));
    }
  }

  /** A merged min/max filter admits exactly the values between the given
      bounds, and a falsy bound (0 or absent) constrains nothing. */
  lemma BoundsMeaning(lo: Option<int>, hi: Option<int>, x: int)
    ensures Admits(Bounds(Given(lo), Given(hi)), x)
        <==> (!Truthy(lo) || lo.value <= x) && (!Truthy(hi) || x <= hi.value)
  {
  }
}
