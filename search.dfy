/** searchProducts (src/keepa-client.ts:818-964): post the selection to
    `/query`, hydrate the returned ASINs through getProductsBatch, and fall
    back to the category's best sellers when the query step throws. The three
    endpoints are parameters: the outcome of `/query`, the outcome of
    `/bestsellers`, and `fetch` for `/product`. */
module Search {
  import opened Wrappers
  import opened KeepaTypes
  import opened Requests
  import opened Selection

  datatype QueryOutcome = QueryThrows | QueryReturns(asinList: seq<string>, totalResults: int)

  datatype BestSeller = BestSeller(asin: string, salesRank: int)

  datatype BestSellersOutcome = BestSellersThrows | BestSellersReturns(list: seq<BestSeller>)

  /** The calls searchProducts makes, in order. */
  datatype Call =
    | QueryCall(domain: int, selection: Selection, page: int, perPage: int)
    | BestSellersCall(domain: int, category: int, page: int)
    | ProductCall(request: ProductRequest)

  /** A returned product, tagged with where it came from. */
  datatype Item<P> =
    | FromQuery(product: P, searchScore: int)
    | FromBestSellers(product: P, monthlySold: int, bestSellerRank: int)

  /** `Math.max(100, Math.floor(2000 - rank / 100))`: the sales estimate the
      fallback attaches to a best seller. */
  function MonthlySold(rank: int): (m: int)
    ensures m >= 100
  {
    Max(100, (200000 - rank) / 100)
  }

  /** The floor is taken of the exact quotient: the estimate is the largest
      whole number not above 2000 - rank/100, unless that is below 100. */
  lemma MonthlySoldMeaning(rank: int)
    ensures MonthlySold(rank) >= 100
    ensures MonthlySold(rank) > 100 ==> 100 * MonthlySold(rank) <= 200000 - rank < 100 * MonthlySold(rank) + 100
    ensures rank >= 190000 ==> MonthlySold(rank) == 100
  {
  }

  /** `bestSellers.slice(0, perPage || 25).map(bs => bs.asin)`: the ASINs of
      the first `end` best sellers for a non-negative end, and of all but the
      last `-end` of them for a negative one. */
  function FallbackAsins(list: seq<BestSeller>, perPage: Option<int>): (asins: seq<string>)
    ensures var end := OrElse(perPage, 25);
      && (end >= 0 ==> |asins| == Min(end, |list|))
      && (end < 0 ==> |asins| == Max(0, |list| + end))
    ensures |asins| <= |list|
    ensures forall i :: 0 <= i < |asins| ==> asins[i] == list[i].asin
  {
    var end := OrElse(perPage, 25);
    var n := if end >= 0 then Min(end, |list|) else Max(0, |list| + end);
    seq(n, i requires 0 <= i < n => list[i].asin)
  }

  /** The outcome getProductsBatch would have on these ASINs. */
  function Hydration<P>(asins: seq<string>, domain: int, fetch: ProductRequest -> Result<seq<P>, KeepaError>): Result<seq<P>, KeepaError> {
    Sequenced(BatchRequests(asins, domain, None), fetch)
  }

  /** The product requests getProductsBatch sends for these ASINs: the
      batches in order, up to and including the first that fails. */
  function Issued<P>(asins: seq<string>, domain: int, fetch: ProductRequest -> Result<seq<P>, KeepaError>): seq<ProductRequest> {
    var reqs := BatchRequests(asins, domain, None);
    reqs[..Min(FirstFailure(reqs, fetch) + 1, |reqs|)]
  }

  /** Whether control reaches the `catch` at line 928: the query threw, or
      hydrating its non-empty ASIN list threw. */
  predicate QueryStepThrows<P>(query: QueryOutcome, domain: int, fetch: ProductRequest -> Result<seq<P>, KeepaError>) {
    query.QueryThrows? || (|query.asinList| > 0 && Hydration(query.asinList, domain, fetch).Failure?)
  }

  function Calls(reqs: seq<ProductRequest>): (calls: seq<Call>)
    ensures |calls| == |reqs|
    ensures forall i :: 0 <= i < |calls| ==> calls[i] == ProductCall(reqs[i])
  {
    seq(|reqs|, i requires 0 <= i < |reqs| => ProductCall(reqs[i]))
  }

  /** The product calls the `try` block makes: a batch request per batch of
      a non-empty ASIN list, up to the first that fails. */
  function QueryCalls<P>(query: QueryOutcome, domain: int, fetch: ProductRequest -> Result<seq<P>, KeepaError>): seq<Call> {
    if query.QueryReturns? && |query.asinList| > 0 then Calls(Issued(query.asinList, domain, fetch)) else []
  }

  /** What the `try` block answers: every hydrated product tagged with the
      query's totalResults, or nothing when there is nothing to hydrate. */
  function QueryItems<P>(query: QueryOutcome, domain: int, fetch: ProductRequest -> Result<seq<P>, KeepaError>): seq<Item<P>> {
    if query.QueryReturns? && |query.asinList| > 0 && Hydration(query.asinList, domain, fetch).Success? then
      var products := Hydration(query.asinList, domain, fetch).value;
      seq(|products|, i requires 0 <= i < |products| => FromQuery(products[i], query.totalResults))
    else []
  }

  /** The calls the fallback makes: `/bestsellers`, then the batches
      hydrating the sliced ASINs of a non-empty best-seller list. */
  function FallbackCalls<P>(categoryId: int, perPage: Option<int>, domain: int, page: int,
                            bestSellers: BestSellersOutcome,
                            fetch: ProductRequest -> Result<seq<P>, KeepaError>): seq<Call> {
    [BestSellersCall(domain, categoryId, page)]
      + (if bestSellers.BestSellersReturns? && |bestSellers.list| > 0 then
           Calls(Issued(FallbackAsins(bestSellers.list, perPage), domain, fetch))
         else [])
  }

  /** What the fallback answers: the i-th hydrated product with the i-th best
      seller's rank and sales estimate, or nothing when anything throws
      (including a product with no best seller at its index). */
  function FallbackItems<P>(perPage: Option<int>, domain: int, bestSellers: BestSellersOutcome,
                            fetch: ProductRequest -> Result<seq<P>, KeepaError>): seq<Item<P>> {
    if bestSellers.BestSellersReturns? && |bestSellers.list| > 0 then
      var list := bestSellers.list;
      var hydrated := Hydration(FallbackAsins(list, perPage), domain, fetch);
      if hydrated.Success? && |hydrated.value| <= |list| then
        seq(|hydrated.value|, i requires 0 <= i < |hydrated.value| =>
          FromBestSellers(hydrated.value[i], MonthlySold(list[i].salesRank), list[i].salesRank))
      else []
    else []
  }

  /** searchProducts. */
  method SearchProducts<P>(p: FinderParams, query: QueryOutcome, bestSellers: BestSellersOutcome,
                           fetch: ProductRequest -> Result<seq<P>, KeepaError>)
    returns (items: seq<Item<P>>, calls: seq<Call>)
    // The query goes out first, with the defaults filled in and perPage capped at 50.
    ensures |calls| >= 1 && calls[0].QueryCall?
    ensures calls[0].domain == OrElse(p.domain, 1) && calls[0].page == OrElse(p.page, 0)
    ensures calls[0].perPage == Min(OrElse(p.perPage, 25), 50)
    ensures Selects(p, calls[0].selection)
    // Then the query's product batches, then (only after a throw, with a
    // category) the best sellers and their product batches.
    ensures calls == [calls[0]] + QueryCalls(query, OrElse(p.domain, 1), fetch)
      + (if QueryStepThrows(query, OrElse(p.domain, 1), fetch) && Truthy(p.categoryId) then
           FallbackCalls(p.categoryId.value, p.perPage, OrElse(p.domain, 1), OrElse(p.page, 0), bestSellers, fetch)
         else [])
    ensures items == if !QueryStepThrows(query, OrElse(p.domain, 1), fetch) then QueryItems(query, OrElse(p.domain, 1), fetch)
                     else if Truthy(p.categoryId) then FallbackItems(p.perPage, OrElse(p.domain, 1), bestSellers, fetch)
                     else []
    // A non-empty ASIN list that hydrates is the answer, and best sellers are never asked.
    ensures (query.QueryReturns? && |query.asinList| > 0
             && Hydration(query.asinList, OrElse(p.domain, 1), fetch).Success?) ==>
      var products := Hydration(query.asinList, OrElse(p.domain, 1), fetch).value;
      && |items| == |products|
      && (forall i :: 0 <= i < |items| ==> items[i] == FromQuery(products[i], query.totalResults))
      && (forall i :: 0 <= i < |calls| ==> !calls[i].BestSellersCall?)
    // A successful query with no ASINs is an empty answer and nothing else is called.
    ensures query.QueryReturns? && query.asinList == [] ==> items == [] && |calls| == 1
    // Best sellers are asked exactly when the query step threw and a category is set.
    ensures (exists i :: 0 <= i < |calls| && calls[i].BestSellersCall?)
        <==> QueryStepThrows(query, OrElse(p.domain, 1), fetch) && Truthy(p.categoryId)
    // Without that fallback, a failed query step gives an empty answer.
    ensures QueryStepThrows(query, OrElse(p.domain, 1), fetch) && !Truthy(p.categoryId) ==> items == []
    // Fallback items pair the i-th hydrated product with the i-th best seller.
    ensures forall i :: 0 <= i < |items| && items[i].FromBestSellers? ==>
      && bestSellers.BestSellersReturns?
      && i < |bestSellers.list|
      && items[i].bestSellerRank == bestSellers.list[i].salesRank
      && items[i].monthlySold == MonthlySold(bestSellers.list[i].salesRank) >= 100
    // The fallback's products are the hydrated first perPage best sellers.
    ensures QueryStepThrows(query, OrElse(p.domain, 1), fetch) && Truthy(p.categoryId)
            && bestSellers.BestSellersReturns? && bestSellers.list != [] ==>
      var hydrated := Hydration(FallbackAsins(bestSellers.list, p.perPage), OrElse(p.domain, 1), fetch);
      if hydrated.Success? && |hydrated.value| <= |bestSellers.list| then
        |items| == |hydrated.value| && forall i :: 0 <= i < |items| ==> items[i].product == hydrated.value[i]
      else
        items == []
    // Every item on one answer has the same origin.
    ensures (forall i :: 0 <= i < |items| ==> items[i].FromQuery?)
         || (forall i :: 0 <= i < |items| ==> items[i].FromBestSellers?)
  {
    var selection, _ := BuildSelection(p);
    var domain := OrElse(p.domain, 1);
    var page := OrElse(p.page, 0);
    calls := [QueryCall(domain, selection, page, Min(OrElse(p.perPage, 25), 50))];
    var more, threw;
    items, more, threw := QueryStep(query, domain, fetch);
    calls := calls + more;
    if threw && Truthy(p.categoryId) {
      var fallback;
      items, fallback := BestSellersFallback(p.categoryId.value, p.perPage, domain, page, bestSellers, fetch);
      FallbackIsAsked(calls, fallback);
      calls := calls + fallback;
    } else {
      OnlyQueryAndProducts(calls[0], more);
    }
  }

  /** Calls that end in a best-sellers request do ask for best sellers. */
  lemma FallbackIsAsked(calls: seq<Call>, fallback: seq<Call>)
    requires |fallback| >= 1 && fallback[0].BestSellersCall?
    ensures (calls + fallback)[0] == (if calls == [] then fallback[0] else calls[0])
    ensures exists i :: 0 <= i < |calls + fallback| && (calls + fallback)[i].BestSellersCall?
  {
    assert (calls + fallback)[|calls|] == fallback[0];
  }

  /** The query followed by product requests asks no best sellers. */
  lemma OnlyQueryAndProducts(query: Call, more: seq<Call>)
    requires query.QueryCall? && forall i :: 0 <= i < |more| ==> more[i].ProductCall?
    ensures forall i :: 0 <= i < |[query] + more| ==> !([query] + more)[i].BestSellersCall?
  {
  }

  /** The `try` block after the selection is built: hydrate a non-empty ASIN
      list and tag each product with the query's totalResults. `threw` says
      whether control left the block through the `catch`. */
  method QueryStep<P>(query: QueryOutcome, domain: int, fetch: ProductRequest -> Result<seq<P>, KeepaError>)
    returns (items: seq<Item<P>>, calls: seq<Call>, threw: bool)
    ensures threw <==> QueryStepThrows(query, domain, fetch)
    ensures calls == QueryCalls(query, domain, fetch) && items == QueryItems(query, domain, fetch)
    ensures forall i :: 0 <= i < |calls| ==> calls[i].ProductCall?
    ensures query.QueryReturns? && query.asinList == [] ==> calls == []
    ensures threw || query.QueryThrows? || query.asinList == [] ==> items == []
    ensures !threw && query.QueryReturns? && query.asinList != [] ==>
      var products := Hydration(query.asinList, domain, fetch).value;
      && |items| == |products|
      && forall i :: 0 <= i < |items| ==> items[i] == FromQuery(products[i], query.totalResults)
  {
    items, calls, threw := [], [], false;
    match query {
      case QueryThrows =>
        threw := true;
      case QueryReturns(asinList, totalResults) =>
        if |asinList| > 0 {
          var detailed, issued := GetProductsBatch(asinList, domain, None, fetch);
          calls := Calls(issued);
          if detailed.Failure? {
            threw := true;
          } else {
            items := seq(|detailed.value|, i requires 0 <= i < |detailed.value| => FromQuery(detailed.value[i], totalResults));
          }
        }
    }
  }

  /** The `catch` branch with a category set: ask `/bestsellers`, hydrate at
      most perPage of them (25 by default, `slice` semantics for negative
      values), and pair each product with the best seller at its index. Any
      throw inside ends in an empty answer. */
  method BestSellersFallback<P>(categoryId: int, perPage: Option<int>, domain: int, page: int,
                                bestSellers: BestSellersOutcome,
                                fetch: ProductRequest -> Result<seq<P>, KeepaError>)
    returns (items: seq<Item<P>>, calls: seq<Call>)
    ensures calls == FallbackCalls(categoryId, perPage, domain, page, bestSellers, fetch)
    ensures items == FallbackItems(perPage, domain, bestSellers, fetch)
    ensures |calls| >= 1 && calls[0] == BestSellersCall(domain, categoryId, page)
    ensures forall i :: 1 <= i < |calls| ==> calls[i].ProductCall?
    ensures bestSellers.BestSellersThrows? ==> items == [] && |calls| == 1
    ensures forall i :: 0 <= i < |items| ==>
      && items[i].FromBestSellers?
      && bestSellers.BestSellersReturns?
      && i < |bestSellers.list|
      && items[i].bestSellerRank == bestSellers.list[i].salesRank
      && items[i].monthlySold == MonthlySold(bestSellers.list[i].salesRank)
    ensures bestSellers.BestSellersReturns? && bestSellers.list == [] ==> items == [] && |calls| == 1
    ensures bestSellers.BestSellersReturns? && bestSellers.list != [] ==>
      var hydrated := Hydration(FallbackAsins(bestSellers.list, perPage), domain, fetch);
      if hydrated.Success? && |hydrated.value| <= |bestSellers.list| then
        |items| == |hydrated.value| && forall i :: 0 <= i < |items| ==> items[i].product == hydrated.value[i]
      else
        items == []
  {
    calls := [BestSellersCall(domain, categoryId, page)];
    items := [];
    match bestSellers {
      case BestSellersThrows =>
      case BestSellersReturns(list) =>
        if |list| > 0 {
          var asinList := FallbackAsins(list, perPage);
          var detailed, issued := GetProductsBatch(asinList, domain, None, fetch);
          calls := calls + Calls(issued);
          // A product beyond the best-seller list makes `bestSeller.salesRank`
          // throw a TypeError, which the inner catch turns into [].
          if detailed.Success? && |detailed.value| <= |list| {
            var products := detailed.value;
            items := seq(|products|, i requires 0 <= i < |products| =>
              FromBestSellers(products[i], MonthlySold(list[i].salesRank), list[i].salesRank));
          }
        }
    }
  }
}
