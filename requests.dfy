/** Product request shaping (src/keepa-client.ts:116-164): the parameter
    normalisation of getProduct and the 100-ASIN chunking of getProductsBatch.
    The `/product` call itself is a parameter `fetch` from a normalised
    request to the products it returns or the error it throws. */
module Requests {
  import opened Wrappers
  import opened Text
  import opened KeepaTypes

  /** What a caller passes to getProduct. Absent JavaScript fields are None. */
  datatype ProductQuery = ProductQuery(
    asin: Option<string>,
    asins: Option<seq<string>>,
    code: Option<string>,
    domain: Option<int>,
    stats: Option<int>)

  /** The query parameters actually sent: `asins` folded into `asin`, `stats`
      always present. */
  datatype ProductRequest = ProductRequest(
    asin: Option<string>,
    code: Option<string>,
    domain: Option<int>,
    stats: int)

  /** A string is truthy unless it is absent or empty. */
  predicate Present(s: Option<string>) {
    s.Some? && s.value != ""
  }

  const MissingIdentifierMessage := "Either asin, asins, or code parameter is required"

  /** getProduct's normalisation: refuse a query naming no product, join the
      `asins` list with commas into `asin`, and default `stats` to 1. An
      array is truthy even when empty, so any `asins` list passes the guard. */
  function NormaliseQuery(q: ProductQuery): (r: Result<ProductRequest, KeepaError>)
    ensures r.Failure? <==> !Present(q.asin) && q.asins.None? && !Present(q.code)
    ensures r.Failure? ==> r.error == KeepaError(MissingIdentifierMessage, None, None)
    ensures r.Success? ==> r.value.code == q.code && r.value.domain == q.domain
    ensures r.Success? && q.asins.None? ==> r.value.asin == q.asin
    ensures r.Success? ==> r.value.stats == (if q.stats.None? then 1 else q.stats.value)
  {
    if !Present(q.asin) && q.asins.None? && !Present(q.code) then
      Failure(KeepaError(MissingIdentifierMessage, None, None))
    else
      var asin := if q.asins.Some? then Some(Join(q.asins.value, ',')) else q.asin;
      Success(ProductRequest(asin, q.code, q.domain, q.stats.GetOr(1)))
  }

  /** The joined `asin` parameter names exactly the requested ASINs again:
      splitting it on commas gives back the list (ASINs contain no comma). */
  lemma {:induction false} JoinedAsinsRecoverable(q: ProductQuery)
    requires q.asins.Some? && |q.asins.value| >= 1 && NoSeparator(q.asins.value, ',')
    ensures NormaliseQuery(q).Success?
    ensures NormaliseQuery(q).value.asin.Some?
    ensures Split(NormaliseQuery(q).value.asin.value, ',') == q.asins.value
  {
    SplitJoin(q.asins.value, ',');
  }

  /** getProduct: normalise, then call `/product`; `products || []` is
      already folded into what `fetch` returns. */
  function GetProduct<T>(q: ProductQuery, fetch: ProductRequest -> Result<seq<T>, KeepaError>): (r: Result<seq<T>, KeepaError>)
    ensures NormaliseQuery(q).Failure? ==> r == Failure(NormaliseQuery(q).error)
    ensures NormaliseQuery(q).Success? ==> r == fetch(NormaliseQuery(q).value)
  {
    match NormaliseQuery(q)
    case Failure(e) => Failure(e)
    case Success(req) => fetch(req)
  }

  // ---- batching ----

  const BatchSize := 100

  /** The consecutive slices `asins.slice(i, i + 100)` for i = 0, 100, ... */
  function Batches(asins: seq<string>): (bs: seq<seq<string>>)
    ensures forall j :: 0 <= j < |bs| ==> 1 <= |bs[j]| <= BatchSize
    decreases |asins|
  {
    if asins == [] then []
    else if |asins| <= BatchSize then [asins]
    else [asins[..BatchSize]] + Batches(asins[BatchSize..])
  }

  function Concat<T>(xss: seq<seq<T>>): seq<T> {
    if xss == [] then [] else xss[0] + Concat(xss[1..])
  }

  /** There are ⌈n/100⌉ batches. */
  lemma {:induction false} BatchCount(asins: seq<string>)
    ensures |Batches(asins)| == (|asins| + BatchSize - 1) / BatchSize
    decreases |asins|
  {
    if |asins| > BatchSize {
      BatchCount(asins[BatchSize..]);
    }
  }

  /** Batch j exists exactly when the slice at 100·j is not empty. */
  lemma BatchExists(asins: seq<string>, j: nat)
    ensures j < |Batches(asins)| <==> BatchSize * j < |asins|
  {
    BatchCount(asins);
  }

  /** Batch j is the slice starting at 100·j. */
  lemma {:induction false} BatchAt(asins: seq<string>, j: nat)
    requires j < |Batches(asins)|
    ensures BatchSize * j < |asins|
    ensures Batches(asins)[j] == asins[BatchSize * j..Min(BatchSize * j + BatchSize, |asins|)]
    decreases |asins|
  {
    if j > 0 {
      var rest := asins[BatchSize..];
      BatchAt(rest, j - 1);
      assert rest[BatchSize * (j - 1)..Min(BatchSize * (j - 1) + BatchSize, |rest|)]
          == asins[BatchSize * j..Min(BatchSize * j + BatchSize, |asins|)];
    }
  }

  /** The batches, in order, are exactly the ASIN list. */
  lemma {:induction false} BatchesCover(asins: seq<string>)
    ensures Concat(Batches(asins)) == asins
    decreases |asins|
  {
    if |asins| > BatchSize {
      BatchesCover(asins[BatchSize..]);
      assert asins == asins[..BatchSize] + asins[BatchSize..];
    }
  }

  /** The getProduct query for one batch: `{asins: batch, domain, stats: 1, ...options}`. */
  function BatchQuery(batch: seq<string>, domain: int, stats: Option<int>): ProductQuery {
    ProductQuery(None, Some(batch), None, Some(domain), Some(stats.GetOr(1)))
  }

  /** The normalised request of every batch, in batch order. */
  function BatchRequests(asins: seq<string>, domain: int, stats: Option<int>): (reqs: seq<ProductRequest>)
    ensures |reqs| == |Batches(asins)|
    ensures forall j :: 0 <= j < |reqs| ==>
      reqs[j] == ProductRequest(Some(Join(Batches(asins)[j], ',')), None, Some(domain), stats.GetOr(1))
  {
    var bs := Batches(asins);
    seq(|bs|, j requires 0 <= j < |bs| => NormaliseQuery(BatchQuery(bs[j], domain, stats)).value)
  }

  /** The query built from the slice at 100·j normalises to request j. */
  lemma BatchRequestAt(asins: seq<string>, domain: int, stats: Option<int>, j: nat)
    requires j < |Batches(asins)|
    ensures BatchSize * j < |asins|
    ensures NormaliseQuery(BatchQuery(asins[BatchSize * j..Min(BatchSize * j + BatchSize, |asins|)], domain, stats))
         == Success(BatchRequests(asins, domain, stats)[j])
  {
    BatchAt(asins, j);
  }

  /** Request j extends the prefix of the first j requests by one. */
  lemma PrefixStep(reqs: seq<ProductRequest>, j: nat)
    requires j < |reqs|
    ensures reqs[..j + 1] == reqs[..j] + [reqs[j]]
  {
  }

  /** Index of the first request whose fetch throws, |reqs| if none does. */
  function FirstFailure<T>(reqs: seq<ProductRequest>, fetch: ProductRequest -> Result<seq<T>, KeepaError>): (k: nat)
    ensures k <= |reqs|
    ensures forall i :: 0 <= i < k ==> fetch(reqs[i]).Success?
    ensures k < |reqs| ==> fetch(reqs[k]).Failure?
  {
    if reqs == [] then 0
    else if fetch(reqs[0]).Failure? then 0
    else 1 + FirstFailure(reqs[1..], fetch)
  }

  /** The products of successfully fetched requests, concatenated in order. */
  function Fetched<T>(reqs: seq<ProductRequest>, fetch: ProductRequest -> Result<seq<T>, KeepaError>): seq<T>
    requires forall i :: 0 <= i < |reqs| ==> fetch(reqs[i]).Success?
  {
    if reqs == [] then []
    else Fetched(reqs[..|reqs| - 1], fetch) + fetch(reqs[|reqs| - 1]).value
  }

  lemma FetchedExtend<T>(reqs: seq<ProductRequest>, j: nat, fetch: ProductRequest -> Result<seq<T>, KeepaError>)
    requires j < |reqs|
    requires forall i :: 0 <= i <= j ==> fetch(reqs[i]).Success?
    ensures Fetched(reqs[..j + 1], fetch) == Fetched(reqs[..j], fetch) + fetch(reqs[j]).value
  {
    assert reqs[..j + 1][..j] == reqs[..j];
  }

  /** The requests are awaited one after another: the first throw ends the
      batch with that error, otherwise every product list is concatenated. */
  function Sequenced<T>(reqs: seq<ProductRequest>, fetch: ProductRequest -> Result<seq<T>, KeepaError>): Result<seq<T>, KeepaError> {
    var k := FirstFailure(reqs, fetch);
    if k < |reqs| then Failure(fetch(reqs[k]).error) else Success(Fetched(reqs, fetch))
  }

  lemma FailureAt<T>(reqs: seq<ProductRequest>, j: nat, fetch: ProductRequest -> Result<seq<T>, KeepaError>)
    requires j < |reqs| && fetch(reqs[j]).Failure?
    requires forall i :: 0 <= i < j ==> fetch(reqs[i]).Success?
    ensures FirstFailure(reqs, fetch) == j
    ensures Sequenced(reqs, fetch) == Failure(fetch(reqs[j]).error)
  {
  }

  lemma NoFailure<T>(reqs: seq<ProductRequest>, fetch: ProductRequest -> Result<seq<T>, KeepaError>)
    requires forall i :: 0 <= i < |reqs| ==> fetch(reqs[i]).Success?
    ensures FirstFailure(reqs, fetch) == |reqs|
    ensures Sequenced(reqs, fetch) == Success(Fetched(reqs, fetch))
  {
  }

  /** getProductsBatch: one getProduct call per batch of at most 100 ASINs,
      each with `stats` 1 unless the caller overrides it, results appended in
      batch order; the first failing call aborts the batch. `issued` lists
      the requests sent, in order. */
  method GetProductsBatch<T>(asins: seq<string>, domain: int, stats: Option<int>,
                             fetch: ProductRequest -> Result<seq<T>, KeepaError>)
    returns (result: Result<seq<T>, KeepaError>, issued: seq<ProductRequest>)
    ensures var reqs := BatchRequests(asins, domain, stats);
      && result == Sequenced(reqs, fetch)
      && issued == reqs[..Min(FirstFailure(reqs, fetch) + 1, |reqs|)]
  {
    ghost var reqs := BatchRequests(asins, domain, stats);
    var results: seq<T> := [];
    issued := [];
    var i := 0;
    var j := 0;
    BatchExists(asins, 0);
    while i < |asins|
      invariant j <= |reqs| && i == BatchSize * j
      invariant j < |reqs| <==> i < |asins|
      invariant forall t :: 0 <= t < j ==> fetch(reqs[t]).Success?
      invariant issued == reqs[..j]
      invariant results == Fetched(reqs[..j], fetch)
      decreases |asins| - i
    {
      var request, products := FetchBatch(asins, domain, stats, fetch, i, j);
      PrefixStep(reqs, j);
      issued := issued + [request];
      if products.Failure? {
        result := Failure(products.error);
        FailureAt(reqs, j, fetch);
        return;
      }
      FetchedExtend(reqs, j, fetch);
      results := results + products.value;
      i := i + BatchSize;
      j := j + 1;
    }
    assert reqs[..j] == reqs;
    NoFailure(reqs, fetch);
    result := Success(results);
  }

  /** One turn of the batch loop: the slice `asins.slice(i, i + 100)` is sent
      through getProduct as request j. */
  method FetchBatch<T>(asins: seq<string>, domain: int, stats: Option<int>,
                       fetch: ProductRequest -> Result<seq<T>, KeepaError>, i: nat, ghost j: nat)
    returns (request: ProductRequest, products: Result<seq<T>, KeepaError>)
    requires j < |Batches(asins)| && i == BatchSize * j
    ensures request == BatchRequests(asins, domain, stats)[j]
    ensures products == fetch(request)
    ensures j + 1 < |Batches(asins)| <==> i + BatchSize < |asins|
  {
    BatchRequestAt(asins, domain, stats, j);
    BatchExists(asins, j + 1);
    var query := BatchQuery(asins[i..Min(i + BatchSize, |asins|)], domain, stats);
    request := NormaliseQuery(query).value;
    products := GetProduct(query, fetch);
  }
}
