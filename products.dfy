/** The product record the analytics read (src/types.ts:8-91), reduced to the
    fields they use. The record carries an explicit `price` in cents: the
    aggregate analyses filter on `p.price > 0` although `KeepaProduct` does
    not declare that field. */
module Products {
  import opened Wrappers
  import opened KeepaTypes

  /** `KeepaStats`: `current` and `avg` are indexed by the data-type
      enumeration (SALES_RANK, RATING, ...). */
  datatype Stats = Stats(
    current: seq<int>,
    avg: seq<int>,
    buyBoxPrice: Option<int>,
    outOfStockPercentage30: Option<int>)

  datatype Product = Product(
    asin: string,
    title: Option<string>,
    brand: Option<string>,
    price: Option<int>,
    stats: Option<Stats>)

  /** `xs[i]`: undefined outside the array. */
  function At(xs: seq<int>, i: int): (v: Option<int>)
    ensures v.Some? <==> 0 <= i < |xs|
    ensures v.Some? ==> v.value == xs[i]
  {
    if 0 <= i < |xs| then Some(xs[i]) else None
  }

  /** `p.stats?.current[i]`. */
  function CurrentAt(p: Product, i: int): Option<int> {
    if p.stats.Some? then At(p.stats.value.current, i) else None
  }

  /** `p.price > 0`: an absent price compares false. */
  predicate Priced(p: Product) {
    p.price.Some? && p.price.value > 0
  }
}
