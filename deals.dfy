/** The deal scorers of discoverDeals (src/keepa-client.ts:286-336): the
    magnitude read from a deal's `delta`/`deltaPercent` field, the profit
    potential tier and the competition tier. */
module Deals {
  import opened Wrappers

  /** The shapes a `delta`/`deltaPercent` field arrives in: absent (or
      falsy), a number, an array of numbers, or an array of arrays. */
  datatype DealDelta =
    | Missing
    | Scalar(x: int)
    | Flat(xs: seq<int>)
    | Nested(xss: seq<seq<int>>)

  datatype Tier = Low | Medium | High

  function Abs(x: int): nat { if x < 0 then -x else x }

  /** extractDiscountPercent and extractPriceChange (the two have the same
      body): the absolute value of the first number, looking one level into
      a nested array. `Math.abs` of an empty inner array is 0. */
  function DeltaMagnitude(d: DealDelta): (m: nat) {
    match d
    case Missing => 0
    case Scalar(x) => Abs(x)
    case Flat(xs) => if |xs| > 0 then Abs(xs[0]) else 0
    case Nested(xss) =>
      if |xss| > 0 then (if |xss[0]| > 0 then Abs(xss[0][0]) else 0) else 0
  }

  /** All the numbers of a delta, in reading order. */
  function Samples(d: DealDelta): seq<int> {
    match d
    case Missing => []
    case Scalar(x) => [x]
    case Flat(xs) => xs
    case Nested(xss) => Flatten(xss)
  }

  function Flatten(xss: seq<seq<int>>): seq<int> {
    if xss == [] then [] else xss[0] + Flatten(xss[1..])
  }

  /** The magnitude is the size of the first sample, 0 when there is none;
      the one exception is a nested array whose first row is empty, which
      gives 0 even when later rows hold samples. */
  lemma MagnitudeIsFirstSample(d: DealDelta)
    requires !(d.Nested? && |d.xss| > 0 && d.xss[0] == [])
    ensures DeltaMagnitude(d) == (if |Samples(d)| > 0 then Abs(Samples(d)[0]) else 0)
  {
  }

  lemma EmptyHeadRowHidesSamples()
    ensures DeltaMagnitude(Nested([[], [7]])) == 0
    ensures Samples(Nested([[], [7]])) == [7]
  {
    assert Flatten([[7]]) == [7] + Flatten([]);
    assert Flatten([[], [7]]) == [] + Flatten([[7]]);
  }

  /** The magnitude ignores sign: negating every sample leaves it unchanged. */
  function Negated(d: DealDelta): DealDelta {
    match d
    case Missing => Missing
    case Scalar(x) => Scalar(-x)
    case Flat(xs) => Flat(seq(|xs|, i requires 0 <= i < |xs| => -xs[i]))
    case Nested(xss) => Nested(seq(|xss|, i requires 0 <= i < |xss| =>
                          seq(|xss[i]|, j requires 0 <= j < |xss[i]| => -xss[i][j])))
  }

  lemma MagnitudeIgnoresSign(d: DealDelta)
    ensures DeltaMagnitude(Negated(d)) == DeltaMagnitude(d)
  {
  }

  /** The fields of a deal the scorers read; prices in cents. */
  datatype Deal = Deal(
    deltaPercent: DealDelta,
    delta: DealDelta,
    price: Option<int>,
    salesRank: Option<int>,
    isPrimeExclusive: bool)

  /** The points calculateProfitPotential adds up; an absent or zero price
      counts as 0 and an absent or zero rank as 999999. */
  function ProfitScore(deal: Deal): (score: int)
    ensures 0 <= score <= 100
  {
    var discount := DeltaMagnitude(deal.deltaPercent);
    var price := OrElse(deal.price, 0);
    var rank := OrElse(deal.salesRank, 999999);
    (if discount > 30 then 30 else 0)
    + (if discount > 50 then 20 else 0)
    + (if 2000 < price < 10000 then 20 else 0)
    + (if rank < 10000 then 20 else 0)
    + (if deal.isPrimeExclusive then 10 else 0)
  }

  /** calculateProfitPotential: above 60 points is HIGH, above 30 MEDIUM. */
  function ProfitPotential(deal: Deal): (t: Tier)
    ensures t == High <==> ProfitScore(deal) > 60
    ensures t == Low <==> ProfitScore(deal) <= 30
  {
    var score := ProfitScore(deal);
    if score > 60 then High else if score > 30 then Medium else Low
  }

  /** The sweet-spot price band and a good rank, as the scorer reads them. */
  predicate SweetSpotPrice(deal: Deal) {
    2000 < OrElse(deal.price, 0) < 10000
  }

  predicate GoodRank(deal: Deal) {
    OrElse(deal.salesRank, 999999) < 10000
  }

  /** A HIGH profit potential needs a discount above 30%: either above 50%
      together with a good price or rank, or above 30% with both. */
  lemma HighPotentialNeedsDiscount(deal: Deal)
    ensures ProfitPotential(deal) == High <==>
      var discount := DeltaMagnitude(deal.deltaPercent);
      || (discount > 50 && (SweetSpotPrice(deal) || GoodRank(deal)))
      || (discount > 30 && SweetSpotPrice(deal) && GoodRank(deal))
    ensures ProfitPotential(deal) == High ==> DeltaMagnitude(deal.deltaPercent) > 30
  {
  }

  function TierRank(t: Tier): int {
    match t
    case Low => 0
    case Medium => 1
    case High => 2
  }

  /** A deeper discount never lowers the profit potential. */
  lemma PotentialMonotoneInDiscount(deal: Deal, deeper: DealDelta)
    requires DeltaMagnitude(deal.deltaPercent) <= DeltaMagnitude(deeper)
    ensures TierRank(ProfitPotential(deal)) <= TierRank(ProfitPotential(deal.(deltaPercent := deeper)))
  {
  }

  /** assessDealCompetition: a rank below 1000 is HIGH, below 10000 MEDIUM;
      an absent or zero rank reads as 999999. */
  function DealCompetition(deal: Deal): (t: Tier)
    ensures t == High <==> Truthy(deal.salesRank) && deal.salesRank.value < 1000
    ensures t == Low <==> !GoodRank(deal)
  {
    var rank := OrElse(deal.salesRank, 999999);
    if rank < 1000 then High else if rank < 10000 then Medium else Low
  }

  /** A better (smaller) rank never lowers the competition tier. */
  lemma CompetitionMonotoneInRank(deal: Deal, better: int)
    requires better != 0 && deal.salesRank.Some? && deal.salesRank.value != 0
    requires better <= deal.salesRank.value
    ensures TierRank(DealCompetition(deal)) <= TierRank(DealCompetition(deal.(salesRank := Some(better))))
  {
  }
}
