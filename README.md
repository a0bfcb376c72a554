# Keepa client analytics, modelled in Dafny

This project models the deterministic core of the Keepa MCP server: the
request-shaping and analytics layer of its Keepa API client and the
deterministic helpers of its tool layer. The transport, the MCP server and
the markdown rendering are not modelled.

What is modelled, in the system's own terms:

- **Keepa time and price codec.** Keepa minutes convert to Unix milliseconds
  and back. The packed `[t0, v0, t1, v1, …]` history rows decode into points.
  `formatPrice` and `getDomainName` are keyed by domain. Prices are integer
  cents, and "two decimals" is `price / 100` and a zero-padded `price % 100`.
- **Request shaping.**
  - `getProduct` parameter normalisation: an identifier is required, the
    ASINs are joined with commas, and `stats` defaults to 1.
  - The `getProductsBatch` loop, in chunks of 100.
  - The `searchProducts` selection builder.
  - The deal-magnitude normalisers, over a tagged union
    (none | scalar | array | nested array).
- **Search orchestration with its best-sellers fallback.** The `/query`,
  `/bestsellers` and product-hydration calls are abstract outcomes. The
  method records the calls it makes as a trace, so the fallback can be seen
  to run only when the query step throws.
- **Per-product sales-velocity metrics** of `analyzeSalesVelocity`, and the
  deal scorers.
- **Aggregates.**
  - The category aggregates: price statistics, price bands, brands,
    competition, performance, market insights, the opportunity score and the
    recommendations.
  - The inventory aggregates: the performance/risk/cash-flow roll-up, the
    average turnover, the recommendations and the portfolio-health verdict.
- **Error classification and pacing.**
  - `errorInterceptor` is a pure function from an error shape to a
    `KeepaError`.
  - `requestInterceptor` is a class with a `lastRequestTime` field and an
    explicit clock.
- **The verified Amazon category table** and its id↔name lookups, and the
  `KeepaDomain` / `KeepaDataType` index enums.
- **Helpers from the tool layer:**
  - the category and inventory recommendation rules;
  - the in-place velocity sort;
  - the not-found ASIN list;
  - the competition and margin classification;
  - the price-history statistics;
  - the display rank;
  - the fast/slow/stockout partition.

## Representation

**Units.** Amounts are integers.

| quantity | unit |
|---|---|
| prices | cents |
| ratings | tenths of a star (the API's own ×10 scale) |
| turnover rates | tenths |
| revenue | cents (`daily * buyBoxPrice`) |

The source divides revenue by 100 to report dollars.

**JavaScript truthiness.** An optional number is an `Option<int>`, and
`Some(0)` counts as falsy (`Wrappers.Truthy`, `Given`, `OrElse`). So
`x || d` and `if (x)` keep the source's meaning when a field is 0.

**Averages.** An average compared against a threshold is stated over reals
(`Numbers.MeanOr`). It is decided by cross-multiplication over integers
(`Numbers.Below`, `Numbers.Above`), and `MeanComparison` proves the two
agree.

**Rounding.**
- `Math.round` of a quotient is `Numbers.RoundDiv`: the exact rational
  quotient rounded half up, proved to be within one half of it. JavaScript
  rounds the floating-point product instead, which can fall just below an
  exact .5 tie: for 23 high-risk products out of 40, `(23 / 40) * 100` is
  57.49999… in floating point and rounds to 57, where the exact rule gives
  58. The contracts state the exact rule; the members affected are listed
  under "Left out".
- `Math.floor(1000000 / Math.sqrt(rank))` is specified over integers as the
  largest `d` with `d·d·rank ≤ 10¹²`. JavaScript's floating-point square
  root may differ from it at exact boundaries.

**Recommendation lists.** These are lists of datatype values (`Advice`,
`CategoryAdvice`, `StockAdvice`), each with a function giving its message
text. The category market insights and recommendations keep the source's
strings.

**Spread overrides.** Where the source spreads one object over another, the
fields that the later object overrides are modelled with the overriding
value. One example is `analyzeInventory`'s `recommendations`.

**Where the code and its description disagree, the model follows the code:**
- The low-token branch of `errorInterceptor` (fewer than 5 tokens left) only
  logs. It still produces the error, so the call fails. It does not succeed
  with a warning.
- The best-sellers fallback of `searchProducts` runs only when the query step
  throws. A query that returns an empty ASIN list answers `[]` without a
  fallback. A hydration failure inside the `try` also counts as a throw.
- Two slow-mover thresholds differ. The client's inventory recommendations
  use 40% of the portfolio. The tool layer's use 30%.
- The product record carries an explicit `price`. The product type does not
  declare one, but the category analysis filters on `price > 0`.

## Model

| member | source | states |
|---|---|---|
| Codec.KeepaTimeRoundTrip | src/keepa-client.ts:1079-1085 | converting a Keepa minute to Unix milliseconds and back gives the same minute, for every integer |
| Codec.UnixTimeBracket | src/keepa-client.ts:1079-1085 | a Unix time maps to the Keepa minute that starts at or before it and less than 60000 ms before it |
| Codec.Row | src/keepa-client.ts:1060-1065 | the requested history row exists exactly when the index is inside the csv array and that slot is set |
| Codec.Decoded | src/keepa-client.ts:1066-1074 | a row of length n decodes to n/2 points (floored); point k is the Unix time of element 2k paired with element 2k+1 |
| Codec.ParseCSVData | src/keepa-client.ts:1060-1077 | the index loop appends exactly the decoded pairs of the requested row, or nothing when the row is absent |
| Codec.DecodedDropsOddTail | src/keepa-client.ts:1066-1074 | an odd trailing element contributes no point |
| Codec.DecodePackRoundTrip | src/keepa-client.ts:1066-1074 | re-packing the decoded points gives back any even-length row |
| Codec.PackDecodeRoundTrip | src/keepa-client.ts:1066-1074 | decoding a packed series of minute-aligned points gives back the points |
| Codec.CurrencySymbol | src/keepa-client.ts:1090-1104 | every domain has a non-empty symbol, and an unknown domain uses '$' |
| Codec.FormatPrice | src/keepa-client.ts:1087-1108 | -1 renders as "N/A"; any other price renders as the domain's symbol followed by the two-decimal amount |
| Codec.AmountRoundTrip | src/keepa-client.ts:1087-1108 | reading the rendered amount back as sign, whole part and exactly two decimals gives the price in cents, negatives included |
| Codec.FormatPriceExamples | src/keepa-client.ts:1087-1108 | 4999 in the US renders as "$49.99", 2549 in the UK as "£25.49", 0 as "$0.00", and -1 as "N/A" in any domain |
| Codec.GetDomainName | src/keepa-client.ts:1110-1126 | a known domain gives its Amazon host, and anything else gives "amazon.com" |
| Codec.DomainHostRoundTrip | src/keepa-client.ts:1110-1126 | hosts are distinct per domain, so the host determines its domain |
| KeepaTypes.DomainCode | src/types.ts:358-370 | domains US..MX are numbered 1..11 |
| KeepaTypes.DomainOfCode | src/types.ts:358-370 | a code names a domain exactly when it is in 1..11, and then it names the domain with that number |
| KeepaTypes.DomainCodeRoundTrip | src/types.ts:358-370 | numbering a domain and looking the number up gives the same domain |
| KeepaTypes.GetCategoryName | src/types.ts:464-468 | answers a name exactly when a table entry has the id, and the answer is that entry's name |
| KeepaTypes.GetCategoryId | src/types.ts:471-473 | answers an id exactly when a table entry has the name, and the answer is that entry's id |
| KeepaTypes.GetAvailableCategories | src/types.ts:476-478 | returns the 40 table names in declaration order |
| KeepaTypes.EntriesDistinct | src/types.ts:419-461 | no two table entries share an id or a name |
| KeepaTypes.IdsInRange | src/types.ts:419-461 | every table id is a positive integer below 99999999999 |
| KeepaTypes.LookupsAgree | src/types.ts:464-473 | each entry's id looks up its name and its name looks up its id |
| KeepaTypes.NameIdRoundTrip | src/types.ts:464-473 | a name found by id looks up that id, and an id found by name looks up that name |
| KeepaTypes.UnknownIdsHaveNoName | src/types.ts:464-468 | an id held by no entry has no name |
| KeepaTypes.ElectronicsLookup | src/types.ts:419-473 | Electronics and 172282 look each other up |
| KeepaTypes.UnknownLookup | src/types.ts:464-468 | 0, -1 and 999999999 have no name |
| Requests.NormaliseQuery | src/keepa-client.ts:116-135 | fails with the missing-identifier error exactly when asin, asins and code are all absent; otherwise keeps domain and code, and defaults stats to 1 |
| Requests.JoinedAsinsRecoverable | src/keepa-client.ts:123-126 | the comma-joined asin parameter splits back into the requested ASINs |
| Requests.GetProduct | src/keepa-client.ts:116-135 | a missing identifier fails before any request; otherwise the answer is the fetch of the normalised request |
| Requests.Batches | src/keepa-client.ts:146-164 | every chunk holds between 1 and 100 ASINs |
| Requests.BatchCount | src/keepa-client.ts:146-164 | n ASINs make ⌈n/100⌉ chunks |
| Requests.BatchAt | src/keepa-client.ts:153-154 | chunk j is the slice starting at 100·j of at most 100 ASINs |
| Requests.BatchesCover | src/keepa-client.ts:146-164 | the chunks, concatenated in order, are the ASIN list |
| Requests.BatchRequests | src/keepa-client.ts:151-159 | one request per chunk, each carrying its chunk, the domain and stats defaulting to 1 |
| Requests.FirstFailure | src/keepa-client.ts:146-164 | the first chunk whose fetch fails; every earlier chunk succeeds |
| Requests.FailureAt | src/keepa-client.ts:146-164 | the first failing chunk's error is the batch's error |
| Requests.NoFailure | src/keepa-client.ts:146-164 | with no failing chunk, the batch result is every chunk's products in chunk order |
| Requests.GetProductsBatch | src/keepa-client.ts:146-164 | the loop issues exactly the chunk requests in order, stops at the first failure, and otherwise returns the concatenated products |
| Selection.Tenfold | src/keepa-client.ts:855-861 | a truthy rating bound becomes floor(rating·10); a zero or absent bound adds nothing |
| Selection.BuildSelection | src/keepa-client.ts:821-900 | the result satisfies Selects: each metric's min and max merge into one gte/lte range; falsy bounds add nothing; hasReviews true overrides the review bound with gte 1; isPrime is set only for true; the category name comes from the table |
| Selection.MinThenMax | src/keepa-client.ts:839-881 | the successive field updates build the same range as the merged bounds |
| Selection.RatingFilter | src/keepa-client.ts:855-861 | the rating field updates build the range of the tenfold bounds |
| Selection.MaxThenMin | src/keepa-client.ts:894-900 | updating max before min still builds the merged range |
| Selection.BoundsMeaning | src/keepa-client.ts:839-900 | a value passes a built range exactly when it lies within each truthy bound |
| Search.MonthlySoldMeaning | src/keepa-client.ts:951 | fallback monthlySold is at least 100; above 100 it is floor(2000 - rank/100); ranks of 190000 and more give 100 |
| Search.FallbackAsins | src/keepa-client.ts:940-941 | the fallback hydrates the ASINs of the first perPage best sellers (default 25), in order; a negative perPage drops that many from the back, as Array.prototype.slice does |
| Search.SearchProducts | src/keepa-client.ts:818-964 | the query goes first with the selection BuildSelection denotes (Selects) and the default domain, page and capped perPage; the whole call trace is the query, its product batches up to the first failure, then (only after the query step throws with a category set) best sellers and the batches hydrating FallbackAsins; the items are the hydrated query products, or the products of Hydration(FallbackAsins) each paired with the best seller at its index, or [] |
| Search.QueryStep | src/keepa-client.ts:903-926 | throws exactly when the query throws or the hydration fails; its calls are the issued batch requests and its items the hydrated products in order (QueryCalls, QueryItems) |
| Search.BestSellersFallback | src/keepa-client.ts:928-960 | calls best sellers first, then the batches hydrating FallbackAsins up to the first failure (FallbackCalls); a throw, an empty list or a product beyond the list answers []; otherwise item i is product i of Hydration(FallbackAsins) paired with best seller i and its monthlySold (FallbackItems) |
| Deals.MagnitudeIsFirstSample | src/keepa-client.ts:286-310 | the magnitude is the absolute value of the first sample, or 0 when there is none |
| Deals.EmptyHeadRowHidesSamples | src/keepa-client.ts:289-294 | an empty first row of a nested delta yields 0 even when later rows hold samples |
| Deals.MagnitudeIgnoresSign | src/keepa-client.ts:286-310 | a price drop and the matching rise have the same magnitude |
| Deals.ProfitScore | src/keepa-client.ts:312-326 | the profit score lies in 0..100 |
| Deals.ProfitPotential | src/keepa-client.ts:312-326 | High exactly when the score exceeds 60, Low exactly when it is at most 30 |
| Deals.HighPotentialNeedsDiscount | src/keepa-client.ts:312-326 | high potential needs a discount above 30 together with a sweet-spot price or a good rank |
| Deals.PotentialMonotoneInDiscount | src/keepa-client.ts:312-326 | a deeper discount never lowers the potential |
| Deals.DealCompetition | src/keepa-client.ts:328-336 | High exactly when the rank is truthy and below 1000; Low exactly when the rank is not good |
| Deals.CompetitionMonotoneInRank | src/keepa-client.ts:328-336 | a better rank never lowers the competition tier |
| Velocity.DailySales | src/keepa-client.ts:1008-1009 | daily sales are 0 exactly when the rank is missing or not positive, and otherwise at least 1 |
| Velocity.DailySalesIsLargest | src/keepa-client.ts:1008-1009 | daily sales are the largest d with d·d·rank ≤ 10¹², or 1 for ranks beyond 10¹² |
| Velocity.DailySalesMonotone | src/keepa-client.ts:1008-1009 | a better rank never sells fewer per day |
| Velocity.StockoutRisk | src/keepa-client.ts:1037-1038 | High exactly when out of stock above 30%, Medium exactly for 15% < oos ≤ 30%, Low otherwise |
| Velocity.TurnoverTenths | src/keepa-client.ts:1016-1018 | ten times the rate max(1, 12 - oos/10) below 50% out of stock and 1 otherwise, which tenths hold exactly; at least 10, and at most 120 for a non-negative percentage |
| Velocity.RankTrend | src/keepa-client.ts:1029-1030 | Accelerating exactly when the average rank is worse than the current one, Declining exactly when it is better |
| Velocity.ChangePercent | src/keepa-client.ts:1031-1033 | 0 without a positive average rank; otherwise the rounded percentage change, undefined when there is no current rank |
| Velocity.Metrics | src/keepa-client.ts:999-1052 | a product has metrics exactly when it has stats; weekly is 7·daily, monthly is 30·daily, days of inventory is ⌈30/max(1, daily)⌉, revenue is daily·buyBox cents |
| Velocity.AnalyzeSalesVelocity | src/keepa-client.ts:999-1057 | never longer than the input, and a truthy minVelocity keeps no item selling less; the exact list is stated by VelocityIsMapOfFilter |
| Velocity.VelocityIsMapOfFilter | src/keepa-client.ts:999-1057 | the answer is exactly the metrics of the products that have stats and pass the minimum, once each, in input order |
| Velocity.ProductsWithStatsKept | src/keepa-client.ts:999-1057 | with no minimum, the answer is the metrics of exactly the products with stats, in order, for any mix of products with and without stats |
| Velocity.VelocityMembership | src/keepa-client.ts:999-1057 | an item is in the answer exactly when a product with stats that passes the minimum produced it |
| Velocity.EveryAnalysableProductKept | src/keepa-client.ts:999-1057 | the special case of a list in which every product has stats and there is no minimum: item i is the metrics of product i |
| Velocity.VelocitySource | src/keepa-client.ts:982-997 | the asins list (or the single asin) is fetched by batch; otherwise a truthy category is searched; otherwise nothing |
| CategoryAnalysis.TruthyStatsMembership | src/keepa-client.ts:505-506 | a value is collected exactly when it is non-zero and some product's current stats hold it at that index |
| CategoryAnalysis.AnalysableOfPriced | src/keepa-client.ts:413-443 | filtering by price first does not change the products the insights and score use |
| CategoryAnalysis.PerformCategoryAnalysis | src/keepa-client.ts:413-443 | totals count the priced products; the price statistics and the brand analysis are what CalculatePriceStatistics and AnalyzeBrands promise for the priced products (DescribesPrices, DescribesBrands: mean, ends, median, bands; distinct top brands by count); competition and performance are those of the priced products; with analysable products the insights and recommendations are MarketInsightsFor and CategoryRecommendationsFor of them and the score is the clamped points; otherwise the insufficient-data placeholders and 0 |
| CategoryAnalysis.CalculatePriceStatistics | src/keepa-client.ts:445-459 | fails with "No valid prices" exactly on an empty list; otherwise min and max are prices bounding all others, the average is the mean, the median is the middle element of the sorted prices, and each band counts the prices inside it (DescribesPrices) |
| CategoryAnalysis.BandOf | src/keepa-client.ts:461-479 | a price in [0, 999999) falls in exactly one of the four bands |
| CategoryAnalysis.CategorizePrice | src/keepa-client.ts:461-479 | the in-place band counters end as the number of prices in each band |
| CategoryAnalysis.BandsPartition | src/keepa-client.ts:461-479 | the four band counts add up to the prices in [0, 999999) |
| CategoryAnalysis.CountPermutation | src/keepa-client.ts:448-457 | sorting the prices in place does not change any band count |
| CategoryAnalysis.AnalyzeBrands | src/keepa-client.ts:481-502 | totalBrands is the number of distinct brands; the top list holds min(10, brands) distinct brands with their true counts, non-increasing, and no brand left out outsells one listed (DescribesBrands) |
| CategoryAnalysis.CountBrands | src/keepa-client.ts:481-486 | the brandCounts dictionary has a key for every brand (Unknown when missing) holding its product count, and the key order lists each brand once |
| CategoryAnalysis.TopBrands | src/keepa-client.ts:488-495 | sorting the dictionary entries by count and keeping ten gives min(10, keys) distinct brands with their counts, non-increasing, none outsold by a brand left out |
| CategoryAnalysis.AnalyzeCompetition | src/keepa-client.ts:504-513 | the level is High below an average rank of 10000, Medium below 50000; saturation is High above 40 products and Low at 20 or fewer |
| CategoryAnalysis.AnalyzePerformance | src/keepa-client.ts:515-525 | the quality level follows the average rating (≥ 4.2, ≥ 3.8, ≥ 3.0, else Poor); high-rated products are rated ≥ 4.0 and never outnumber the rated ones |
| CategoryAnalysis.GenerateMarketInsights | src/keepa-client.ts:527-563 | insufficient data alone with no analysable product; otherwise exactly MarketInsightsFor: the price line, then the competition line, then the quality line, each present exactly when its exact average crosses its threshold |
| CategoryAnalysis.OpportunityPoints | src/keepa-client.ts:565-588 | the additive score lies between 50 and 105 |
| CategoryAnalysis.CalculateOpportunityScore | src/keepa-client.ts:565-588 | the score lies in 0..100; it is 0 without an analysable product and otherwise the clamped points, at least 50 |
| CategoryAnalysis.OpportunityClampIsLive | src/keepa-client.ts:565-588 | a product scoring 105 points exists, so the clamp to 100 matters |
| CategoryAnalysis.GenerateRecommendations | src/keepa-client.ts:590-624 | need-more-data alone with no analysable product; otherwise exactly CategoryRecommendationsFor: the price line, then the competition line, then the quality line, each present exactly when its exact average crosses its threshold |
| Inventory.MoversFit | src/keepa-client.ts:799-816 | fast and slow movers never overlap, so their counts fit in the portfolio |
| Inventory.CalculateAverageTurnover | src/keepa-client.ts:712-716 | 0 for an empty portfolio; otherwise within one half of the mean turnover |
| Inventory.AverageTurnoverBounds | src/keepa-client.ts:712-716 | the average turnover stays within any bounds every item's turnover keeps |
| Inventory.AssessPortfolioHealth | src/keepa-client.ts:799-816 | Fair when empty; otherwise the verdict follows the fast and slow shares |
| Inventory.HealthVerdictsReflectMix | src/keepa-client.ts:799-816 | Poor means fewer than half are fast movers; Excellent means fast movers outnumber slow ones |
| Inventory.Performance | src/keepa-client.ts:678-697 | each reported average is within one half of the exact mean, and revenue is the total |
| Inventory.Risk | src/keepa-client.ts:682-703 | the high-risk count is exact, and each percentage is within one half of the exact share |
| Inventory.PerformInventoryAnalysis | src/keepa-client.ts:674-710 | an empty portfolio gives "No products to analyze"; otherwise the performance, risk and cash-flow groups of the items |
| Inventory.RiskPercentagesInRange | src/keepa-client.ts:698-703 | every percentage lies in 0..100 |
| Inventory.AverageDaysWithinMonth | src/keepa-client.ts:687-696 | the average days of inventory lies in 1..30 whenever every item's does |
| Inventory.AnalysedDaysWithinMonth | src/keepa-client.ts:1036 | every analysed product holds between 1 and 30 days of inventory |
| Inventory.GenerateInventoryRecommendations | src/keepa-client.ts:746-797 | exactly InventoryAdviceFor: the velocity line chosen by the monthly average, the stockout line above 20% high risk (the monitoring line when some but fewer are), the slow-mover line above 40%, the fast-mover line below 20%, the level line beyond 45 or under 15 days, then the three operational lines; an empty list gives the expand line alone |
| Inventory.AnalyzeInventory | src/keepa-client.ts:632-671 | the fast, slow and stockout lists are the order-keeping filters of the items and never share one; the counts, the turnover and the analysis are those of the items; the recommendations are InventoryAdviceFor the items, or "No products to analyze" for none |
| Tools.GenerateCategoryRecommendations | src/tools.ts:941-972 | exactly CategoryAdviceFor: tier, competition line, price line, research lines, "Monitor trends", in that order; 3 to 6 lines; the first is the tier for fractional scores above 70, above 40, or else; the competition line appears for Low or High, the price line by the 5000-cent split; the two research lines appear exactly for 'opportunities'; the last is "Monitor trends" |
| Tools.GenerateStockRecommendations | src/tools.ts:1331-1357 | exactly StockAdviceFor: at most one velocity line (above 25 or below 15 a month, none for no items), the stockout line exactly above 20% high risk, the slow-mover line exactly above 30%, then the three fixed lines |
| Tools.SortKeyOf | src/tools.ts:1214-1233 | each known sortBy selects its figure, and anything else sorts by daily sales |
| Tools.SortVelocityData | src/tools.ts:1210-1238 | the array ends as a permutation of its contents, non-increasing on the key for 'desc' and non-decreasing otherwise |
| Sorting.SortBy | src/tools.ts:1210-1238 | sorting in place yields a sorted permutation of the array |
| Tools.NotFound | src/tools.ts:217-219 | exactly the requested ASINs that match no returned product, each as often as it was requested |
| Tools.NotFoundInRequestOrder | src/tools.ts:217-219 | the not-found ASINs keep their request order |
| Tools.SellerCount | src/tools.ts:552 | the 90-day new-offer count, else the listed seller count, else 1; never 0 |
| Tools.FinderCompetition | src/tools.ts:554-557 | Low exactly for at most 3 sellers, High exactly for 10 or more |
| Tools.EstimatedMargin | src/tools.ts:593-595 | the margin lies in 15..40 and at most 30 for a non-negative seller count |
| Tools.MarginFallsWithSellers | src/tools.ts:593-595 | more sellers never raise the margin; 10 or more give 15 |
| Tools.PriceHistoryStats | src/tools.ts:438-457 | statistics exist exactly for a price series (type ≤ 2 or 18) holding a positive value, computed over the positive values |
| Tools.AverageBetweenExtremes | src/tools.ts:446-457 | minimum ≤ rounded average ≤ maximum, and the extremes bound every positive value |
| Tools.ShownMargin | src/tools.ts:592-596 | the margin line is shown exactly for a truthy price above 1000 cents, with the estimated margin in 15..40 |
| Tools.DisplayRank | src/tools.ts:544 | page p of size s shows ranks in (p·s, (p+1)·s] |
| Tools.RanksAreDistinct | src/tools.ts:544 | different slots on any pages get different ranks, for pages of at most pageSize entries |
| Tools.InventoryPartition | src/tools.ts:1186-1204 | each list is the first ten of the input's matching items in input order; so at most 10, all matching, and all of them when 10 or fewer match |
| Tools.PartitionDisjointAndOrdered | src/tools.ts:1186-1204 | fast and slow movers are disjoint, and each of the three lists sits at strictly increasing positions of the input |
| Transport.WaitTime | src/keepa-client.ts:48-60 | waits nothing once the delay has passed, and otherwise exactly until last + delay |
| Transport.PacedRequestsAreSpaced | src/keepa-client.ts:48-60 | a request resumed after the wait starts at least the delay after the previous one |
| Transport.RequestPacer.constructor | src/keepa-client.ts:24-31 | the delay defaults to 1000 ms and the last request time starts at 0 |
| Transport.RequestPacer.Pace | src/keepa-client.ts:48-60 | waits the computed time and records the post-wait clock, so consecutive requests are spaced by the delay |
| Transport.ErrorInterceptor | src/keepa-client.ts:66-100 | a response body gives its message with status and tokens, the exhaustion text when tokens are spent; a thrown error keeps its message; anything else is "Network error" |
| Transport.ExhaustionReportsCount | src/keepa-client.ts:71-78 | the exhaustion message carries the remaining-token count, which reads back from it |
| Transport.LowTokensStillFail | src/keepa-client.ts:82-89 | with fewer than 5 tokens left the error is still produced unchanged |
| Numbers.RoundDivNearest | src/keepa-client.ts:712-716 | the rounded quotient is within one half of the exact quotient |
| Numbers.MeanComparison | src/keepa-client.ts:527-588 | comparing a mean with a threshold agrees with comparing the total with threshold·count |
| Text.SplitJoin | src/keepa-client.ts:123-126 | joining separator-free strings and splitting gives them back |
| Text.IntRoundTrip | src/keepa-client.ts:1087-1108 | rendering an integer in decimal and reading it back gives the integer |

## Left out

- Floating point: percentages and averages rendered with `toFixed`/`parseFloat`, including exponent notation for huge values, and `brandConcentration`'s percentage strings. The model keeps the counts and exact means.
- Velocity.DailySales: JavaScript's floating-point square root may round differently from the exact integer specification at exact boundaries.
- Numbers.RoundDivNearest: half-up rounding of the exact quotient; JavaScript's `Math.round` of a floating-point product can round an exact .5 tie down (see "Rounding").
- Inventory.CalculateAverageTurnover: states the exact half-up rounding of the mean turnover; for out-of-stock shares of 3% and 4% the source's floating-point average gives 11.6 where the model gives 11.7.
- Inventory.Risk: states the exact half-up percentages; for 23 high-risk products of 40 the source reports 57 where the model reports 58.
- Inventory.Performance: states the exact half-up averages, so the velocity average can differ from the source's floating-point rounding at a .5 tie.
- Inventory.PerformInventoryAnalysis: inherits the exact rounding of Performance, Risk and CalculateAverageTurnover.
- Velocity.ChangePercent: states the exact half-up percentage; for an average rank of 40 and a current rank of 17 the source reports 57 where the model reports 58.
- Numbers.MeanComparison: averages are compared exactly, so floating-point ties at a threshold may differ from JavaScript.
- CategoryAnalysis.AnalyzePerformance: decides the quality level on the exact mean of the rating tenths; the source sums the ratings as doubles, so ratings 4.1 and 4.3 average 4.199999999999999 there ('Good') but exactly 4.2 in the model ('Excellent').
- CategoryAnalysis.GenerateMarketInsights: the two quality lines use the exact rating mean; ratings 4.1 and 4.3 give the high-quality line in the model only, and ratings 3.8, 4.6 and 2.1 (3.4999999999999996 in doubles) give the quality-gap line in the source only.
- CategoryAnalysis.OpportunityPoints: the 15 rating points use the exact rating mean; ratings 1.6, 5.0 and 4.8 (3.7999999999999994 in doubles) earn them in the source only.
- CategoryAnalysis.CalculateOpportunityScore: inherits the rating tie of OpportunityPoints (ratings 1.6, 5.0 and 4.8 score 15 points higher in the source).
- CategoryAnalysis.GenerateRecommendations: the quality-improvement line uses the exact rating mean; ratings 1.6, 5.0 and 4.8 push it in the source only.
- CategoryAnalysis.PerformCategoryAnalysis: inherits the rating ties of its performance, insight, recommendation and opportunity parts (the examples above).
- Emoji and markdown rendering, `toLocaleString`, and every `console.log`/`console.warn` side effect, including the unverified-category warning.
- The MCP server, tool dispatch, the environment read and the signal handler, because they are transport plumbing.
- The axios transport (`makeRequest`, interceptor registration, timeout). Network results are parameters: a fetch function or an outcome datatype.
- The real sleeping and `Date.now` in the rate limiter. The clock before and after the wait are explicit parameters of `Transport.RequestPacer.Pace`.
- Transport.ErrorInterceptor: an undefined or null error makes the source raise a TypeError before it classifies anything. The model has no such input; its "other" case stands for thrown numbers and similar values, which give "Network error". A JSON `null` tokensLeft passes the source's `!== undefined` test and `null <= 0`, so it takes the exhaustion branch; the model's body has a number or no tokensLeft, and does not capture that case.
- `Math.random` mock generators of the tool layer, its mock `averageTurnoverRate`, and the mock's daysOfInventory-based stockout rule. The out-of-stock rule of the client is the only stockout rule modelled.
- `analyzeSeasonalPatterns`: it returns fixed placeholder text, not analytics.
- The unused `targetTurnover` argument of `generateInventoryRecommendations` and the unused ratings variable of `performCategoryAnalysis`.
- `discoverDeals` beyond its two scorers: the request, the `Date.now` urgency and time remaining, and the dynamic-field sort.
- `profitVelocity` and the constant competition, seasonality and estimated-margin fields of the velocity item, because they are fixed placeholders.
- Inventory.AnalyzeInventory: the catch branch that reports a failed fetch is not modelled. The items are a parameter, so there is no fetch to fail.
- Tools.SortVelocityData: a missing `changePercent` (NaN in JavaScript) sorts as 0, and the stability of `Array.prototype.sort` is not stated.
- CategoryAnalysis.AnalyzeBrands: the order among brands with equal counts, and the key order of the JavaScript object, are not stated. Brand names that are `Object.prototype` members ("constructor", "__proto__") start from an inherited value in the source's plain-object dictionary, so their counts go wrong there; the model counts them like any other brand.
- KeepaTypes.GetCategoryId: the source indexes a plain object, so names inherited from `Object.prototype` ("toString", "constructor", "__proto__") return a function or an object rather than undefined. The model answers None for every name outside the table.
- Tools.DisplayRank: requires the item to lie within its page, which the best-seller listing (src/tools.ts:369) does not guarantee; see the next line.
- Tools.RanksAreDistinct: assumes a page holds at most pageSize entries. The best-seller listing (src/tools.ts:369) multiplies the page by 100, but getBestSellers returns the category's list unsliced, so an entry past the hundredth shares its rank with an entry of the next page; that listing is not covered.
- Request options other than those of the selection builder and `getProduct` (such as rating or offers flags), because the client forwards them unchanged.
- `getSellerCount`, `getProductByAsin` and `getTokensLeft`, because they are thin wrappers over the transport or are not defined in the modelled files.
- Zod validation schemas, because they belong to a foreign validation library.
