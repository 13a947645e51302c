# What-if investment calculator, modelled in Dafny

The application shows what a consumer product's retail price would be worth
today had it been invested in the maker's stock on the product's release
date. Two files hold its logic, and this project models both:

- `lib/stockService.ts`: the stock-data service. It has a built-in table of
  five tickers and `generateDetailedHistory`, which turns a sparse price
  history into a monthly one by linear interpolation, with prices rounded
  to cents. It also has `getStockData`, which serves a ticker's record from
  a five-minute cache, from the network, from the table with a densified
  history, or as a default record, in that order. `getAvailableSymbols`
  and `clearStockCache` complete it.
- `app/page.tsx`: the dashboard page. It has its own five-ticker table and
  a list of 23 products. `filteredProducts` filters that list by a
  case-insensitive search. `calculateInvestment` looks up the historical
  price, computes shares, current value, gain and gain percentage, and
  builds a value-over-time chart sorted by date. `resetCalculation` clears
  the page state.

Modules:

- `Calendar` holds `YYYY-MM` months and `YYYY-MM-DD` dates. Dates are
  ordered as `getTime()` orders them, read as UTC midnight.
- `Quotes` holds the price sample and the two roundings to cents. The
  densifier's `Math.round(x * 100) / 100` sends ties up. The chart's
  `parseFloat(x.toFixed(2))` rounds the magnitude and puts the sign back
  (section 20.1.3.3 of ECMA-262, 10th edition), so its ties go away from
  zero. On exact values the two differ only on negative ties.
- `Sorting` holds `Array.prototype.sort` with a numeric-key comparator. It
  is a stable insertion sort, because section 22.1.3.27 of ECMA-262 (10th
  edition) requires the sort to be stable.
- `Text` holds ASCII `toLowerCase` and `includes`.
- `StockService` is the service. The module's `stockCache` map is a field
  of the class `StockService.StockService`. `generateDetailedHistory` is a
  method with the source's nested loops, proved equal to the recursive
  specification `DetailedHistory`. `getStockData` is proved equal to the
  pure function `Serve`.
- `InvestmentPage` is the page. Its three `useState` hooks are fields of the
  class `InvestmentDashboard`. `calculateInvestment` is a method proved to
  store the result of the pure function `Calculate`. The page's chart loop
  is the method `BuildChart`, proved equal to the function `Chart`.

The model follows the code where the code and its own comments part ways.
The comment above the price lookup (app/page.tsx:287) speaks of the closest
historical price, that is, the latest sample on or before the release
date. The code's `find` returns the first sample, in list order, whose
month starts on or before the release date. Every table history starts
with its earliest month, so every product is priced at its ticker's first
sample (`TableHistoricalPriceIsFirst`). For the iPhone 15 Pro that is the
January 2020 price of 77.38, although the January 2023 price of 144.29 is
the latest one before its release (`FirstQualifyingNotLatestExample`).

The page has no check for a zero or missing price. An empty history throws
on `priceHistory[0].price`. A zero price gives an Infinity or NaN share count, and a zero retail price gives a
NaN percentage. `Calculate` reports these three cases as `CalcError`
values. A zero price found by `find` is falsy, so the `||` falls back to
the first price, and `HistoricalPrice` models that fallback.

## Model

| member | source | states |
|---|---|---|
| Calendar.MonthsBetween | lib/stockService.ts:105-108 | the year difference times 12 plus the month difference is the number of months between the two periods, and it is 0 exactly when they are the same month |
| Calendar.FirstOfMonth | app/page.tsx:309 | defined as the first day of the sample's month, the date `new Date(ym + "-01")` denotes |
| Calendar.AddMonths | lib/stockService.ts:115-116 | on a UTC clock, `setMonth(getMonth() + j)` on the first of a month lands exactly `j` months later, with months past December carried into the year |
| Calendar.OrdinalIsLexicographic | app/page.tsx:289 | comparing dates by timestamp is the lexicographic order on (year, month, day), and equal timestamps mean equal dates |
| Calendar.FirstOfMonthMonotonic | app/page.tsx:309-310 | the first day of one month is on or before the first day of another exactly when its month is not later |
| Quotes.RoundCents | lib/stockService.ts:122 | the rounded price is a whole number of cents, within half a cent of the input, and ties go up |
| Quotes.ToFixedCents | app/page.tsx:303 | `toFixed(2)` gives a whole number of cents |
| Quotes.ToFixedCentsNearest | app/page.tsx:313 | `toFixed(2)` is within half a cent of its input, with ties away from zero |
| Quotes.RoundCentsKeepsCents | app/page.tsx:303 | both roundings leave a whole number of cents unchanged |
| Quotes.RoundingsDifferOnNegativeTies | app/page.tsx:313 | on exact values, `Math.round` and `toFixed` agree on every non-negative value, but -1.125 becomes -1.12 under `Math.round` and -1.13 under `toFixed` |
| Sorting.InsertBy | app/page.tsx:320 | inserting one element adds exactly that element to the multiset |
| Sorting.SortBy | app/page.tsx:320 | the sort returns a permutation of its input |
| Sorting.InsertKeepsSorted | app/page.tsx:320 | inserting into a sequence ordered by key keeps it ordered |
| Sorting.SortBySorted | app/page.tsx:320 | the sort's result is ordered by the comparator's key |
| Sorting.SortByStable | app/page.tsx:320 | elements with equal keys keep their input order, as a stable sort must |
| Sorting.SortKeepsLeastFirst | app/page.tsx:320 | an element whose key is not above any other stays in front of elements with an equal key |
| Sorting.SortedCons | app/page.tsx:320 | a least element followed by an ordered rest is ordered |
| Sorting.SortBySortedIsIdentity | app/page.tsx:320 | sorting an already ordered sequence changes nothing |
| Text.ToLower | app/page.tsx:276 | `toLowerCase` keeps the length and lower-cases each ASCII capital in place |
| Text.ToLowerIdempotent | app/page.tsx:276-278 | lower-casing twice is lower-casing once |
| Text.Includes | app/page.tsx:276-278 | defined as: the query occurs in the text at some position, so the empty query occurs in every text |
| StockService.Interpolated | lib/stockService.ts:114-123 | the `j`-th inserted point is dated `j` months after the earlier sample |
| StockService.InterpolatedPrice | lib/stockService.ts:111-118 | defined as the earlier price plus `j` steps of the price difference divided by the month gap, before rounding |
| StockService.Segment | lib/stockService.ts:101-125 | defined as what one pass of the outer loop pushes: the earlier sample, then one interpolated point per month strictly between the pair |
| StockService.DetailedHistory | lib/stockService.ts:128-131 | an empty history stays empty, a single sample is returned as it is, and otherwise the last sample is the last point |
| StockService.GenerateDetailedHistory | lib/stockService.ts:94-134 | the nested push loops produce exactly the densified history |
| StockService.InterpolatedRunAt | lib/stockService.ts:114-124 | the inner loop pushes `count` points, and its `k`-th point is interpolation step `k + 1` |
| StockService.SegmentLength | lib/stockService.ts:101-125 | one pass of the outer loop pushes the sample plus one point per month strictly between the pair |
| StockService.SegmentsLength | lib/stockService.ts:97-126 | the outer loop pushes one point per pair plus all inserted points |
| StockService.SegmentsPrefix | lib/stockService.ts:97-126 | what the outer loop has pushed after `k` samples is a prefix of the final output |
| StockService.DetailedHistoryLength | lib/stockService.ts:97-131 | the output has one point per sample plus one per month filled in |
| StockService.SegmentAtOffset | lib/stockService.ts:97-126 | the points for pair (i, i+1) start at the output offset of sample `i` |
| StockService.DetailedHistoryKeepsSample | lib/stockService.ts:101-102 | every input sample appears unchanged in the output, at its offset |
| StockService.OffsetStep | lib/stockService.ts:97-125 | consecutive samples sit one plus the number of filled months apart, so the samples keep their order |
| StockService.DetailedHistoryEnds | lib/stockService.ts:97-131 | the output starts with the first sample and ends with the last |
| StockService.DetailedHistoryInterpolates | lib/stockService.ts:110-124 | each point between two samples has the right month and the rounded linear price |
| StockService.InterpolatedPriceBetween | lib/stockService.ts:111-118 | before rounding, an interpolated price lies between the two sample prices |
| StockService.MonthlyStepsJoin | lib/stockService.ts:97-131 | two month-by-month runs that share a point join into one |
| StockService.SegmentMonthly | lib/stockService.ts:104-124 | one pair's points, followed by the later sample, advance one month at a time |
| StockService.SegmentsMonthly | lib/stockService.ts:97-131 | with increasing sample months, all pushed points advance one month at a time |
| StockService.DetailedHistoryMonthly | lib/stockService.ts:94-134 | with strictly increasing sample months, the output advances exactly one month per point |
| StockService.ThreeMonthGapExample | lib/stockService.ts:110-123 | samples three months apart get two points, a third and two thirds of the way |
| StockService.FallbackData | lib/stockService.ts:160-167 | the table record keeps its symbol, name and current price, gets the densified history and a new `lastUpdated` |
| StockService.DefaultStockData | lib/stockService.ts:176-182 | defined as the default record: the symbol, the symbol followed by " Inc.", a price of 100, one January 2024 sample at 100, and the current time |
| StockService.IsFresh | lib/stockService.ts:139-140 | defined as: the ticker has a cache entry stored less than five minutes before now |
| StockService.Serve | lib/stockService.ts:137-183 | only the requested ticker's entry can change, and when the cache changes it holds the returned record stamped with the store time |
| StockService.StockService.constructor | lib/stockService.ts:90 | the cache starts empty |
| StockService.StockService.GetStockData | lib/stockService.ts:137-183 | the record returned and the new cache are those of `Serve` |
| StockService.StockService.ClearStockCache | lib/stockService.ts:191-193 | the cache is emptied |
| StockService.GetAvailableSymbols | lib/stockService.ts:186-188 | the symbols are exactly the table's keys, each listed once |
| StockService.FreshEntryServedWithoutFetch | lib/stockService.ts:139-142 | a fresh entry is returned as it is, the cache is untouched, and the request outcome plays no part |
| StockService.EntryExpiresAtWindow | lib/stockService.ts:91 | an entry exactly five minutes old is no longer fresh |
| StockService.FetchedRecordStored | lib/stockService.ts:148-155 | on a miss, a successful response is returned and replaces the ticker's entry |
| StockService.TableFallbackCached | lib/stockService.ts:160-173 | on a miss with a failed request, a table ticker gets its table record with the densified history and the current `lastUpdated`, and that record is cached |
| StockService.UnknownSymbolNotCached | lib/stockService.ts:175-182 | any other ticker gets the default record, and the cache is left as it was |
| StockService.RepeatWithinWindowHits | lib/stockService.ts:139-173 | a stored record is served again by any call less than five minutes after the store |
| StockService.StaleAfterWindow | lib/stockService.ts:140-155 | five minutes after the store the next call misses; a successful request is returned, and the ticker's entry becomes that record with the new store time, all else unchanged |
| StockService.ClearedCacheMisses | lib/stockService.ts:191-193 | after clearing, every ticker misses |
| StockService.MockTableWellFormed | lib/stockService.ts:16-87 | every table key is its record's symbol, and every table history has strictly increasing months |
| InvestmentPage.StockTableWellFormed | app/page.tsx:24-85 | every page table history is non-empty, starts at its earliest month, and holds positive prices |
| InvestmentPage.ProductDatabaseWellFormed | app/page.tsx:87-264 | every product has a positive retail price |
| InvestmentPage.ProductMsrpPositive | app/page.tsx:87-264 | any product of the list has a positive retail price |
| InvestmentPage.FindOnOrBefore | app/page.tsx:289 | `find` returns the first sample, in list order, whose month starts on or before the date, and returns nothing when none does |
| InvestmentPage.OnOrBefore | app/page.tsx:289 | defined as the `find` test: the first day of the sample's month is on or before the release date |
| InvestmentPage.HistoricalPrice | app/page.tsx:288-290 | the price of that first qualifying sample, or the first sample's price when none qualifies or the found price is 0 |
| InvestmentPage.HistoricalPriceOfAscending | app/page.tsx:288-290 | on a history that starts at its earliest month, the lookup yields the first price for every date |
| InvestmentPage.TableHistoricalPriceIsFirst | app/page.tsx:283-290 | every calculation from the page's table buys at that ticker's first, positive price |
| InvestmentPage.FirstQualifyingNotLatestExample | app/page.tsx:287-290 | the iPhone 15 Pro is priced at 77.38, not at the later 144.29 sample that also precedes its release |
| InvestmentPage.HistoryPoints | app/page.tsx:308-317 | the `forEach` pushes at most one point per sample, each dated on or after the purchase date |
| InvestmentPage.OnOrAfter | app/page.tsx:309-310 | defined as the `forEach` test: the first day of the sample's month is on or after the purchase date |
| InvestmentPage.PointFor | app/page.tsx:311-315 | defined as the point pushed for a sample: the shares' value at its price under `toFixed(2)`, dated the first of its month |
| InvestmentPage.HistoryPointsMembers | app/page.tsx:308-317 | the pushed points are exactly the points of the samples dated on or after the purchase date |
| InvestmentPage.HistoryPointsNoLaterThan | app/page.tsx:309-315 | samples no later than a month give points no later than that month's first day |
| InvestmentPage.HistoryPointsSorted | app/page.tsx:308-317 | a history in month order yields pushed points in date order |
| InvestmentPage.QualifyingIndices | app/page.tsx:308-311 | the positions of the samples dated on or after the purchase date, each listed once, in increasing order |
| InvestmentPage.HistoryPointsInOrder | app/page.tsx:308-317 | the `k`-th pushed point is the point of the `k`-th qualifying sample, so the points come in history order |
| InvestmentPage.HistoryPointsCount | app/page.tsx:308-317 | the `forEach` pushes exactly as many points as there are samples dated on or after the purchase date |
| InvestmentPage.Calculate | app/page.tsx:282-336 | it succeeds exactly when the history is non-empty and both prices are non-zero; it records the company name, product name, release date, retail price, current price, looked-up price and sorted chart; an empty history is the one `NoPriceHistory` case |
| InvestmentPage.CalculateErrors | app/page.tsx:288-295 | a zero looked-up price is the `ZeroHistoricalPrice` error, and a zero retail price with a non-zero looked-up price is the `ZeroInvestment` error |
| InvestmentPage.CalculateYields | app/page.tsx:292-331 | a record holding the page's figures for a product is exactly the successful calculation |
| InvestmentPage.CalculationArithmetic | app/page.tsx:292-295 | the shares times the historical price equal the retail price, the value is shares times the current price, and gain and percentage are taken against the retail price |
| InvestmentPage.GainFollowsStockPrice | app/page.tsx:292-295 | with positive prices, the investment gains exactly when the stock has not fallen, and the gain percentage is the stock's own percentage change |
| InvestmentPage.SharesBuyBack | app/page.tsx:292 | the shares, priced at the historical price, are worth the amount invested |
| InvestmentPage.GainArithmetic | app/page.tsx:292-295 | shares bought for the retail price gain exactly the stock's relative price change |
| InvestmentPage.CalculationExample | app/page.tsx:292-295 | 999 invested at 150 with the stock now at 200 gives 6.66 shares worth 1332 and a gain of 333 |
| InvestmentPage.PurchasePointIsEarliest | app/page.tsx:300-317 | every pushed history point is dated on or after the purchase point |
| InvestmentPage.PurchasePoint | app/page.tsx:301-305 | defined as the first point pushed: the shares' value at the historical price under `toFixed(2)`, dated on the release date |
| InvestmentPage.ChartKey | app/page.tsx:320 | defined as the comparator's key, the point's date as a number ordered as `getTime()` orders it |
| InvestmentPage.Chart | app/page.tsx:298-320 | defined as the purchase point followed by the history points, stably sorted by date |
| InvestmentPage.PurchasePointValue | app/page.tsx:301-305 | the purchase point is worth the invested amount, rounded by `toFixed(2)` |
| InvestmentPage.ChartShapeOf | app/page.tsx:298-320 | the chart is ordered by date, is a permutation of the pushed points, and starts with the purchase point even when a sample falls on the release day |
| InvestmentPage.ChartOfPurchase | app/page.tsx:298-320 | a chart whose purchase cost the invested amount is ordered by date, has one point more than there are samples dated on or after the purchase, and starts with the amount rounded by `toFixed(2)` |
| InvestmentPage.ChartShape | app/page.tsx:298-320 | a calculation's chart is ordered by date, has one point plus one per sample dated on or after the release, and starts with the retail price rounded by `toFixed(2)` on the release date |
| InvestmentPage.ChartStartsAtMsrp | app/page.tsx:303 | when the retail price is a whole number of cents, `toFixed(2)` leaves it, and the chart starts at exactly that price |
| InvestmentPage.ChartOfSortedHistoryNeedsNoSort | app/page.tsx:319-320 | for a history in month order, the sort leaves the chart as it was pushed |
| InvestmentPage.BuildChart | app/page.tsx:297-320 | the push loop followed by the sort produces exactly the chart of the calculation |
| InvestmentPage.FilterProducts | app/page.tsx:274-279 | a product is kept exactly when the query occurs, ignoring case, in its name, category or company name; the kept products keep their list order, and each matching product is kept as many times as it occurs |
| InvestmentPage.Matches | app/page.tsx:275-278 | defined as the filter callback: the lower-cased query occurs in the lower-cased name, category or company name |
| InvestmentPage.FilteredProducts | app/page.tsx:271-280 | an empty query lists the first twelve products, and any other query lists the matching products in order |
| InvestmentPage.FilterIgnoresQueryCase | app/page.tsx:276-278 | filtering by a query and by its lower-cased form gives the same list |
| InvestmentPage.FilteredProductsIgnoreQueryCase | app/page.tsx:271-280 | the shown list does not depend on the case of the query |
| InvestmentPage.InvestmentDashboard.constructor | app/page.tsx:267-269 | the page starts with an empty query, no selection and no calculation |
| InvestmentPage.InvestmentDashboard.CalculateInvestment | app/page.tsx:282-336 | clicking a product selects it, keeps the query, and stores the successful result of `Calculate` for the product and its ticker's table entry |
| InvestmentPage.InvestmentDashboard.ResetCalculation | app/page.tsx:338-342 | the calculation and selection are cleared and the query emptied, so the first twelve products are listed again |

## Left out

- The network request, `response.json()` and `console.warn` are not modelled. `getStockData` receives the request's outcome as a parameter, with `None` for a thrown error or a non-ok response.
- `Date.now()` and `new Date().toISOString()` are parameters: the clock at the cache check, the clock when an entry is stored, and the `lastUpdated` text. The table's own `lastUpdated` is a placeholder string, because every path that serves a table record replaces it.
- `async` interleaving of concurrent `getStockData` calls is not modelled; each call runs as one step.
- `mockStockData[symbol]` on a key inherited from `Object.prototype` (such as `"constructor"`) is not modelled. The table is a map with exactly the five tickers.
- Floating point is not modelled: prices and figures are exact reals. `Math.round`, `toFixed(2)` and `parseFloat` are rounding on exact values.
- Quotes.RoundingsDifferOnNegativeTies: holds on exact values only. On doubles, `x * 100` is itself rounded while `toFixed` reads the exact stored value, so the two roundings also disagree on non-negative values stored just below a tie: `Math.round(0.015 * 100) / 100` is 0.02 while `(0.015).toFixed(2)` is "0.01", and likewise 2.675 and 1.345.
- InvestmentPage.Calculation: the source stores most figures as `toFixed` strings, which only the display reads: 4 decimals for the shares, and 2 for the prices, the value, the gain and the percentage. The original investment stays a number. The model keeps every figure as an unformatted number.
- InvestmentPage.Calculate: Infinity and NaN are not values of the model. The three inputs that produce them, or the TypeError on an empty history, yield `CalcError` values.
- InvestmentPage.InvestmentDashboard.CalculateInvestment: requires a positive retail price. Every product in the list has one (`ProductMsrpPositive`); a zero price would store a NaN percentage.
- Time zones are not modelled. Every `YYYY-MM-DD` and `YYYY-MM-01` date is read as UTC midnight, as the date-only form of `new Date` reads it, so the page's date comparisons are exact.
- Calendar.AddMonths: the densifier's month arithmetic is modelled on a UTC clock only. The source applies the local-time `getMonth` and `setMonth` to a UTC midnight and then labels the point with the UTC `toISOString().slice(0, 7)`. West of Greenwich that midnight is the last evening of the previous month in local time. Adding months to that day can overflow a shorter month, and a daylight-saving change can shift the hour. Either effect can give a point the label of the wrong month, so one month is repeated and another skipped (in America/New_York the points after "2020-01" read 2020-02, 2020-03, 2020-03, 2020-05, 2020-05). "Exactly `j` months later" holds only where the local zone is UTC.
- Dates are not checked against calendar rules. The ordinal gives every month 31 days, which keeps the order of real dates.
- Chart labels (`toLocaleDateString`), icons, JSX rendering and components/InvestmentChart.tsx are not part of this model, and neither is the search box's `onChange`, which only sets `searchQuery`.
- `toLowerCase` is modelled on ASCII letters only; Unicode case mapping is not.
- The upstream price provider behind app/api/stocks/[symbol]/route.ts is not part of this model.
