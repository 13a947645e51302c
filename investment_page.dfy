/**
  The investment calculator of app/page.tsx: a product's retail price is
  "invested" in its maker's stock at the price looked up for its release
  date, and the page shows the shares bought, their value today, the gain,
  and a value-over-time chart. The page reads its own table of five tickers
  (not the stock service) and a static product list, which it also filters
  by a search query.
 */
module InvestmentPage {
  import opened Wrappers
  import opened Calendar
  import opened Quotes
  import opened Sorting
  import opened Text

  /** The keys of the page's `stockData` table; a product's `company` is
      cast to one of them. */
  datatype Ticker = AAPL | NKE | MSFT | BBY | TSLA

  /** One entry of the page's `stockData` table. */
  datatype CompanyQuote = CompanyQuote(name: string, currentPrice: real, priceHistory: seq<StockPrice>)

  /** One entry of `productDatabase`; the icon is not modelled. */
  datatype Product = Product(
    id: nat,
    company: Ticker,
    name: string,
    msrp: real,
    releaseDate: Date,
    category: string)

  /** One chart point: the value of the holding on `originalDate`. The
      month-and-year label drawn on the axis is not modelled. */
  datatype ChartPoint = ChartPoint(investmentValue: real, originalDate: Date)

  /** The result the page stores with `setCalculations`, with the figures
      unformatted. */
  datatype Calculation = Calculation(
    company: string,
    productName: string,
    releaseDate: Date,
    originalInvestment: real,
    shares: real,
    historicalPrice: real,
    currentPrice: real,
    currentValue: real,
    gain: real,
    gainPercentage: real,
    chartData: seq<ChartPoint>)

  /** Why no finite result exists. The page does not stop on these: an empty
      history throws a TypeError on `priceHistory[0].price`, a zero price
      makes the share count Infinity or NaN, and a zero retail price makes
      the gain percentage NaN. */
  datatype CalcError = NoPriceHistory | ZeroHistoricalPrice | ZeroInvestment

  // ---------------------------------------------------------------------
  // Static data

  /** `stockData[ticker]`. */
  function StockTable(ticker: Ticker): CompanyQuote
  {
    match ticker
    case AAPL => CompanyQuote("Apple Inc.", 175.43, [
      StockPrice(YearMonth(2020, 1), 77.38), StockPrice(YearMonth(2021, 1), 132.05),
      StockPrice(YearMonth(2022, 1), 174.78), StockPrice(YearMonth(2023, 1), 144.29),
      StockPrice(YearMonth(2024, 1), 185.64), StockPrice(YearMonth(2024, 12), 175.43)])
    case NKE => CompanyQuote("Nike Inc.", 75.12, [
      StockPrice(YearMonth(2020, 1), 101.31), StockPrice(YearMonth(2021, 1), 141.47),
      StockPrice(YearMonth(2022, 1), 166.72), StockPrice(YearMonth(2023, 1), 117.66),
      StockPrice(YearMonth(2024, 1), 103.91), StockPrice(YearMonth(2024, 12), 75.12)])
    case MSFT => CompanyQuote("Microsoft Corp.", 415.26, [
      StockPrice(YearMonth(2020, 1), 160.62), StockPrice(YearMonth(2021, 1), 231.96),
      StockPrice(YearMonth(2022, 1), 309.42), StockPrice(YearMonth(2023, 1), 239.82),
      StockPrice(YearMonth(2024, 1), 384.3), StockPrice(YearMonth(2024, 12), 415.26)])
    case BBY => CompanyQuote("Best Buy Co.", 88.45, [
      StockPrice(YearMonth(2020, 1), 87.65), StockPrice(YearMonth(2021, 1), 109.58),
      StockPrice(YearMonth(2022, 1), 104.66), StockPrice(YearMonth(2023, 1), 81.59),
      StockPrice(YearMonth(2024, 1), 78.11), StockPrice(YearMonth(2024, 12), 88.45)])
    case TSLA => CompanyQuote("Tesla Inc.", 248.98, [
      StockPrice(YearMonth(2020, 1), 88.6), StockPrice(YearMonth(2021, 1), 793.61),
      StockPrice(YearMonth(2022, 1), 1056.78), StockPrice(YearMonth(2023, 1), 123.18),
      StockPrice(YearMonth(2024, 1), 238.45), StockPrice(YearMonth(2024, 12), 248.98)])
  }

  const ProductDatabase: seq<Product> := [
    Product(1, AAPL, "iPhone 15 Pro", 999.0, Date(2023, 9, 22), "Phone"),
    Product(2, AAPL, "iPhone 14 Pro", 999.0, Date(2022, 9, 16), "Phone"),
    Product(3, AAPL, "iPhone 13 Pro", 999.0, Date(2021, 9, 24), "Phone"),
    Product(4, AAPL, "iPhone 12 Pro", 999.0, Date(2020, 10, 23), "Phone"),
    Product(5, AAPL, "MacBook Pro 16\"", 2499.0, Date(2023, 11, 7), "Computer"),
    Product(6, AAPL, "MacBook Air M2", 1199.0, Date(2022, 7, 15), "Computer"),
    Product(7, AAPL, "iPad Pro 12.9\"", 1099.0, Date(2022, 10, 18), "Tablet"),
    Product(8, AAPL, "Apple Watch Series 9", 399.0, Date(2023, 9, 22), "Wearable"),
    Product(9, AAPL, "AirPods Pro 2nd Gen", 249.0, Date(2022, 9, 23), "Audio"),
    Product(10, NKE, "Air Jordan 1 Retro High", 170.0, Date(2020, 4, 1), "Shoes"),
    Product(11, NKE, "Air Force 1 '07", 90.0, Date(2020, 1, 1), "Shoes"),
    Product(12, NKE, "Air Max 270", 150.0, Date(2021, 3, 15), "Shoes"),
    Product(13, NKE, "Dunk Low", 100.0, Date(2021, 8, 12), "Shoes"),
    Product(14, MSFT, "Surface Laptop Studio", 1599.0, Date(2021, 10, 5), "Computer"),
    Product(15, MSFT, "Surface Pro 9", 999.0, Date(2022, 10, 25), "Computer"),
    Product(16, MSFT, "Xbox Series X", 499.0, Date(2020, 11, 10), "Gaming"),
    Product(17, MSFT, "Surface Headphones 2", 249.0, Date(2020, 5, 12), "Audio"),
    Product(18, BBY, "Samsung 65\" QLED 4K TV", 1499.0, Date(2023, 3, 1), "TV"),
    Product(19, BBY, "LG 55\" OLED C3", 1299.0, Date(2023, 4, 15), "TV"),
    Product(20, BBY, "Sony 75\" Bravia XR", 2199.0, Date(2022, 6, 1), "TV"),
    Product(21, TSLA, "Model 3", 35000.0, Date(2020, 1, 1), "Vehicle"),
    Product(22, TSLA, "Model Y", 52990.0, Date(2020, 3, 13), "Vehicle"),
    Product(23, TSLA, "Model S", 74990.0, Date(2021, 6, 10), "Vehicle")
  ]

  /** Every table history starts at its earliest month and holds positive
      prices only. */
  ghost predicate WellFormedQuote(q: CompanyQuote)
  {
    && q.priceHistory != []
    && (forall k :: 0 <= k < |q.priceHistory| ==> MonthIndex(q.priceHistory[0].date) <= MonthIndex(q.priceHistory[k].date))
    && (forall k :: 0 <= k < |q.priceHistory| ==> q.priceHistory[k].price > 0.0)
  }

  lemma StockTableWellFormed(ticker: Ticker)
    ensures WellFormedQuote(StockTable(ticker))
  {
  }

  /** Every product has a positive retail price. */
  lemma ProductDatabaseWellFormed()
    ensures forall i :: 0 <= i < |ProductDatabase| ==> ProductDatabase[i].msrp > 0.0
  {
  }

  // ---------------------------------------------------------------------
  // The historical price lookup

  /** `new Date(p.date + "-01").getTime() <= date.getTime()`. */
  predicate OnOrBefore(p: StockPrice, date: Date)
  {
    DateLe(FirstOfMonth(p.date), date)
  }

  /** `priceHistory.find(...)`: the index of the first sample, in list
      order, whose month starts on or before `date`. */
  function FindOnOrBefore(history: seq<StockPrice>, date: Date): (r: Option<nat>)
    ensures r.Some? ==> r.value < |history| && OnOrBefore(history[r.value], date)
    ensures r.Some? ==> forall k :: 0 <= k < r.value ==> !OnOrBefore(history[k], date)
    ensures r.None? ==> forall k :: 0 <= k < |history| ==> !OnOrBefore(history[k], date)
  {
    if history == [] then None
    else if OnOrBefore(history[0], date) then Some(0)
    else match FindOnOrBefore(history[1..], date)
      case Some(i) => Some(i + 1)
      case None => None
  }

  /** `find(...)?.price || priceHistory[0].price`: the price of the first
      sample dated on or before `date`, unless there is none or its price
      is 0 (falsy), in which case the first sample's price. */
  function HistoricalPrice(history: seq<StockPrice>, date: Date): (r: real)
    requires history != []
    ensures forall i :: 0 <= i < |history| && OnOrBefore(history[i], date)
                        && (forall k :: 0 <= k < i ==> !OnOrBefore(history[k], date))
                        ==> r == (if history[i].price != 0.0 then history[i].price else history[0].price)
    ensures (forall i :: 0 <= i < |history| ==> !OnOrBefore(history[i], date)) ==> r == history[0].price
  {
    match FindOnOrBefore(history, date)
    case Some(i) => if history[i].price != 0.0 then history[i].price else history[0].price
    case None => history[0].price
  }

  /** On a history that starts at its earliest month the lookup always
      yields the first price, whatever the date: if any sample qualifies,
      the first one does. */
  lemma HistoricalPriceOfAscending(history: seq<StockPrice>, date: Date)
    requires history != []
    requires forall k :: 0 <= k < |history| ==> MonthIndex(history[0].date) <= MonthIndex(history[k].date)
    ensures HistoricalPrice(history, date) == history[0].price
  {
    var found := FindOnOrBefore(history, date);
    if found.Some? {
      var i := found.value;
      FirstOfMonthMonotonic(history[0].date, history[i].date);
      assert OnOrBefore(history[0], date);
      assert i == 0;
    }
  }

  /** So every calculation from the page's table buys at the table's first
      (January 2020) price. */
  lemma TableHistoricalPriceIsFirst(ticker: Ticker, date: Date)
    ensures HistoricalPrice(StockTable(ticker).priceHistory, date) == StockTable(ticker).priceHistory[0].price
    ensures HistoricalPrice(StockTable(ticker).priceHistory, date) > 0.0
  {
    StockTableWellFormed(ticker);
    HistoricalPriceOfAscending(StockTable(ticker).priceHistory, date);
  }

  /** The iPhone 15 Pro, released 2023-09-22, is priced at the January 2020
      sample (77.38) although the January 2023 sample (144.29) is the
      latest one on or before its release. */
  lemma FirstQualifyingNotLatestExample()
    ensures var h := StockTable(AAPL).priceHistory;
            && HistoricalPrice(h, Date(2023, 9, 22)) == 77.38
            && OnOrBefore(h[3], Date(2023, 9, 22)) && h[3].price == 144.29
            && !OnOrBefore(h[4], Date(2023, 9, 22))
  {
    TableHistoricalPriceIsFirst(AAPL, Date(2023, 9, 22));
  }

  // ---------------------------------------------------------------------
  // The chart

  /** `pointDate >= purchaseDate`. */
  predicate OnOrAfter(p: StockPrice, date: Date)
  {
    DateLe(date, FirstOfMonth(p.date))
  }

  /** The chart point of one history sample. */
  function PointFor(p: StockPrice, shares: real): ChartPoint
  {
    ChartPoint(ToFixedCents(shares * p.price), FirstOfMonth(p.date))
  }

  /** The points the `forEach` pushes: one per sample dated on or after the
      release, in history order. */
  function HistoryPoints(history: seq<StockPrice>, date: Date, shares: real): (r: seq<ChartPoint>)
    ensures |r| <= |history|
    ensures forall k :: 0 <= k < |r| ==> DateLe(date, r[k].originalDate)
  {
    if history == [] then []
    else
      var last := history[|history| - 1];
      HistoryPoints(history[..|history| - 1], date, shares)
      + (if OnOrAfter(last, date) then [PointFor(last, shares)] else [])
  }

  /** The pushed points are exactly the points of the samples dated on or
      after the release. */
  lemma {:induction false} HistoryPointsMembers(history: seq<StockPrice>, date: Date, shares: real)
    ensures var r := HistoryPoints(history, date, shares);
            forall k :: 0 <= k < |r| ==>
              exists i :: 0 <= i < |history| && OnOrAfter(history[i], date) && r[k] == PointFor(history[i], shares)
    ensures var r := HistoryPoints(history, date, shares);
            forall i :: 0 <= i < |history| && OnOrAfter(history[i], date) ==> PointFor(history[i], shares) in r
  {
    if history != [] {
      var init := history[..|history| - 1];
      var last := history[|history| - 1];
      HistoryPointsMembers(init, date, shares);
      var r0 := HistoryPoints(init, date, shares);
      var r := HistoryPoints(history, date, shares);
      var tail := if OnOrAfter(last, date) then [PointFor(last, shares)] else [];
      assert r == r0 + tail;
      forall k | 0 <= k < |r|
        ensures exists i :: 0 <= i < |history| && OnOrAfter(history[i], date) && r[k] == PointFor(history[i], shares)
      {
        if k < |r0| {
          assert r[k] == r0[k];
          var i :| 0 <= i < |init| && OnOrAfter(init[i], date) && r0[k] == PointFor(init[i], shares);
          assert history[i] == init[i];
        } else {
          assert history[|history| - 1] == last;
        }
      }
      forall i | 0 <= i < |history| && OnOrAfter(history[i], date)
        ensures PointFor(history[i], shares) in r
      {
        if i < |init| {
          assert history[i] == init[i];
          assert PointFor(init[i], shares) in r0;
        }
      }
    }
  }

  /** Samples no later than month `m` give points no later than its start. */
  lemma {:induction false} HistoryPointsNoLaterThan(history: seq<StockPrice>, date: Date, shares: real, m: YearMonth)
    requires forall i :: 0 <= i < |history| ==> MonthIndex(history[i].date) <= MonthIndex(m)
    ensures forall p :: p in HistoryPoints(history, date, shares) ==> ChartKey(p) <= Ordinal(FirstOfMonth(m))
  {
    if history != [] {
      var init := history[..|history| - 1];
      var last := history[|history| - 1];
      assert forall i :: 0 <= i < |init| ==> init[i] == history[i];
      HistoryPointsNoLaterThan(init, date, shares, m);
      FirstOfMonthMonotonic(last.date, m);
      var r0 := HistoryPoints(init, date, shares);
      var r := HistoryPoints(history, date, shares);
      assert r == r0 + (if OnOrAfter(last, date) then [PointFor(last, shares)] else []);
    }
  }

  /** The indices of the samples dated on or after `date`, ascending: the
      samples the `forEach` pushes a point for. */
  function QualifyingIndices(history: seq<StockPrice>, date: Date): (r: seq<nat>)
    ensures forall k :: 0 <= k < |r| ==> r[k] < |history| && OnOrAfter(history[r[k]], date)
    ensures forall i :: 0 <= i < |history| && OnOrAfter(history[i], date) ==> i in r
    ensures forall k, l :: 0 <= k < l < |r| ==> r[k] < r[l]
  {
    if history == [] then []
    else
      var init := history[..|history| - 1];
      assert forall i :: 0 <= i < |init| ==> init[i] == history[i];
      QualifyingIndices(init, date)
      + (if OnOrAfter(history[|history| - 1], date) then [|history| - 1] else [])
  }

  /** The pushed points are, in order, one point per qualifying sample, each
      valued at that sample's price times the shares. */
  lemma {:induction false} HistoryPointsInOrder(history: seq<StockPrice>, date: Date, shares: real)
    ensures var r := HistoryPoints(history, date, shares);
            var idx := QualifyingIndices(history, date);
            && |r| == |idx|
            && forall k :: 0 <= k < |idx| ==> r[k] == PointFor(history[idx[k]], shares)
  {
    if history != [] {
      var init := history[..|history| - 1];
      var last := history[|history| - 1];
      HistoryPointsInOrder(init, date, shares);
      var r0, idx0 := HistoryPoints(init, date, shares), QualifyingIndices(init, date);
      var r, idx := HistoryPoints(history, date, shares), QualifyingIndices(history, date);
      assert r == r0 + (if OnOrAfter(last, date) then [PointFor(last, shares)] else []);
      assert idx == idx0 + (if OnOrAfter(last, date) then [|history| - 1] else []);
      forall k | 0 <= k < |idx| ensures r[k] == PointFor(history[idx[k]], shares) {
        if k < |idx0| {
          assert r[k] == r0[k] && idx[k] == idx0[k];
          assert init[idx0[k]] == history[idx0[k]];
        }
      }
    }
  }

  /** The `forEach` pushes exactly as many points as there are samples dated
      on or after the purchase date. */
  lemma {:induction false} HistoryPointsCount(history: seq<StockPrice>, date: Date, shares: real)
    ensures |HistoryPoints(history, date, shares)| == |set i | 0 <= i < |history| && OnOrAfter(history[i], date)|
  {
    var all := set i | 0 <= i < |history| && OnOrAfter(history[i], date);
    if history == [] {
      assert all == {};
    } else {
      var init := history[..|history| - 1];
      HistoryPointsCount(init, date, shares);
      var before := set i | 0 <= i < |init| && OnOrAfter(init[i], date);
      assert forall i :: 0 <= i < |init| ==> init[i] == history[i];
      if OnOrAfter(history[|history| - 1], date) {
        assert all == before + {|history| - 1};
      } else {
        assert all == before;
      }
    }
  }

  /** The sort key: `originalDate.getTime()`. */
  function ChartKey(p: ChartPoint): int
  {
    Ordinal(p.originalDate)
  }

  /** The purchase point: the holding is worth `shares * historicalPrice`,
      rounded with `toFixed(2)`, on the release date. */
  function PurchasePoint(date: Date, shares: real, historicalPrice: real): ChartPoint
  {
    ChartPoint(ToFixedCents(shares * historicalPrice), date)
  }

  /** The chart as stored: the purchase point and the history points,
      sorted by date with a stable sort. */
  function Chart(history: seq<StockPrice>, date: Date, shares: real, historicalPrice: real): seq<ChartPoint>
  {
    SortBy([PurchasePoint(date, shares, historicalPrice)] + HistoryPoints(history, date, shares), ChartKey)
  }

  // ---------------------------------------------------------------------
  // The calculation

  /** `calculateInvestment` for one product against one table entry. */
  function Calculate(product: Product, company: CompanyQuote): (r: Result<Calculation, CalcError>)
    ensures r.Success? <==>
              company.priceHistory != []
              && HistoricalPrice(company.priceHistory, product.releaseDate) != 0.0
              && product.msrp != 0.0
    ensures r == Failure(NoPriceHistory) <==> company.priceHistory == []
    ensures r.Success? ==>
              && r.value.company == company.name
              && r.value.productName == product.name
              && r.value.releaseDate == product.releaseDate
              && r.value.originalInvestment == product.msrp
              && r.value.currentPrice == company.currentPrice
              && r.value.historicalPrice == HistoricalPrice(company.priceHistory, product.releaseDate)
              && r.value.chartData == Chart(company.priceHistory, product.releaseDate, r.value.shares, r.value.historicalPrice)
  {
    if company.priceHistory == [] then Failure(NoPriceHistory)
    else
      var historicalPrice := HistoricalPrice(company.priceHistory, product.releaseDate);
      if historicalPrice == 0.0 then Failure(ZeroHistoricalPrice)
      else if product.msrp == 0.0 then Failure(ZeroInvestment)
      else
        var price := product.msrp;
        var shares := price / historicalPrice;
        var currentValue := shares * company.currentPrice;
        Success(Calculation(
          company.name, product.name, product.releaseDate, price, shares, historicalPrice,
          company.currentPrice, currentValue, currentValue - price,
          ((currentValue - price) / price) * 100.0,
          Chart(company.priceHistory, product.releaseDate, shares, historicalPrice)))
  }

  /** A calculation whose every figure is computed as the page computes it
      is the successful result of `Calculate`. */
  lemma CalculateYields(product: Product, company: CompanyQuote, result: Calculation)
    requires company.priceHistory != []
    requires HistoricalPrice(company.priceHistory, product.releaseDate) != 0.0 && product.msrp != 0.0
    requires result.company == company.name && result.productName == product.name
    requires result.releaseDate == product.releaseDate && result.originalInvestment == product.msrp
    requires result.historicalPrice == HistoricalPrice(company.priceHistory, product.releaseDate)
    requires result.shares == product.msrp / result.historicalPrice
    requires result.currentPrice == company.currentPrice
    requires result.currentValue == result.shares * company.currentPrice
    requires result.gain == result.currentValue - product.msrp
    requires result.gainPercentage == ((result.currentValue - product.msrp) / product.msrp) * 100.0
    requires result.chartData == Chart(company.priceHistory, product.releaseDate, result.shares, result.historicalPrice)
    ensures Calculate(product, company) == Success(result)
  {
    var expected := Calculate(product, company);
    assert expected.Success?;
    assert expected.value.shares == result.shares;
    assert expected.value.currentValue == result.currentValue;
    assert expected.value.gain == result.gain && expected.value.gainPercentage == result.gainPercentage;
  }

  /** Which error a failed calculation reports: an empty history first, then
      a zero historical price, then a zero retail price. */
  lemma CalculateErrors(product: Product, company: CompanyQuote)
    ensures Calculate(product, company) == Failure(ZeroHistoricalPrice) <==>
              company.priceHistory != [] && HistoricalPrice(company.priceHistory, product.releaseDate) == 0.0
    ensures Calculate(product, company) == Failure(ZeroInvestment) <==>
              && company.priceHistory != []
              && HistoricalPrice(company.priceHistory, product.releaseDate) != 0.0
              && product.msrp == 0.0
  {
  }

  /** The figures of a calculation: the retail price buys `shares` at the
      historical price, they are worth `shares` times the current price, and
      the gain and its percentage are taken against the retail price. */
  lemma CalculationArithmetic(product: Product, company: CompanyQuote)
    requires Calculate(product, company).Success?
    ensures var c := Calculate(product, company).value;
            && c.shares * c.historicalPrice == product.msrp
            && c.currentPrice == company.currentPrice
            && c.currentValue == c.shares * c.currentPrice
            && c.gain == c.currentValue - product.msrp
            && c.gainPercentage == c.gain / product.msrp * 100.0
  {
    var c := Calculate(product, company).value;
    var m, h := product.msrp, c.historicalPrice;
    assert c.shares == m / h;
    assert c.currentValue == c.shares * company.currentPrice;
    assert c.gain == c.currentValue - m;
    assert c.gainPercentage == c.gain / m * 100.0;
    SharesBuyBack(m, h);
  }

  /** Dividing by the price and multiplying back gives the amount. */
  lemma SharesBuyBack(m: real, h: real)
    requires h != 0.0
    ensures m / h * h == m
  {
  }

  /** With positive prices the investment gains exactly when the stock is
      now at or above the purchase price, and the gain percentage is the
      stock's own percentage change. */
  lemma GainFollowsStockPrice(product: Product, company: CompanyQuote)
    requires product.msrp > 0.0
    requires company.priceHistory != [] && HistoricalPrice(company.priceHistory, product.releaseDate) > 0.0
    ensures Calculate(product, company).Success?
    ensures var c := Calculate(product, company).value;
            && (c.gain >= 0.0 <==> c.currentPrice >= c.historicalPrice)
            && c.gainPercentage == (c.currentPrice - c.historicalPrice) / c.historicalPrice * 100.0
  {
    var c := Calculate(product, company).value;
    var m, h, p := product.msrp, c.historicalPrice, c.currentPrice;
    CalculationArithmetic(product, company);
    assert c.gain == c.shares * p - m && c.shares * h == m && h > 0.0;
    GainArithmetic(m, h, p, c.shares, c.gain, c.gainPercentage);
  }

  /** The arithmetic behind it: `shares` bought for `m` at `h` gain exactly
      the stock's relative change. */
  lemma GainArithmetic(m: real, h: real, p: real, shares: real, gain: real, percentage: real)
    requires m > 0.0 && h > 0.0 && shares * h == m
    requires gain == shares * p - m && percentage == gain / m * 100.0
    ensures gain >= 0.0 <==> p >= h
    ensures percentage == (p - h) / h * 100.0
  {
    assert shares > 0.0;
    assert shares * p - m == shares * (p - h);
    if p >= h {
      assert shares * (p - h) >= 0.0;
    } else {
      assert shares * (p - h) < 0.0;
    }
    assert (shares * (p - h)) / m == (p - h) / h;
  }

  /** The worked example: 999 invested at 150 with the stock now at 200
      buys 6.66 shares worth 1332, a gain of 333, or 33.33...%. */
  lemma CalculationExample()
    ensures var c := Calculate(Product(0, AAPL, "Example", 999.0, Date(2021, 1, 1), "Phone"),
                               CompanyQuote("X Corp.", 200.0, [StockPrice(YearMonth(2020, 1), 150.0)]));
            && c.Success?
            && c.value.shares == 6.66 && c.value.currentValue == 1332.0
            && c.value.gain == 333.0 && c.value.gainPercentage == 100.0 / 3.0
  {
    var h := [StockPrice(YearMonth(2020, 1), 150.0)];
    assert OnOrBefore(h[0], Date(2021, 1, 1));
    assert HistoricalPrice(h, Date(2021, 1, 1)) == 150.0;
  }

  /** Every history point is dated on or after the purchase point. */
  lemma PurchasePointIsEarliest(history: seq<StockPrice>, date: Date, shares: real, historicalPrice: real)
    ensures var s := [PurchasePoint(date, shares, historicalPrice)] + HistoryPoints(history, date, shares);
            forall i :: 0 <= i < |s| ==> ChartKey(s[0]) <= ChartKey(s[i])
  {
    var hp := HistoryPoints(history, date, shares);
    var s := [PurchasePoint(date, shares, historicalPrice)] + hp;
    forall i | 0 < i < |s| ensures ChartKey(s[0]) <= ChartKey(s[i]) {
      assert s[i] == hp[i - 1];
    }
  }

  /** The chart is ordered by date, holds exactly the pushed points, and
      starts with the purchase point: a history sample dated on the release
      day stays behind it. */
  lemma ChartShapeOf(history: seq<StockPrice>, date: Date, shares: real, historicalPrice: real)
    ensures var chart := Chart(history, date, shares, historicalPrice);
            var pushed := [PurchasePoint(date, shares, historicalPrice)] + HistoryPoints(history, date, shares);
            && SortedBy(chart, ChartKey)
            && multiset(chart) == multiset(pushed)
            && |chart| == |pushed|
            && chart[0] == PurchasePoint(date, shares, historicalPrice)
  {
    var pushed := [PurchasePoint(date, shares, historicalPrice)] + HistoryPoints(history, date, shares);
    SortBySorted(pushed, ChartKey);
    PurchasePointIsEarliest(history, date, shares, historicalPrice);
    SortKeepsLeastFirst(pushed, ChartKey);
  }

  /** In a calculation, the chart's first point is the retail price rounded
      to cents, on the release date. */
  lemma ChartShape(product: Product, company: CompanyQuote)
    requires Calculate(product, company).Success?
    ensures var c := Calculate(product, company).value;
            && SortedBy(c.chartData, ChartKey)
            && |c.chartData| == 1 + |set i | 0 <= i < |company.priceHistory|
                                             && OnOrAfter(company.priceHistory[i], product.releaseDate)|
            && c.chartData[0] == ChartPoint(ToFixedCents(product.msrp), product.releaseDate)
  {
    var c := Calculate(product, company).value;
    CalculationArithmetic(product, company);
    ChartOfPurchase(company.priceHistory, product.releaseDate, c.shares, c.historicalPrice, product.msrp);
  }

  /** A chart whose purchase buys `invested` worth of shares: ordered by
      date, one point per qualifying sample plus the purchase, and led by
      the invested amount rounded to cents. */
  lemma ChartOfPurchase(history: seq<StockPrice>, date: Date, shares: real, historicalPrice: real, invested: real)
    requires shares * historicalPrice == invested
    ensures var chart := Chart(history, date, shares, historicalPrice);
            && SortedBy(chart, ChartKey)
            && |chart| == 1 + |set i | 0 <= i < |history| && OnOrAfter(history[i], date)|
            && chart[0] == ChartPoint(ToFixedCents(invested), date)
  {
    ChartShapeOf(history, date, shares, historicalPrice);
    HistoryPointsCount(history, date, shares);
    PurchasePointValue(date, shares, historicalPrice, invested);
  }

  /** The purchase point is worth the amount invested, rounded to cents. */
  lemma PurchasePointValue(date: Date, shares: real, historicalPrice: real, invested: real)
    requires shares * historicalPrice == invested
    ensures PurchasePoint(date, shares, historicalPrice) == ChartPoint(ToFixedCents(invested), date)
  {
  }

  /** When the retail price is a whole number of cents, the chart starts at
      exactly the retail price. */
  lemma ChartStartsAtMsrp(product: Product, company: CompanyQuote)
    requires Calculate(product, company).Success?
    requires IsCents(product.msrp)
    ensures Calculate(product, company).value.chartData[0].investmentValue == product.msrp
  {
    ChartShape(product, company);
    RoundCentsKeepsCents(product.msrp);
  }

  lemma {:induction false} HistoryPointsSorted(history: seq<StockPrice>, date: Date, shares: real)
    requires forall i, j :: 0 <= i < j < |history| ==> MonthIndex(history[i].date) <= MonthIndex(history[j].date)
    ensures SortedBy(HistoryPoints(history, date, shares), ChartKey)
  {
    if history != [] {
      var init := history[..|history| - 1];
      var last := history[|history| - 1];
      assert forall i :: 0 <= i < |init| ==> init[i] == history[i];
      HistoryPointsSorted(init, date, shares);
      HistoryPointsNoLaterThan(init, date, shares, last.date);
      var r0 := HistoryPoints(init, date, shares);
      var r := HistoryPoints(history, date, shares);
      assert r == r0 + (if OnOrAfter(last, date) then [PointFor(last, shares)] else []);
      forall i, j | 0 <= i < j < |r| ensures ChartKey(r[i]) <= ChartKey(r[j]) {
        if j < |r0| {
          assert r[i] == r0[i] && r[j] == r0[j];
        } else {
          assert r[j] == PointFor(last, shares);
          FirstOfMonthMonotonic(last.date, last.date);
          assert r[i] == r0[i] && r0[i] in r0;
        }
      }
    }
  }

  /** The page's table histories are in date order, so the sort leaves the
      chart exactly as it was pushed. */
  lemma ChartOfSortedHistoryNeedsNoSort(history: seq<StockPrice>, date: Date, shares: real, historicalPrice: real)
    requires forall i, j :: 0 <= i < j < |history| ==> MonthIndex(history[i].date) <= MonthIndex(history[j].date)
    ensures Chart(history, date, shares, historicalPrice)
            == [PurchasePoint(date, shares, historicalPrice)] + HistoryPoints(history, date, shares)
  {
    var hp := HistoryPoints(history, date, shares);
    var s := [PurchasePoint(date, shares, historicalPrice)] + hp;
    HistoryPointsSorted(history, date, shares);
    PurchasePointIsEarliest(history, date, shares, historicalPrice);
    assert s[1..] == hp;
    SortedCons(s, ChartKey);
    SortBySortedIsIdentity(s, ChartKey);
  }

  // ---------------------------------------------------------------------
  // The product filter

  /** `b` contains the elements of `a` in the same order, possibly with
      others in between. */
  ghost predicate IsSubsequence<T>(a: seq<T>, b: seq<T>)
    decreases |b|
  {
    if b == [] then a == []
    else (a != [] && a[0] == b[0] && IsSubsequence(a[1..], b[1..])) || IsSubsequence(a, b[1..])
  }

  /** The query occurs, case-insensitively, in the product's name, its
      category or its company's name. */
  predicate Matches(product: Product, query: string)
  {
    var q := ToLower(query);
    || Includes(ToLower(product.name), q)
    || Includes(ToLower(product.category), q)
    || Includes(ToLower(StockTable(product.company).name), q)
  }

  /** `products.filter(...)`. */
  function FilterProducts(products: seq<Product>, query: string): (r: seq<Product>)
    ensures forall p :: p in r <==> p in products && Matches(p, query)
    ensures forall p :: multiset(r)[p] == if Matches(p, query) then multiset(products)[p] else 0
    ensures IsSubsequence(r, products)
  {
    if products == [] then []
    else
      var rest := FilterProducts(products[1..], query);
      assert products == [products[0]] + products[1..];
      if Matches(products[0], query) then
        assert ([products[0]] + rest)[1..] == rest;
        assert multiset([products[0]] + rest) == multiset{products[0]} + multiset(rest);
        [products[0]] + rest
      else rest
  }

  /** `filteredProducts`: the first twelve products when the query is empty,
      otherwise the products that match it, in list order. */
  function FilteredProducts(searchQuery: string): (r: seq<Product>)
    ensures searchQuery == "" ==> r == ProductDatabase[..12]
    ensures searchQuery != "" ==> IsSubsequence(r, ProductDatabase)
    ensures searchQuery != "" ==> forall p :: p in r <==> p in ProductDatabase && Matches(p, searchQuery)
  {
    if searchQuery == "" then ProductDatabase[..12]
    else
      FilterProducts(ProductDatabase, searchQuery)
  }

  lemma {:induction false} FilterIgnoresQueryCase(products: seq<Product>, query: string)
    ensures FilterProducts(products, query) == FilterProducts(products, ToLower(query))
  {
    if products != [] {
      ToLowerIdempotent(query);
      FilterIgnoresQueryCase(products[1..], query);
    }
  }

  /** The search does not depend on the case of the query. */
  lemma FilteredProductsIgnoreQueryCase(searchQuery: string)
    ensures FilteredProducts(searchQuery) == FilteredProducts(ToLower(searchQuery))
  {
    if searchQuery != "" {
      FilterIgnoresQueryCase(ProductDatabase, searchQuery);
    }
  }

  /** Every product on the page has a positive retail price. */
  lemma ProductMsrpPositive(product: Product)
    requires product in ProductDatabase
    ensures product.msrp > 0.0
  {
    ProductDatabaseWellFormed();
    var k :| 0 <= k < |ProductDatabase| && ProductDatabase[k] == product;
  }

  /** The chart block of `calculateInvestment`: push the purchase point,
      push one point per sample dated on or after the release, then sort by
      date. */
  method BuildChart(history: seq<StockPrice>, date: Date, shares: real, historicalPrice: real)
    returns (enhancedChartData: seq<ChartPoint>)
    ensures enhancedChartData == Chart(history, date, shares, historicalPrice)
  {
    enhancedChartData := [PurchasePoint(date, shares, historicalPrice)];
    var i := 0;
    while i < |history|
      invariant 0 <= i <= |history|
      invariant enhancedChartData
                == [PurchasePoint(date, shares, historicalPrice)] + HistoryPoints(history[..i], date, shares)
    {
      var point := history[i];
      var pointDate := FirstOfMonth(point.date);
      if DateLe(date, pointDate) {
        enhancedChartData := enhancedChartData + [PointFor(point, shares)];
      }
      assert history[..i + 1][..i] == history[..i] && history[..i + 1][i] == point;
      assert HistoryPoints(history[..i + 1], date, shares)
             == HistoryPoints(history[..i], date, shares)
                + (if OnOrAfter(point, date) then [PointFor(point, shares)] else []);
      i := i + 1;
    }
    assert history[..i] == history;
    enhancedChartData := SortBy(enhancedChartData, ChartKey);
  }

  // ---------------------------------------------------------------------
  // The page state

  /** The three `useState` hooks of the `InvestmentDashboard` component. */
  class InvestmentDashboard {
    var searchQuery: string
    var selectedProduct: Option<Product>
    var calculations: Option<Calculation>

    constructor ()
      ensures searchQuery == "" && selectedProduct == None && calculations == None
    {
      searchQuery := "";
      selectedProduct := None;
      calculations := None;
    }

    /** `calculateInvestment`, run when a product card is clicked. Cards are
        only drawn for entries of `productDatabase`. */
    method CalculateInvestment(product: Product)
      requires product.msrp > 0.0
      modifies this
      ensures searchQuery == old(searchQuery) && selectedProduct == Some(product)
      ensures calculations.Some?
      ensures Calculate(product, StockTable(product.company)) == Success(calculations.value)
    {
      var company := StockTable(product.company);
      var price := product.msrp;
      var date := product.releaseDate;
      TableHistoricalPriceIsFirst(product.company, date);
      var historicalPrice := HistoricalPrice(company.priceHistory, date);
      var shares := price / historicalPrice;
      var currentValue := shares * company.currentPrice;
      var gain := currentValue - price;
      var gainPercentage := ((currentValue - price) / price) * 100.0;

      var enhancedChartData := BuildChart(company.priceHistory, date, shares, historicalPrice);

      var result := Calculation(
        company.name, product.name, date, price, shares, historicalPrice,
        company.currentPrice, currentValue, gain, gainPercentage, enhancedChartData);
      CalculateYields(product, company, result);
      selectedProduct := Some(product);
      calculations := Some(result);
    }

    /** `resetCalculation`: back to the empty search and no selection, which
        lists the first twelve products again. */
    method ResetCalculation()
      modifies this
      ensures calculations == None && selectedProduct == None && searchQuery == ""
      ensures FilteredProducts(searchQuery) == ProductDatabase[..12]
    {
      calculations := None;
      selectedProduct := None;
      searchQuery := "";
    }
  }
}
