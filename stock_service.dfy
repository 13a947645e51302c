/**
  The stock-data service of lib/stockService.ts: a built-in table of five
  tickers, the history densifier that fills the months between sparse
  samples by linear interpolation, and `getStockData`, which serves a
  record from a five-minute cache, from the network, from the table, or
  as a default record, in that order of preference.

  The network request, `response.json()` and the clocks are outside the
  model: their outcomes arrive as parameters.
 */
module StockService {
  import opened Wrappers
  import opened Calendar
  import opened Quotes

  /** `{ symbol, name, currentPrice, priceHistory, lastUpdated }`.
      `lastUpdated` is an ISO timestamp string that the model only copies. */
  datatype StockData = StockData(
    symbol: string,
    name: string,
    currentPrice: real,
    priceHistory: seq<StockPrice>,
    lastUpdated: string)

  /** A cache slot: the record and the `Date.now()` reading it was stored at. */
  datatype CacheEntry = CacheEntry(data: StockData, timestamp: int)

  type Cache = map<string, CacheEntry>

  /** Freshness window in milliseconds: five minutes. */
  const CacheDuration: int := 5 * 60 * 1000

  /** Stands for the ISO time the table was built at; every path that
      serves a table record replaces it. */
  const TableBuiltAt: string := ""

  /** The fallback table, keyed by ticker. */
  const MockStockData: map<string, StockData> := map[
    "AAPL" := StockData("AAPL", "Apple Inc.", 175.43, [
      StockPrice(YearMonth(2020, 1), 77.38), StockPrice(YearMonth(2021, 1), 132.05),
      StockPrice(YearMonth(2022, 1), 174.78), StockPrice(YearMonth(2023, 1), 144.29),
      StockPrice(YearMonth(2024, 1), 185.64), StockPrice(YearMonth(2024, 12), 175.43)], TableBuiltAt),
    "NKE" := StockData("NKE", "Nike Inc.", 75.12, [
      StockPrice(YearMonth(2020, 1), 101.31), StockPrice(YearMonth(2021, 1), 141.47),
      StockPrice(YearMonth(2022, 1), 166.72), StockPrice(YearMonth(2023, 1), 117.66),
      StockPrice(YearMonth(2024, 1), 103.91), StockPrice(YearMonth(2024, 12), 75.12)], TableBuiltAt),
    "MSFT" := StockData("MSFT", "Microsoft Corp.", 415.26, [
      StockPrice(YearMonth(2020, 1), 160.62), StockPrice(YearMonth(2021, 1), 231.96),
      StockPrice(YearMonth(2022, 1), 309.42), StockPrice(YearMonth(2023, 1), 239.82),
      StockPrice(YearMonth(2024, 1), 384.3), StockPrice(YearMonth(2024, 12), 415.26)], TableBuiltAt),
    "BBY" := StockData("BBY", "Best Buy Co.", 88.45, [
      StockPrice(YearMonth(2020, 1), 87.65), StockPrice(YearMonth(2021, 1), 109.58),
      StockPrice(YearMonth(2022, 1), 104.66), StockPrice(YearMonth(2023, 1), 81.59),
      StockPrice(YearMonth(2024, 1), 78.11), StockPrice(YearMonth(2024, 12), 88.45)], TableBuiltAt),
    "TSLA" := StockData("TSLA", "Tesla Inc.", 248.98, [
      StockPrice(YearMonth(2020, 1), 88.6), StockPrice(YearMonth(2021, 1), 793.61),
      StockPrice(YearMonth(2022, 1), 1056.78), StockPrice(YearMonth(2023, 1), 123.18),
      StockPrice(YearMonth(2024, 1), 238.45), StockPrice(YearMonth(2024, 12), 248.98)], TableBuiltAt)
  ]

  // ---------------------------------------------------------------------
  // History densification: the specification

  /** Months strictly between two samples that the densifier fills in. */
  function InsertedCount(current: StockPrice, next: StockPrice): nat
  {
    var monthsDiff := MonthsBetween(current.date, next.date);
    if monthsDiff > 1 then monthsDiff - 1 else 0
  }

  /** The unrounded price `j` months after `current`:
      `current.price + priceStep * j` with `priceStep = (next - current) / monthsDiff`. */
  function InterpolatedPrice(current: StockPrice, next: StockPrice, monthsDiff: int, j: int): real
    requires monthsDiff > 0
  {
    current.price + ((next.price - current.price) / monthsDiff as real) * j as real
  }

  /** The `j`-th point inserted after `current`. */
  function Interpolated(current: StockPrice, next: StockPrice, monthsDiff: int, j: int): (p: StockPrice)
    requires monthsDiff > 0
    ensures MonthIndex(p.date) == MonthIndex(current.date) + j
  {
    StockPrice(AddMonths(current.date, j), RoundCents(InterpolatedPrice(current, next, monthsDiff, j)))
  }

  /** The first `count` points inserted after `current`, in order. */
  function InterpolatedRun(current: StockPrice, next: StockPrice, monthsDiff: int, count: nat): seq<StockPrice>
    requires monthsDiff > 0
  {
    if count == 0 then []
    else InterpolatedRun(current, next, monthsDiff, count - 1) + [Interpolated(current, next, monthsDiff, count)]
  }

  /** What one pass of the outer loop appends: the earlier sample and the
      points between it and the later one. */
  function Segment(current: StockPrice, next: StockPrice): seq<StockPrice>
  {
    var monthsDiff := MonthsBetween(current.date, next.date);
    [current] + (if monthsDiff > 1 then InterpolatedRun(current, next, monthsDiff, monthsDiff - 1) else [])
  }

  /** The segments of all adjacent pairs of `s`, in order. */
  function Segments(s: seq<StockPrice>): seq<StockPrice>
  {
    if |s| < 2 then []
    else Segments(s[..|s| - 1]) + Segment(s[|s| - 2], s[|s| - 1])
  }

  /** The densified history: every segment, then the last sample. */
  function DetailedHistory(base: seq<StockPrice>): (r: seq<StockPrice>)
    ensures base == [] ==> r == []
    ensures |base| == 1 ==> r == base
    ensures base != [] ==> |r| > 0 && r[|r| - 1] == base[|base| - 1]
  {
    if base == [] then [] else Segments(base) + [base[|base| - 1]]
  }

  /** The number of points inserted over all adjacent pairs of `s`. */
  function ExtraPoints(s: seq<StockPrice>): nat
  {
    if |s| < 2 then 0
    else ExtraPoints(s[..|s| - 1]) + InsertedCount(s[|s| - 2], s[|s| - 1])
  }

  /** Where input sample `i` lands in the densified history: after the `i`
      samples before it and the points inserted between them. */
  function Offset(base: seq<StockPrice>, i: nat): nat
    requires i < |base|
  {
    i + ExtraPoints(base[..i + 1])
  }

  // ---------------------------------------------------------------------
  // History densification: the loop

  /** `generateDetailedHistory`: for each adjacent pair, push the earlier
      sample and, when the pair is more than a month apart, one rounded
      interpolated point per month in between; then push the last sample. */
  method GenerateDetailedHistory(baseHistory: seq<StockPrice>) returns (detailedHistory: seq<StockPrice>)
    ensures detailedHistory == DetailedHistory(baseHistory)
  {
    detailedHistory := [];
    var i := 0;
    while i < |baseHistory| - 1
      invariant |baseHistory| == 0 ==> i == 0 && detailedHistory == []
      invariant |baseHistory| > 0 ==> i < |baseHistory| && detailedHistory == Segments(baseHistory[..i + 1])
    {
      var current := baseHistory[i];
      var next := baseHistory[i + 1];
      ghost var before := detailedHistory;
      detailedHistory := detailedHistory + [current];
      var monthsDiff := MonthsBetween(current.date, next.date);
      if monthsDiff > 1 {
        var j := 1;
        while j < monthsDiff
          invariant 1 <= j <= monthsDiff
          invariant detailedHistory == before + [current] + InterpolatedRun(current, next, monthsDiff, j - 1)
        {
          detailedHistory := detailedHistory + [Interpolated(current, next, monthsDiff, j)];
          j := j + 1;
        }
      }
      assert detailedHistory == before + Segment(current, next);
      assert baseHistory[..i + 2][..i + 1] == baseHistory[..i + 1];
      assert Segments(baseHistory[..i + 2]) == before + Segment(current, next);
      i := i + 1;
    }
    if |baseHistory| > 0 {
      assert baseHistory[..i + 1] == baseHistory;
      detailedHistory := detailedHistory + [baseHistory[|baseHistory| - 1]];
    }
  }

  // ---------------------------------------------------------------------
  // History densification: what the output is

  lemma {:induction false} InterpolatedRunAt(current: StockPrice, next: StockPrice, monthsDiff: int, count: nat, k: nat)
    requires monthsDiff > 0
    requires k < count
    ensures |InterpolatedRun(current, next, monthsDiff, count)| == count
    ensures InterpolatedRun(current, next, monthsDiff, count)[k] == Interpolated(current, next, monthsDiff, k + 1)
  {
    if k < count - 1 {
      InterpolatedRunAt(current, next, monthsDiff, count - 1, k);
    } else if count > 1 {
      InterpolatedRunAt(current, next, monthsDiff, count - 1, 0);
    }
  }

  lemma SegmentLength(current: StockPrice, next: StockPrice)
    ensures |Segment(current, next)| == 1 + InsertedCount(current, next)
  {
    var monthsDiff := MonthsBetween(current.date, next.date);
    if monthsDiff > 1 {
      InterpolatedRunAt(current, next, monthsDiff, monthsDiff - 1, 0);
    }
  }

  /** The segments hold one point per pair plus the inserted ones. */
  lemma {:induction false} SegmentsLength(s: seq<StockPrice>)
    requires |s| >= 1
    ensures |Segments(s)| == |s| - 1 + ExtraPoints(s)
  {
    if |s| >= 2 {
      SegmentsLength(s[..|s| - 1]);
      SegmentLength(s[|s| - 2], s[|s| - 1]);
    }
  }

  /** The segments of a prefix are a prefix of the segments. */
  lemma {:induction false} SegmentsPrefix(s: seq<StockPrice>, k: nat)
    requires 1 <= k <= |s|
    ensures Segments(s[..k]) <= Segments(s)
    decreases |s|
  {
    if k == |s| {
      assert s[..k] == s;
    } else {
      SegmentsPrefix(s[..|s| - 1], k);
      assert s[..|s| - 1][..k] == s[..k];
    }
  }

  /** The densified history has one point per sample plus one per month
      filled in. */
  lemma DetailedHistoryLength(base: seq<StockPrice>)
    requires base != []
    ensures |DetailedHistory(base)| == |base| + ExtraPoints(base)
  {
    SegmentsLength(base);
  }

  /** The segment of pair (i, i+1) starts at the offset of sample i. */
  lemma SegmentAtOffset(base: seq<StockPrice>, i: nat)
    requires i < |base| - 1
    ensures Segments(base[..i + 2]) == Segments(base[..i + 1]) + Segment(base[i], base[i + 1])
    ensures |Segments(base[..i + 1])| == Offset(base, i)
    ensures Segments(base[..i + 2]) <= DetailedHistory(base)
  {
    assert base[..i + 2][..i + 1] == base[..i + 1];
    SegmentsLength(base[..i + 1]);
    SegmentsPrefix(base, i + 2);
  }

  /** Every input sample appears unchanged in the output, at its offset. */
  lemma DetailedHistoryKeepsSample(base: seq<StockPrice>, i: nat)
    requires i < |base|
    ensures Offset(base, i) < |DetailedHistory(base)|
    ensures DetailedHistory(base)[Offset(base, i)] == base[i]
  {
    if i == |base| - 1 {
      assert base[..i + 1] == base;
      SegmentsLength(base);
    } else {
      SegmentAtOffset(base, i);
    }
  }

  /** Offsets grow by one plus the number of months filled in between, so
      the samples keep their order. */
  lemma OffsetStep(base: seq<StockPrice>, i: nat)
    requires i < |base| - 1
    ensures Offset(base, i + 1) == Offset(base, i) + 1 + InsertedCount(base[i], base[i + 1])
  {
    assert base[..i + 2][..i + 1] == base[..i + 1];
  }

  /** The first and last outputs are the first and last samples. */
  lemma DetailedHistoryEnds(base: seq<StockPrice>)
    requires base != []
    ensures DetailedHistory(base) != []
    ensures DetailedHistory(base)[0] == base[0]
    ensures DetailedHistory(base)[|DetailedHistory(base)| - 1] == base[|base| - 1]
  {
    DetailedHistoryKeepsSample(base, 0);
    assert Offset(base, 0) == 0;
  }

  /** Between samples i and i+1, which are `monthsDiff` months apart, the
      `j`-th output point is dated `j` months after sample i and priced at
      the rounded interpolation. */
  lemma DetailedHistoryInterpolates(base: seq<StockPrice>, i: nat, j: nat)
    requires i < |base| - 1
    requires 1 <= j <= InsertedCount(base[i], base[i + 1])
    ensures Offset(base, i) + j < |DetailedHistory(base)|
    ensures DetailedHistory(base)[Offset(base, i) + j]
            == Interpolated(base[i], base[i + 1], MonthsBetween(base[i].date, base[i + 1].date), j)
  {
    SegmentAtOffset(base, i);
    var monthsDiff := MonthsBetween(base[i].date, base[i + 1].date);
    InterpolatedRunAt(base[i], base[i + 1], monthsDiff, monthsDiff - 1, j - 1);
  }

  /** Before rounding, an interpolated price lies between its two samples. */
  lemma InterpolatedPriceBetween(current: StockPrice, next: StockPrice, monthsDiff: int, j: int)
    requires 0 < j < monthsDiff
    ensures var v := InterpolatedPrice(current, next, monthsDiff, j);
            (current.price <= next.price ==> current.price <= v <= next.price)
            && (next.price <= current.price ==> next.price <= v <= current.price)
  {
    var t := j as real / monthsDiff as real;
    assert 0.0 < t < 1.0;
    var d := next.price - current.price;
    assert (d / monthsDiff as real) * j as real == d * t;
    assert d - d * t == d * (1.0 - t);
    if d >= 0.0 {
      assert 0.0 <= d * t && 0.0 <= d * (1.0 - t);
    } else {
      assert d * t <= 0.0 && d * (1.0 - t) <= 0.0;
    }
  }

  /** Consecutive points are one calendar month apart. */
  ghost predicate MonthlySteps(s: seq<StockPrice>)
  {
    forall k :: 0 <= k < |s| - 1 ==> MonthIndex(s[k + 1].date) == MonthIndex(s[k].date) + 1
  }

  /** Sample months strictly increase. */
  ghost predicate StrictlyIncreasingMonths(s: seq<StockPrice>)
  {
    forall k :: 0 <= k < |s| - 1 ==> MonthIndex(s[k].date) < MonthIndex(s[k + 1].date)
  }

  lemma MonthlyStepsJoin(a: seq<StockPrice>, x: StockPrice, b: seq<StockPrice>)
    requires MonthlySteps(a + [x])
    requires MonthlySteps([x] + b)
    ensures MonthlySteps(a + [x] + b)
  {
    var s := a + [x] + b;
    forall k | 0 <= k < |s| - 1 ensures MonthIndex(s[k + 1].date) == MonthIndex(s[k].date) + 1 {
      if k < |a| {
        assert s[k] == (a + [x])[k] && s[k + 1] == (a + [x])[k + 1];
      } else {
        assert s[k] == ([x] + b)[k - |a|] && s[k + 1] == ([x] + b)[k - |a| + 1];
      }
    }
  }

  lemma SegmentMonthly(current: StockPrice, next: StockPrice)
    requires MonthIndex(current.date) < MonthIndex(next.date)
    ensures MonthlySteps(Segment(current, next) + [next])
  {
    var monthsDiff := MonthsBetween(current.date, next.date);
    var s := Segment(current, next) + [next];
    if monthsDiff > 1 {
      var run := InterpolatedRun(current, next, monthsDiff, monthsDiff - 1);
      InterpolatedRunAt(current, next, monthsDiff, monthsDiff - 1, 0);
      assert s == [current] + run + [next];
      assert |s| == monthsDiff + 1;
      forall k | 0 <= k < |s| ensures MonthIndex(s[k].date) == MonthIndex(current.date) + k {
        if k == 0 {
          assert s[k] == current;
        } else if k < monthsDiff {
          InterpolatedRunAt(current, next, monthsDiff, monthsDiff - 1, k - 1);
          assert s[k] == run[k - 1];
        } else {
          assert s[k] == next;
        }
      }
    }
  }

  lemma {:induction false} SegmentsMonthly(s: seq<StockPrice>)
    requires |s| >= 1
    requires StrictlyIncreasingMonths(s)
    ensures MonthlySteps(Segments(s) + [s[|s| - 1]])
  {
    if |s| >= 2 {
      var p := s[..|s| - 1];
      var a, b := s[|s| - 2], s[|s| - 1];
      assert p[|p| - 1] == a;
      assert StrictlyIncreasingMonths(p) by {
        forall k | 0 <= k < |p| - 1 ensures MonthIndex(p[k].date) < MonthIndex(p[k + 1].date) {
          assert p[k] == s[k] && p[k + 1] == s[k + 1];
        }
      }
      SegmentsMonthly(p);
      assert MonthIndex(a.date) < MonthIndex(b.date);
      SegmentMonthly(a, b);
      var seg, sp := Segment(a, b), Segments(p);
      var rest := seg[1..] + [b];
      assert seg + [b] == [a] + rest;
      assert Segments(s) == sp + seg;
      calc {
        Segments(s) + [b];
        sp + seg + [b];
        sp + (seg + [b]);
        sp + ([a] + rest);
        sp + [a] + rest;
      }
      MonthlyStepsJoin(sp, a, rest);
    }
  }

  /** When the sample months strictly increase, the densified history moves
      forward exactly one month at a time. */
  lemma DetailedHistoryMonthly(base: seq<StockPrice>)
    requires StrictlyIncreasingMonths(base)
    ensures MonthlySteps(DetailedHistory(base))
  {
    if base != [] {
      SegmentsMonthly(base);
    }
  }

  /** Two samples three months apart get two points in between, a third and
      two thirds of the way, rounded to cents. */
  lemma ThreeMonthGapExample()
    ensures DetailedHistory([StockPrice(YearMonth(2020, 1), 100.0), StockPrice(YearMonth(2020, 4), 130.0)])
            == [StockPrice(YearMonth(2020, 1), 100.0), StockPrice(YearMonth(2020, 2), 110.0),
                StockPrice(YearMonth(2020, 3), 120.0), StockPrice(YearMonth(2020, 4), 130.0)]
  {
    var a, b := StockPrice(YearMonth(2020, 1), 100.0), StockPrice(YearMonth(2020, 4), 130.0);
    assert InterpolatedPrice(a, b, 3, 1) == 110.0;
    assert InterpolatedPrice(a, b, 3, 2) == 120.0;
    RoundCentsKeepsCents(110.0);
    RoundCentsKeepsCents(120.0);
    assert [a, b][..1] == [a];
  }

  // ---------------------------------------------------------------------
  // The cache and getStockData

  /** A record and the cache after one `getStockData` call. */
  datatype Response = Response(data: StockData, cache: Cache)

  /** The cache holds an entry for `symbol` younger than the window at `now`. */
  predicate IsFresh(cache: Cache, symbol: string, now: int)
  {
    symbol in cache && now - cache[symbol].timestamp < CacheDuration
  }

  /** The table record with its history densified and a new timestamp. */
  function FallbackData(mock: StockData, isoNow: string): (r: StockData)
    ensures r.symbol == mock.symbol && r.name == mock.name && r.currentPrice == mock.currentPrice
    ensures r.priceHistory == DetailedHistory(mock.priceHistory) && r.lastUpdated == isoNow
  {
    mock.(priceHistory := DetailedHistory(mock.priceHistory), lastUpdated := isoNow)
  }

  /** The record returned for a ticker with neither network nor table data. */
  function DefaultStockData(symbol: string, isoNow: string): StockData
  {
    StockData(symbol, symbol + " Inc.", 100.0, [StockPrice(YearMonth(2024, 1), 100.0)], isoNow)
  }

  /** What `getStockData(symbol)` returns and leaves in the cache, given the
      clock at the cache check (`now`), the outcome of the request (`fetched`,
      None for a thrown error or a non-ok response), the clock when an entry
      is stored (`storedAt`) and the ISO time used for `lastUpdated`. */
  function Serve(cache: Cache, symbol: string, now: int, fetched: Option<StockData>,
                 storedAt: int, isoNow: string): (r: Response)
    ensures forall k :: k != symbol ==> (k in r.cache <==> k in cache)
    ensures forall k :: k != symbol && k in cache ==> r.cache[k] == cache[k]
    ensures r.cache == cache || (symbol in r.cache && r.cache[symbol] == CacheEntry(r.data, storedAt))
  {
    if IsFresh(cache, symbol, now) then Response(cache[symbol].data, cache)
    else match fetched
      case Some(stockData) => Response(stockData, cache[symbol := CacheEntry(stockData, storedAt)])
      case None =>
        if symbol in MockStockData then
          var enhancedData := FallbackData(MockStockData[symbol], isoNow);
          Response(enhancedData, cache[symbol := CacheEntry(enhancedData, storedAt)])
        else Response(DefaultStockData(symbol, isoNow), cache)
  }

  /** The module state of lib/stockService.ts: the `stockCache` map. */
  class StockService {
    var stockCache: Cache

    constructor ()
      ensures stockCache == map[]
    {
      stockCache := map[];
    }

    /** `getStockData`. */
    method GetStockData(symbol: string, now: int, fetched: Option<StockData>, storedAt: int, isoNow: string)
      returns (data: StockData)
      modifies this
      ensures Response(data, stockCache) == Serve(old(stockCache), symbol, now, fetched, storedAt, isoNow)
    {
      if symbol in stockCache && now - stockCache[symbol].timestamp < CacheDuration {
        return stockCache[symbol].data;
      }
      if fetched.Some? {
        var stockData := fetched.value;
        stockCache := stockCache[symbol := CacheEntry(stockData, storedAt)];
        return stockData;
      }
      if symbol in MockStockData {
        var mockData := MockStockData[symbol];
        var history := GenerateDetailedHistory(mockData.priceHistory);
        var enhancedData := mockData.(priceHistory := history, lastUpdated := isoNow);
        stockCache := stockCache[symbol := CacheEntry(enhancedData, storedAt)];
        return enhancedData;
      }
      return DefaultStockData(symbol, isoNow);
    }

    /** `clearStockCache`. */
    method ClearStockCache()
      modifies this
      ensures stockCache == map[]
    {
      stockCache := map[];
    }
  }

  /** `getAvailableSymbols`: the table's keys in declaration order. */
  function GetAvailableSymbols(): (symbols: seq<string>)
    ensures forall s :: s in symbols <==> s in MockStockData
    ensures forall i, j :: 0 <= i < j < |symbols| ==> symbols[i] != symbols[j]
  {
    ["AAPL", "NKE", "MSFT", "BBY", "TSLA"]
  }

  // ---------------------------------------------------------------------
  // Properties of the cache

  /** A fresh entry is served as it is, the cache is untouched, and the
      request outcome plays no part: no request is made. */
  lemma FreshEntryServedWithoutFetch(cache: Cache, symbol: string, now: int,
                                     fetched1: Option<StockData>, storedAt1: int, isoNow1: string,
                                     fetched2: Option<StockData>, storedAt2: int, isoNow2: string)
    requires IsFresh(cache, symbol, now)
    ensures Serve(cache, symbol, now, fetched1, storedAt1, isoNow1) == Response(cache[symbol].data, cache)
    ensures Serve(cache, symbol, now, fetched1, storedAt1, isoNow1)
            == Serve(cache, symbol, now, fetched2, storedAt2, isoNow2)
  {
  }

  /** An entry exactly five minutes old is stale. */
  lemma EntryExpiresAtWindow(cache: Cache, symbol: string, now: int)
    requires symbol in cache && now == cache[symbol].timestamp + 300000
    ensures !IsFresh(cache, symbol, now)
  {
  }

  /** On a miss, a successful request is returned verbatim and replaces the
      ticker's entry, stamped with the store time. */
  lemma FetchedRecordStored(cache: Cache, symbol: string, now: int, stockData: StockData,
                            storedAt: int, isoNow: string)
    requires !IsFresh(cache, symbol, now)
    ensures Serve(cache, symbol, now, Some(stockData), storedAt, isoNow)
            == Response(stockData, cache[symbol := CacheEntry(stockData, storedAt)])
  {
  }

  /** On a miss with a failed request, a table ticker gets the table's
      symbol, name and current price with the densified history and the
      current time, and that record is cached. */
  lemma TableFallbackCached(cache: Cache, symbol: string, now: int, storedAt: int, isoNow: string)
    requires !IsFresh(cache, symbol, now)
    requires symbol in MockStockData
    ensures var r := Serve(cache, symbol, now, None, storedAt, isoNow);
            && r.data.symbol == MockStockData[symbol].symbol == symbol
            && r.data.name == MockStockData[symbol].name
            && r.data.currentPrice == MockStockData[symbol].currentPrice
            && r.data.priceHistory == DetailedHistory(MockStockData[symbol].priceHistory)
            && r.data.priceHistory != []
            && r.data.lastUpdated == isoNow
            && r.cache == cache[symbol := CacheEntry(r.data, storedAt)]
  {
    DetailedHistoryEnds(MockStockData[symbol].priceHistory);
  }

  /** On a miss with a failed request, any other ticker gets the default
      record and the cache is left as it was. */
  lemma UnknownSymbolNotCached(cache: Cache, symbol: string, now: int, storedAt: int, isoNow: string)
    requires !IsFresh(cache, symbol, now)
    requires symbol !in MockStockData
    ensures Serve(cache, symbol, now, None, storedAt, isoNow)
            == Response(StockData(symbol, symbol + " Inc.", 100.0, [StockPrice(YearMonth(2024, 1), 100.0)], isoNow), cache)
  {
  }

  /** A record stored by a miss is served again, whatever the network would
      say, by every call less than five minutes after it was stored. */
  lemma RepeatWithinWindowHits(cache: Cache, symbol: string, now1: int, fetched1: Option<StockData>,
                               storedAt1: int, isoNow1: string,
                               now2: int, fetched2: Option<StockData>, storedAt2: int, isoNow2: string)
    requires !IsFresh(cache, symbol, now1)
    requires fetched1.Some? || symbol in MockStockData
    requires now2 - storedAt1 < CacheDuration
    ensures var r1 := Serve(cache, symbol, now1, fetched1, storedAt1, isoNow1);
            Serve(r1.cache, symbol, now2, fetched2, storedAt2, isoNow2) == r1
  {
  }

  /** Once five minutes have passed since the store, the next call misses
      and a successful request replaces the record. */
  lemma StaleAfterWindow(cache: Cache, symbol: string, now1: int, fetched1: Option<StockData>,
                         storedAt1: int, isoNow1: string,
                         now2: int, stockData: StockData, storedAt2: int, isoNow2: string)
    requires !IsFresh(cache, symbol, now1)
    requires fetched1.Some? || symbol in MockStockData
    requires now2 - storedAt1 >= CacheDuration
    ensures var r1 := Serve(cache, symbol, now1, fetched1, storedAt1, isoNow1);
            && Serve(r1.cache, symbol, now2, Some(stockData), storedAt2, isoNow2).data == stockData
            && Serve(r1.cache, symbol, now2, Some(stockData), storedAt2, isoNow2).cache
               == r1.cache[symbol := CacheEntry(stockData, storedAt2)]
  {
  }

  /** After `clearStockCache` every ticker misses. */
  lemma ClearedCacheMisses(symbol: string, now: int)
    ensures !IsFresh(map[], symbol, now)
  {
  }

  /** The table's keys are the symbols of its records, and every table
      history has strictly increasing months. */
  lemma MockTableWellFormed()
    ensures forall s :: s in MockStockData ==> MockStockData[s].symbol == s
    ensures forall s :: s in MockStockData ==> StrictlyIncreasingMonths(MockStockData[s].priceHistory)
  {
  }
}
