/** The stock detail page (src/pages/StockDetail.tsx): the chart's time
    range, the beginner insight lookup, the price header with its
    fallbacks and the conditions that enable the trade buttons. Dates of
    history rows are given as milliseconds since the epoch, and the clock
    is a parameter. */
module StockDetail {
  import opened Common
  import opened Sequences

  /** A history row as the chart reads it: its date and its close. */
  datatype HistoryPoint = HistoryPoint(time: int, close: real)

  const DayMs: int := 24 * 60 * 60 * 1000

  /** The look-back of each time range; '1M' and any unrecognised range use 30 days. */
  function DaysBack(timeRange: string): (days: int)
    ensures timeRange == "3M" ==> days == 90
    ensures timeRange == "6M" ==> days == 180
    ensures timeRange == "1Y" ==> days == 365
    ensures timeRange != "3M" && timeRange != "6M" && timeRange != "1Y" ==> days == 30
  {
    if timeRange == "3M" then 90
    else if timeRange == "6M" then 180
    else if timeRange == "1Y" then 365
    else 30
  }

  /** `getFilteredHistory`: nothing for an empty history, the whole history
      for 'ALL', otherwise the rows dated on or after the cutoff. */
  function FilteredHistory(history: seq<HistoryPoint>, timeRange: string, now: int): (r: seq<HistoryPoint>)
    ensures history == [] ==> r == []
    ensures timeRange == "ALL" ==> r == history
    ensures timeRange != "ALL" ==>
              forall h :: h in r <==> h in history && h.time >= now - DaysBack(timeRange) * DayMs
  {
    if |history| == 0 then []
    else if timeRange == "ALL" then history
    else
      var cutoff := now - DaysBack(timeRange) * DayMs;
      Filter(history, (h: HistoryPoint) => h.time >= cutoff)
  }

  /** The kept rows stay in their order: filtering a history that is split
      in two filters each part. */
  lemma FilteredHistoryKeepsOrder(a: seq<HistoryPoint>, b: seq<HistoryPoint>, timeRange: string, now: int)
    requires timeRange != "ALL" && a != [] && b != []
    ensures FilteredHistory(a + b, timeRange, now) == FilteredHistory(a, timeRange, now) + FilteredHistory(b, timeRange, now)
  {
    var cutoff := now - DaysBack(timeRange) * DayMs;
    FilterAppend(a, b, (h: HistoryPoint) => h.time >= cutoff);
  }

  /** A row from a week ago shows under '1M', a row from 100 days ago only
      under '6M', '1Y' and 'ALL'. */
  lemma FilteredHistoryExample(now: int)
    ensures var week := HistoryPoint(now - 7 * DayMs, 10.0);
            var earlier := HistoryPoint(now - 100 * DayMs, 9.0);
            var history := [earlier, week];
            && FilteredHistory(history, "1M", now) == [week]
            && FilteredHistory(history, "6M", now) == history
  {
    var week := HistoryPoint(now - 7 * DayMs, 10.0);
    var earlier := HistoryPoint(now - 100 * DayMs, 9.0);
    var history := [earlier, week];
    assert history[1..] == [week];
    assert history[1..][1..] == [];
  }

  /** What `getAIInsight` shows: the written text of one of the four
      described stocks, or the general text about the company. */
  datatype Insight = Written(symbol: string) | General(companyName: string)

  const DescribedStocks: set<string> := {"RELIANCE", "TCS", "HDFCBANK", "INFY"}

  /** `insights[symbol] || insights['DEFAULT']`. */
  function AIInsight(companyName: string, symbol: string): (i: Insight)
    ensures symbol in DescribedStocks ==> i == Written(symbol)
    ensures symbol !in DescribedStocks ==> i == General(companyName)
  {
    if symbol in DescribedStocks then Written(symbol) else General(companyName)
  }

  /** The `'DEFAULT'` entry is itself the general text, and every stock
      without its own text gets exactly what `'DEFAULT'` gets. */
  lemma InsightDefault(companyName: string, symbol: string)
    ensures AIInsight(companyName, "DEFAULT") == General(companyName)
    ensures symbol !in DescribedStocks ==> AIInsight(companyName, symbol) == AIInsight(companyName, "DEFAULT")
  {
  }

  /** A described stock's text does not depend on the company name, while
      the general text names the company it is shown for. */
  lemma InsightUsesName(name1: string, name2: string, symbol: string)
    ensures symbol in DescribedStocks ==> AIInsight(name1, symbol) == AIInsight(name2, symbol)
    ensures symbol !in DescribedStocks && name1 != name2 ==> AIInsight(name1, symbol) != AIInsight(name2, symbol)
  {
  }

  /** The price header. */
  datatype Header = Header(currentPrice: real, change: real, changePercent: JsNumber, isPositive: bool)

  /** `priceData?.price || stock.current_price || 0` and the change figures
      defaulting to 0: a missing quote, or a quote price of 0, shows the
      stock's stored price; a missing or NaN percent shows 0. */
  function PriceHeader(quote: Option<Quote>, storedPrice: real): (h: Header)
    ensures quote.Some? && quote.value.price != 0.0 ==> h.currentPrice == quote.value.price
    ensures (quote.None? || quote.value.price == 0.0) ==> h.currentPrice == storedPrice
    ensures quote.None? ==> h.change == 0.0 && h.changePercent == Finite(0.0)
    ensures quote.Some? ==> h.change == quote.value.change && h.changePercent == OrElse(quote.value.changePercent, 0.0)
    ensures h.isPositive <==> h.change >= 0.0
  {
    var currentPrice := if quote.Some? && quote.value.price != 0.0 then quote.value.price else storedPrice;
    var change := if quote.Some? then quote.value.change else 0.0;
    var changePercent := if quote.Some? then OrElse(quote.value.changePercent, 0.0) else Finite(0.0);
    Header(currentPrice, change, changePercent, change >= 0.0)
  }

  /** Without a quote the header is flat and counts as positive. */
  lemma NoQuoteHeader(storedPrice: real)
    ensures PriceHeader(None, storedPrice) == Header(storedPrice, 0.0, Finite(0.0), true)
  {
  }

  /** The BUY button is enabled only while the market is open. */
  function BuyEnabled(marketOpen: bool): bool
  {
    marketOpen
  }

  /** The SELL button is enabled only while the market is open and the
      student holds a non-zero quantity of the stock. */
  function SellEnabled(marketOpen: bool, holdingQuantity: Option<int>): (enabled: bool)
    ensures enabled <==> marketOpen && holdingQuantity.Some? && holdingQuantity.value != 0
  {
    !(!marketOpen || holdingQuantity.None? || holdingQuantity.value == 0)
  }

  /** Selling is never offered when buying is not: both wait for the market,
      and selling also needs a holding. */
  lemma SellEnabledOnlyWithBuy(marketOpen: bool, holdingQuantity: Option<int>)
    ensures SellEnabled(marketOpen, holdingQuantity) ==> BuyEnabled(marketOpen)
    ensures BuyEnabled(marketOpen) && holdingQuantity.Some? && holdingQuantity.value != 0
            ==> SellEnabled(marketOpen, holdingQuantity)
  {
  }

  /** The trade dialog renders only when a button was pressed, the stock
      is loaded and a quote is present. */
  function ModalShown(modalRequested: bool, stockLoaded: bool, quote: Option<Quote>): (shown: bool)
    ensures shown <==> modalRequested && stockLoaded && quote.Some?
  {
    modalRequested && stockLoaded && quote.Some?
  }

  /** The dialog trades at `priceData.price`. That is the price the header
      shows whenever the quote's price is non-zero; a quote priced 0 opens
      the dialog at 0 while the header shows the stored price. */
  lemma DialogPriceIsHeaderPrice(modalRequested: bool, stockLoaded: bool, quote: Option<Quote>, storedPrice: real)
    requires ModalShown(modalRequested, stockLoaded, quote)
    ensures quote.value.price != 0.0 ==> PriceHeader(quote, storedPrice).currentPrice == quote.value.price
    ensures quote.value.price == 0.0 ==> PriceHeader(quote, storedPrice).currentPrice == storedPrice
  {
  }

  /** Selling never is possible when buying is not. */
  lemma SellImpliesBuy(marketOpen: bool, holdingQuantity: Option<int>)
    ensures SellEnabled(marketOpen, holdingQuantity) ==> BuyEnabled(marketOpen)
  {
  }
}
