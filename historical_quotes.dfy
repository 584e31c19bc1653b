/** Quotes derived from the stored price history (src/lib/stockPrices.ts):
    the latest quote from the two most recent closes, this module's own
    synthetic fallback, the initial price map, the background refresh through
    the quote feed and the batch entry point that accepts symbols or stocks.

    The database is a parameter `history`: for a stock id it gives the rows
    the history query returns, newest first, or None when the query fails.
    The draws of Math.random are a parameter `draws`, indexed by the
    position of the stock in the input. */
module HistoricalQuotes {
  import opened Common
  import opened QuoteFeed

  /** One row of the stock_history table, as the query selects it. */
  datatype HistoryRow = HistoryRow(date: string, close: real, open: real, high: real, low: real)

  /** A stock as the pages pass it: its id and its symbol. */
  datatype StockRef = StockRef(id: int, symbol: string)

  const HistoryFallbackFactor: real := 0.02

  /** `getLatestHistoricalPrice`: no quote when the query fails or returns no
      row; otherwise the latest close against the second-latest close, or
      against itself when there is only one row. */
  function LatestHistoricalQuote(symbol: string, data: Option<seq<HistoryRow>>, now: int): (r: Option<Quote>)
    ensures r.None? <==> data.None? || data.value == []
    ensures r.Some? ==>
              && r.value.symbol == symbol && r.value.lastUpdated == now
              && r.value.price == data.value[0].close
              && r.value.previousClose == (if |data.value| > 1 then data.value[1] else data.value[0]).close
              && r.value.change == r.value.price - r.value.previousClose
  {
    if data.None? || data.value == [] then None
    else
      var latest := data.value[0];
      var previous := if |data.value| > 1 then data.value[1] else latest;
      var change := latest.close - previous.close;
      Some(Quote(symbol, latest.close, previous.close, change, JsDivide(change, previous.close).Times(100.0), now))
  }

  /** The percent is the change relative to the previous close: with a
      non-zero previous close it is finite and gives back the price; with a
      zero previous close it is an infinity, or NaN when the price is 0 too. */
  lemma ChangePercentMeaning(symbol: string, data: Option<seq<HistoryRow>>, now: int)
    requires LatestHistoricalQuote(symbol, data, now).Some?
    ensures var q := LatestHistoricalQuote(symbol, data, now).value;
            && (q.previousClose != 0.0 ==>
                  q.changePercent.Finite?
                  && q.previousClose * (1.0 + q.changePercent.value / 100.0) == q.price)
            && (q.previousClose == 0.0 && q.price > 0.0 ==> q.changePercent == PosInfinity)
            && (q.previousClose == 0.0 && q.price < 0.0 ==> q.changePercent == NegInfinity)
            && (q.previousClose == 0.0 && q.price == 0.0 ==> q.changePercent == NaN)
  {
    var q := LatestHistoricalQuote(symbol, data, now).value;
    if q.previousClose != 0.0 {
      var d := JsDivide(q.change, q.previousClose);
      assert d.value * q.previousClose == q.change;
      assert q.changePercent.value / 100.0 == d.value;
      assert q.previousClose * (1.0 + d.value) == q.previousClose + d.value * q.previousClose;
    }
  }

  /** With a single row the previous close is the latest close: no change. */
  lemma SingleRowNoChange(symbol: string, row: HistoryRow, now: int)
    ensures var q := LatestHistoricalQuote(symbol, Some([row]), now).value;
            && q.previousClose == q.price
            && q.change == 0.0
            && (row.close != 0.0 ==> q.changePercent == Finite(0.0))
            && (row.close == 0.0 ==> q.changePercent == NaN)
  {
  }

  /** Rows beyond the second do not matter: only the two latest closes are read. */
  lemma OnlyTwoLatestRows(symbol: string, rows: seq<HistoryRow>, now: int)
    requires |rows| >= 2
    ensures LatestHistoricalQuote(symbol, Some(rows), now) == LatestHistoricalQuote(symbol, Some(rows[..2]), now)
  {
  }

  /** Closes 100 (latest) and 95 (previous) give a change of 5. */
  lemma HistoryExample(symbol: string, now: int)
    ensures var q := LatestHistoricalQuote(symbol, Some([HistoryRow("2024-01-02", 100.0, 0.0, 0.0, 0.0),
                                                         HistoryRow("2024-01-01", 95.0, 0.0, 0.0, 0.0)]), now).value;
            && q.price == 100.0 && q.previousClose == 95.0 && q.change == 5.0
            && q.changePercent == Finite(500.0 / 95.0)
  {
  }

  /** `getFallbackPrice` of this module: the reference price moved by up to 1%. */
  function HistoryFallback(symbol: string, r: Draw, now: int): (q: Quote)
    ensures q.symbol == symbol && q.lastUpdated == now
    ensures q.previousClose == BasePrice(symbol) && q.change == q.price - q.previousClose
    ensures q.previousClose * 0.99 <= q.price <= q.previousClose * 1.01
    ensures q.changePercent.Finite? && -1.0 <= q.changePercent.value <= 1.0
  {
    SyntheticQuoteBounds(symbol, BasePrice(symbol), r, HistoryFallbackFactor, now);
    SyntheticQuote(symbol, BasePrice(symbol), r, HistoryFallbackFactor, now)
  }

  /** The quote one stock starts with: its historical quote, or the fallback
      when there is none. */
  function InitialQuote(stock: StockRef, history: int -> Option<seq<HistoryRow>>, r: Draw, now: int): (q: Quote)
    ensures q.symbol == stock.symbol
  {
    match LatestHistoricalQuote(stock.symbol, history(stock.id), now)
    case Some(h) => h
    case None => HistoryFallback(stock.symbol, r, now)
  }

  /** The price map filled from the stocks in order: each writes its symbol's
      entry, so a later stock with the same symbol overwrites an earlier one. */
  function PriceMap(stocks: seq<StockRef>, quotes: seq<Quote>): map<string, Quote>
    requires |quotes| == |stocks|
  {
    if stocks == [] then map[]
    else PriceMap(stocks[..|stocks| - 1], quotes[..|quotes| - 1])[stocks[|stocks| - 1].symbol := quotes[|quotes| - 1]]
  }

  function SymbolsOfStocks(stocks: seq<StockRef>): set<string>
  {
    set i | 0 <= i < |stocks| :: stocks[i].symbol
  }

  /** The map has an entry for every stock's symbol and no other. */
  lemma {:induction false} PriceMapKeys(stocks: seq<StockRef>, quotes: seq<Quote>)
    requires |quotes| == |stocks|
    ensures PriceMap(stocks, quotes).Keys == SymbolsOfStocks(stocks)
    decreases |stocks|
  {
    if stocks != [] {
      var n := |stocks| - 1;
      var init := stocks[..n];
      PriceMapKeys(init, quotes[..n]);
      forall x | x in SymbolsOfStocks(stocks) ensures x in SymbolsOfStocks(init) + {stocks[n].symbol} {
        var i :| 0 <= i < |stocks| && stocks[i].symbol == x;
        if i < n { assert init[i].symbol == x; }
      }
      forall x | x in SymbolsOfStocks(init) ensures x in SymbolsOfStocks(stocks) {
        var i :| 0 <= i < |init| && init[i].symbol == x;
        assert stocks[i].symbol == x;
      }
    }
  }

  /** No stock after position i has the symbol of stock i. */
  ghost predicate LastWithSymbol(stocks: seq<StockRef>, i: int)
    requires 0 <= i < |stocks|
  {
    forall j :: i < j < |stocks| ==> stocks[j].symbol != stocks[i].symbol
  }

  /** The entry of a symbol is the quote of the last stock that has it. */
  lemma {:induction false} PriceMapLast(stocks: seq<StockRef>, quotes: seq<Quote>, i: int)
    requires |quotes| == |stocks| && 0 <= i < |stocks| && LastWithSymbol(stocks, i)
    ensures stocks[i].symbol in PriceMap(stocks, quotes)
    ensures PriceMap(stocks, quotes)[stocks[i].symbol] == quotes[i]
    decreases |stocks|
  {
    var n := |stocks| - 1;
    if i < n {
      var init := stocks[..n];
      assert stocks[n].symbol != stocks[i].symbol;
      assert init[i] == stocks[i];
      assert LastWithSymbol(init, i) by {
        forall j | i < j < |init| ensures init[j].symbol != init[i].symbol {
          assert init[j] == stocks[j];
        }
      }
      PriceMapLast(init, quotes[..n], i);
    }
  }

  /** The initial quotes of the stocks, in input order. */
  function InitialQuotes(stocks: seq<StockRef>, history: int -> Option<seq<HistoryRow>>, draws: nat -> Draw, now: int): (qs: seq<Quote>)
    ensures |qs| == |stocks|
    ensures forall i :: 0 <= i < |stocks| ==> qs[i] == InitialQuote(stocks[i], history, draws(i), now)
  {
    seq(|stocks|, i requires 0 <= i < |stocks| => InitialQuote(stocks[i], history, draws(i), now))
  }

  /** `getInitialStockPrices`: every stock's symbol gets its historical quote,
      or the fallback when there is none. */
  method GetInitialStockPrices(stocks: seq<StockRef>, history: int -> Option<seq<HistoryRow>>, draws: nat -> Draw, now: int)
    returns (priceMap: map<string, Quote>)
    ensures priceMap == PriceMap(stocks, InitialQuotes(stocks, history, draws, now))
    ensures priceMap.Keys == SymbolsOfStocks(stocks)
  {
    ghost var qs := InitialQuotes(stocks, history, draws, now);
    priceMap := map[];
    var i := 0;
    while i < |stocks|
      invariant 0 <= i <= |stocks|
      invariant priceMap == PriceMap(stocks[..i], qs[..i])
    {
      var stock := stocks[i];
      var q := InitialQuote(stock, history, draws(i), now);
      assert stocks[..i + 1][..i] == stocks[..i] && qs[..i + 1][..i] == qs[..i];
      priceMap := priceMap[stock.symbol := q];
      i := i + 1;
    }
    assert stocks[..i] == stocks && qs[..i] == qs;
    PriceMapKeys(stocks, qs);
  }

  /** The quote the batch fallback gives one stock: its historical quote or the
      fallback when it has a non-zero id, the fallback alone for id 0. */
  function BatchFallbackQuote(stock: StockRef, history: int -> Option<seq<HistoryRow>>, r: Draw, now: int): (q: Quote)
    ensures stock.id != 0 ==> q == InitialQuote(stock, history, r, now)
    ensures stock.id == 0 ==> q == HistoryFallback(stock.symbol, r, now)
  {
    if stock.id != 0 then
      match LatestHistoricalQuote(stock.symbol, history(stock.id), now)
      case Some(h) => h
      case None => HistoryFallback(stock.symbol, r, now)
    else HistoryFallback(stock.symbol, r, now)
  }

  function BatchFallbackQuotes(stocks: seq<StockRef>, history: int -> Option<seq<HistoryRow>>, draws: nat -> Draw, now: int): (qs: seq<Quote>)
    ensures |qs| == |stocks|
    ensures forall i :: 0 <= i < |stocks| ==> qs[i] == BatchFallbackQuote(stocks[i], history, draws(i), now)
  {
    seq(|stocks|, i requires 0 <= i < |stocks| => BatchFallbackQuote(stocks[i], history, draws(i), now))
  }

  /** The two shapes the batch entry point accepts. */
  datatype SymbolsOrStocks = Symbols(symbols: seq<string>) | Stocks(stocks: seq<StockRef>)

  /** A list of symbols becomes stocks with id 0; stocks are taken as they are. */
  function Normalize(input: SymbolsOrStocks): (stocks: seq<StockRef>)
    ensures input.Symbols? ==>
              |stocks| == |input.symbols| && forall i :: 0 <= i < |stocks| ==> stocks[i] == StockRef(0, input.symbols[i])
    ensures input.Stocks? ==> stocks == input.stocks
  {
    match input
    case Symbols(ss) => seq(|ss|, i requires 0 <= i < |ss| => StockRef(0, ss[i]))
    case Stocks(st) => st
  }

  function SymbolList(stocks: seq<StockRef>): (symbols: seq<string>)
    ensures |symbols| == |stocks|
    ensures forall i :: 0 <= i < |stocks| ==> symbols[i] == stocks[i].symbol
  {
    seq(|stocks|, i requires 0 <= i < |stocks| => stocks[i].symbol)
  }

  /** Normalising a symbol list keeps the symbols. */
  lemma NormalizeKeepsSymbols(symbols: seq<string>)
    ensures SymbolList(Normalize(Symbols(symbols))) == symbols
  {
  }

  /** The fallback branch of the batch: a symbol list, whose ids are all 0,
      gets only synthetic quotes. */
  lemma SymbolListGetsFallbacks(symbols: seq<string>, history: int -> Option<seq<HistoryRow>>, draws: nat -> Draw, now: int)
    ensures var stocks := Normalize(Symbols(symbols));
            var qs := BatchFallbackQuotes(stocks, history, draws, now);
            forall i :: 0 <= i < |symbols| ==> qs[i] == HistoryFallback(symbols[i], draws(i), now)
  {
  }

  /** Stocks with non-zero ids get the same quotes on the batch fallback as on
      the initial load. */
  lemma BatchFallbackAgreesWithInitial(stocks: seq<StockRef>, history: int -> Option<seq<HistoryRow>>, draws: nat -> Draw, now: int)
    requires forall i :: 0 <= i < |stocks| ==> stocks[i].id != 0
    ensures BatchFallbackQuotes(stocks, history, draws, now) == InitialQuotes(stocks, history, draws, now)
  {
  }

  /** The whole fallback branch: the loop over the stocks in input order. */
  method FallbackPrices(stocks: seq<StockRef>, history: int -> Option<seq<HistoryRow>>, draws: nat -> Draw, now: int)
    returns (priceMap: map<string, Quote>)
    ensures priceMap == PriceMap(stocks, BatchFallbackQuotes(stocks, history, draws, now))
    ensures priceMap.Keys == SymbolsOfStocks(stocks)
  {
    ghost var qs := BatchFallbackQuotes(stocks, history, draws, now);
    priceMap := map[];
    var i := 0;
    while i < |stocks|
      invariant 0 <= i <= |stocks|
      invariant priceMap == PriceMap(stocks[..i], qs[..i])
    {
      var stock := stocks[i];
      var q := BatchFallbackQuote(stock, history, draws(i), now);
      assert stocks[..i + 1][..i] == stocks[..i] && qs[..i + 1][..i] == qs[..i];
      priceMap := priceMap[stock.symbol := q];
      i := i + 1;
    }
    assert stocks[..i] == stocks && qs[..i] == qs;
    PriceMapKeys(stocks, qs);
  }

  /** `fetchMultipleStockPrices` of this module: the input is normalised and
      the symbols are asked of the quote feed; when that call fails (the
      flag `feedFails`) the prices come from the history or the fallback. */
  method FetchMultipleStockPrices(feed: Feed, input: SymbolsOrStocks, feedFails: bool,
                                  history: int -> Option<seq<HistoryRow>>, draws: nat -> Draw, now: int)
    returns (prices: map<string, Quote>)
    requires feed.Valid()
    modifies feed
    ensures feed.Valid()
    ensures prices.Keys == SymbolsOfStocks(Normalize(input))
    ensures !feedFails ==>
              && feed.State() == ProcessQueueResult(EnqueueMisses(old(feed.State()), SymbolList(Normalize(input)), now), now, feed.env).feed
              && forall s :: s in prices ==> s in feed.cache && prices[s] == feed.cache[s].data
    ensures feedFails ==>
              && feed.State() == old(feed.State())
              && prices == PriceMap(Normalize(input), BatchFallbackQuotes(Normalize(input), history, draws, now))
  {
    var stocks := Normalize(input);
    var symbols := SymbolList(stocks);
    if !feedFails {
      prices := feed.FetchMultipleStockPrices(symbols, now);
      assert SymbolsOfStocks(stocks) == set s | s in symbols by {
        forall x | x in SymbolsOfStocks(stocks) ensures x in symbols {
          var i :| 0 <= i < |stocks| && stocks[i].symbol == x;
          assert symbols[i] == x;
        }
      }
    } else {
      prices := FallbackPrices(stocks, history, draws, now);
    }
  }

  // ----- The background refresh -----

  /** The feed state and the answers after `fetchStockPrice` was called for
      each symbol in turn, the i-th call at `times[i]`. */
  datatype Run = Run(feed: FeedState, quotes: seq<Quote>)

  function BackgroundRun(f: FeedState, symbols: seq<string>, times: seq<int>, env: Env): (r: Run)
    requires Idle(f) && |times| == |symbols|
    ensures Idle(r.feed) && |r.quotes| == |symbols|
  {
    if symbols == [] then Run(f, [])
    else
      var n := |symbols| - 1;
      var before := BackgroundRun(f, symbols[..n], times[..n], env);
      var a := FetchStockPriceResult(before.feed, symbols[n], times[n], env);
      Run(a.feed, before.quotes + [a.quote])
  }

  /** Each answer of the refresh is the one `fetchStockPrice` gives for that
      symbol in the state the earlier calls left. */
  lemma {:induction false} BackgroundRunAnswers(f: FeedState, symbols: seq<string>, times: seq<int>, env: Env, i: nat)
    requires Idle(f) && |times| == |symbols| && i < |symbols|
    ensures var before := BackgroundRun(f, symbols[..i], times[..i], env);
            BackgroundRun(f, symbols, times, env).quotes[i]
            == FetchStockPriceResult(before.feed, symbols[i], times[i], env).quote
    decreases |symbols|
  {
    var n := |symbols| - 1;
    if i < n {
      assert symbols[..n][..i] == symbols[..i] && times[..n][..i] == times[..i];
      BackgroundRunAnswers(f, symbols[..n], times[..n], env, i);
    } else {
      assert symbols[..n] == symbols[..i] && times[..n] == times[..i];
    }
  }

  /** One more call of the refresh extends the run by that call's answer. */
  lemma RunStep(f: FeedState, symbols: seq<string>, times: seq<int>, env: Env, i: nat, before: Run, after: Answered)
    requires Idle(f) && |times| == |symbols| && i < |symbols|
    requires BackgroundRun(f, symbols[..i], times[..i], env) == before
    requires after == FetchStockPriceResult(before.feed, symbols[i], times[i], env)
    ensures BackgroundRun(f, symbols[..i + 1], times[..i + 1], env) == Run(after.feed, before.quotes + [after.quote])
  {
    assert symbols[..i + 1][..i] == symbols[..i] && times[..i + 1][..i] == times[..i];
  }

  /** One callback invocation: the symbol and its price. */
  datatype PriceUpdate = PriceUpdate(symbol: string, quote: Quote)

  /** `updatePricesInBackground`: the symbols are fetched one at a time in
      input order, and since the feed always answers, the callback runs once
      for each, in that order, with the feed's answer. */
  method UpdatePricesInBackground(feed: Feed, stocks: seq<StockRef>, times: seq<int>)
    returns (calls: seq<PriceUpdate>)
    requires feed.Valid() && |times| == |stocks|
    modifies feed
    ensures feed.Valid()
    ensures var run := BackgroundRun(old(feed.State()), SymbolList(stocks), times, feed.env);
            && feed.State() == run.feed
            && |calls| == |stocks|
            && forall i :: 0 <= i < |stocks| ==> calls[i] == PriceUpdate(stocks[i].symbol, run.quotes[i])
  {
    var symbols := SymbolList(stocks);
    ghost var start := feed.State();
    ghost var quotes: seq<Quote> := [];
    calls := [];
    var i := 0;
    while i < |symbols|
      invariant 0 <= i <= |symbols|
      invariant feed.Valid() && Idle(start)
      invariant BackgroundRun(start, symbols[..i], times[..i], feed.env) == Run(feed.State(), quotes)
      invariant |calls| == i == |quotes|
      invariant forall k :: 0 <= k < i ==> calls[k] == PriceUpdate(symbols[k], quotes[k])
    {
      ghost var prior := Run(feed.State(), quotes);
      var price := feed.FetchStockPrice(symbols[i], times[i]);
      RunStep(start, symbols, times, feed.env, i, prior, Answered(feed.State(), price));
      calls := calls + [PriceUpdate(symbols[i], price)];
      quotes := quotes + [price];
      i := i + 1;
    }
    assert symbols[..i] == symbols && times[..i] == times;
  }
}
