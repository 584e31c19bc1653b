/** The stocks list page (src/pages/StocksList.tsx): the search over the
    stocks, which are fetched ordered by symbol, the price map that the
    background refresh updates one symbol at a time, and the defaults a
    row shows before its quote arrives. */
module StocksList {
  import opened Common
  import opened Text
  import opened Sequences
  import opened HistoricalQuotes

  /** A stock as the list reads it. */
  datatype Stock = Stock(id: int, symbol: string, companyName: string)

  /** `filteredStocks`: the stocks whose symbol or company name contains the
      query, ignoring case. */
  function FilteredStocks(stocks: seq<Stock>, query: string): (r: seq<Stock>)
    ensures |r| <= |stocks|
    ensures forall s :: s in r <==> s in stocks && MatchesSearch(s.symbol, s.companyName, query)
  {
    Filter(stocks, (s: Stock) => MatchesSearch(s.symbol, s.companyName, query))
  }

  /** An empty search box lists every stock, in the fetched order. */
  lemma EmptyQueryKeepsAll(stocks: seq<Stock>)
    ensures FilteredStocks(stocks, "") == stocks
  {
    forall s | s in stocks
      ensures MatchesSearch(s.symbol, s.companyName, "")
    {
      EmptyQueryMatches(s.symbol, s.companyName);
    }
    FilterKeepsAll(stocks, (s: Stock) => MatchesSearch(s.symbol, s.companyName, ""));
  }

  /** The search keeps the fetched order: searching a list split in two
      searches each part. */
  lemma FilteredKeepsOrder(a: seq<Stock>, b: seq<Stock>, query: string)
    ensures FilteredStocks(a + b, query) == FilteredStocks(a, query) + FilteredStocks(b, query)
  {
    FilterAppend(a, b, (s: Stock) => MatchesSearch(s.symbol, s.companyName, query));
  }

  /** The callback's state update: a copy of the map with one entry set. */
  function ApplyUpdate(prices: map<string, Quote>, u: PriceUpdate): (r: map<string, Quote>)
    ensures r.Keys == prices.Keys + {u.symbol}
    ensures r[u.symbol] == u.quote
    ensures forall s :: s in prices && s != u.symbol ==> r[s] == prices[s]
  {
    prices[u.symbol := u.quote]
  }

  /** The map after the callback has run for each update, in order. */
  function ApplyAll(prices: map<string, Quote>, updates: seq<PriceUpdate>): map<string, Quote>
  {
    if updates == [] then prices
    else ApplyUpdate(ApplyAll(prices, updates[..|updates| - 1]), updates[|updates| - 1])
  }

  function UpdatedSymbols(updates: seq<PriceUpdate>): set<string>
  {
    set u | u in updates :: u.symbol
  }

  /** No entry is lost, and exactly the updated symbols are added. */
  lemma {:induction false} ApplyAllKeys(prices: map<string, Quote>, updates: seq<PriceUpdate>)
    ensures ApplyAll(prices, updates).Keys == prices.Keys + UpdatedSymbols(updates)
  {
    if updates != [] {
      var init := updates[..|updates| - 1];
      ApplyAllKeys(prices, init);
      assert updates == init + [updates[|updates| - 1]];
      assert UpdatedSymbols(updates) == UpdatedSymbols(init) + {updates[|updates| - 1].symbol};
    }
  }

  /** A symbol that no update names keeps its entry. */
  lemma {:induction false} ApplyAllLeavesOthers(prices: map<string, Quote>, updates: seq<PriceUpdate>, symbol: string)
    requires symbol in prices
    requires forall u :: u in updates ==> u.symbol != symbol
    ensures symbol in ApplyAll(prices, updates)
    ensures ApplyAll(prices, updates)[symbol] == prices[symbol]
  {
    if updates != [] {
      var init := updates[..|updates| - 1];
      assert forall u :: u in init ==> u in updates;
      ApplyAllLeavesOthers(prices, init, symbol);
      assert updates[|updates| - 1] in updates;
    }
  }

  /** An updated symbol holds the quote of its last update. */
  lemma {:induction false} ApplyAllLastWins(prices: map<string, Quote>, updates: seq<PriceUpdate>, i: int)
    requires 0 <= i < |updates|
    requires forall j :: i < j < |updates| ==> updates[j].symbol != updates[i].symbol
    ensures updates[i].symbol in ApplyAll(prices, updates)
    ensures ApplyAll(prices, updates)[updates[i].symbol] == updates[i].quote
  {
    if i < |updates| - 1 {
      var init := updates[..|updates| - 1];
      ApplyAllLastWins(prices, init, i);
    }
  }

  /** What a row shows. */
  datatype Row = Row(price: real, change: real, changePercent: JsNumber, isPositive: bool, loading: bool)

  /** A row's figures, each `priceData?.x || 0`: zero without a quote, and a
      NaN percent also reads zero. A price that is not positive shows
      "Loading..." in place of the price and the change. */
  function DisplayRow(quote: Option<Quote>): (row: Row)
    ensures quote.None? ==> row == Row(0.0, 0.0, Finite(0.0), true, true)
    ensures quote.Some? ==> row.price == quote.value.price && row.change == quote.value.change
    ensures quote.Some? ==> row.changePercent == OrElse(quote.value.changePercent, 0.0)
    ensures row.loading <==> row.price <= 0.0
    ensures row.isPositive <==> row.change >= 0.0
  {
    var price := if quote.Some? then quote.value.price else 0.0;
    var change := if quote.Some? then quote.value.change else 0.0;
    var changePercent := if quote.Some? then OrElse(quote.value.changePercent, 0.0) else Finite(0.0);
    Row(price, change, changePercent, change >= 0.0, !(price > 0.0))
  }

  /** `stockPrices.get(symbol)`. */
  function Lookup(prices: map<string, Quote>, symbol: string): Option<Quote>
  {
    if symbol in prices then Some(prices[symbol]) else None
  }

  /** Once an update with a positive price arrives for a symbol, its row
      stops showing "Loading..." and shows that price. */
  lemma UpdateEndsLoading(prices: map<string, Quote>, u: PriceUpdate)
    requires u.quote.price > 0.0
    ensures var row := DisplayRow(Lookup(ApplyUpdate(prices, u), u.symbol));
            !row.loading && row.price == u.quote.price
  {
  }
}
