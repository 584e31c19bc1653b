/** Portfolio valuation on the pages: the holdings page's totals, search,
    profit/loss filter and sort (src/pages/Holdings.tsx), the student
    dashboard's portfolio value, amount invested and overall result
    (src/pages/StudentDashboard.tsx) and the parent dashboard's value and
    profit or loss of the linked child (src/pages/ParentDashboard.tsx).
    The quotes are the map the page holds, keyed by symbol. */
module Valuation {
  import opened Common
  import opened Text
  import opened Sequences

  /** A holding joined with its stock, as the pages load it. */
  datatype HeldStock = HeldStock(symbol: string, companyName: string, quantity: int, averageBuyPrice: real)

  /** What the holding cost: average buy price times quantity. */
  function Cost(h: HeldStock): real
  {
    h.averageBuyPrice * h.quantity as real
  }

  /** `price?.price || holding.average_buy_price`: the quote's price, or the
      average buy price when there is no quote or its price is 0. */
  function CurrentPrice(h: HeldStock, prices: map<string, Quote>): (r: real)
    ensures h.symbol in prices && prices[h.symbol].price != 0.0 ==> r == prices[h.symbol].price
    ensures h.symbol !in prices || prices[h.symbol].price == 0.0 ==> r == h.averageBuyPrice
  {
    if h.symbol in prices && prices[h.symbol].price != 0.0 then prices[h.symbol].price else h.averageBuyPrice
  }

  /** Total of average buy price times quantity. */
  function Invested(hs: seq<HeldStock>): real
  {
    if hs == [] then 0.0 else Invested(hs[..|hs| - 1]) + Cost(hs[|hs| - 1])
  }

  /** Total of current price times quantity, with the fallback to cost. */
  function MarketValue(hs: seq<HeldStock>, prices: map<string, Quote>): real
  {
    if hs == [] then 0.0
    else MarketValue(hs[..|hs| - 1], prices) + CurrentPrice(hs[|hs| - 1], prices) * hs[|hs| - 1].quantity as real
  }

  /** The parent dashboard's value of one holding: quoted price times
      quantity when a quote exists (even one of price 0), cost otherwise. */
  function QuotedHoldingValue(h: HeldStock, prices: map<string, Quote>): real
  {
    if h.symbol in prices then h.quantity as real * prices[h.symbol].price else h.quantity as real * h.averageBuyPrice
  }

  function QuotedValue(hs: seq<HeldStock>, prices: map<string, Quote>): real
  {
    if hs == [] then 0.0 else QuotedValue(hs[..|hs| - 1], prices) + QuotedHoldingValue(hs[|hs| - 1], prices)
  }

  /** The parent dashboard's profit or loss of one holding: only quoted holdings count. */
  function QuotedHoldingPnL(h: HeldStock, prices: map<string, Quote>): real
  {
    if h.symbol in prices then (prices[h.symbol].price - h.averageBuyPrice) * h.quantity as real else 0.0
  }

  function QuotedPnL(hs: seq<HeldStock>, prices: map<string, Quote>): real
  {
    if hs == [] then 0.0 else QuotedPnL(hs[..|hs| - 1], prices) + QuotedHoldingPnL(hs[|hs| - 1], prices)
  }

  // ---------------------------------------------------------------- Holdings

  /** The holdings page's summary cards. */
  datatype Totals = Totals(totalInvested: real, totalCurrent: real, totalPnL: real, numStocks: int)

  /** `calculateTotals`: one pass over the holdings accumulating what they
      cost and what they are worth now. */
  method CalculateTotals(hs: seq<HeldStock>, prices: map<string, Quote>) returns (t: Totals)
    ensures t.totalInvested == Invested(hs)
    ensures t.totalCurrent == MarketValue(hs, prices)
    ensures t.totalPnL == t.totalCurrent - t.totalInvested
    ensures t.numStocks == |hs|
  {
    var totalInvested := 0.0;
    var totalCurrent := 0.0;
    var numStocks := |hs|;
    var i := 0;
    while i < |hs|
      invariant 0 <= i <= |hs|
      invariant totalInvested == Invested(hs[..i])
      invariant totalCurrent == MarketValue(hs[..i], prices)
    {
      assert hs[..i + 1][..i] == hs[..i];
      totalInvested := totalInvested + hs[i].averageBuyPrice * hs[i].quantity as real;
      var currentPrice := CurrentPrice(hs[i], prices);
      totalCurrent := totalCurrent + currentPrice * hs[i].quantity as real;
      i := i + 1;
    }
    assert hs[..i] == hs;
    t := Totals(totalInvested, totalCurrent, totalCurrent - totalInvested, numStocks);
  }

  /** Without any usable quote every holding is worth what it cost. */
  lemma {:induction false} UnquotedWorthCost(hs: seq<HeldStock>, prices: map<string, Quote>)
    requires forall i :: 0 <= i < |hs| ==> hs[i].symbol !in prices || prices[hs[i].symbol].price == 0.0
    ensures MarketValue(hs, prices) == Invested(hs)
  {
    if hs != [] {
      UnquotedWorthCost(hs[..|hs| - 1], prices);
    }
  }

  datatype PnLFilter = AllHoldings | Profitable | Loss
  datatype SortBy = ByPnLPercent | ByValue | ByQuantity

  /** A holding's profit or loss at the current price. */
  function HoldingPnL(h: HeldStock, prices: map<string, Quote>): real
  {
    (CurrentPrice(h, prices) - h.averageBuyPrice) * h.quantity as real
  }

  /** The profit/loss filter: 'profitable' keeps a gain, 'loss' a loss,
      'all' everything. */
  function PassesFilter(filter: PnLFilter, pnl: real): (keep: bool)
    ensures filter == AllHoldings ==> keep
    ensures filter == Profitable ==> (keep <==> pnl > 0.0)
    ensures filter == Loss ==> (keep <==> pnl < 0.0)
  {
    match filter
    case Profitable => pnl > 0.0
    case Loss => pnl < 0.0
    case AllHoldings => true
  }

  /** A holding that neither gains nor loses shows only under 'all'. */
  lemma BreakEvenOnlyUnderAll(filter: PnLFilter, pnl: real)
    requires pnl == 0.0
    ensures PassesFilter(filter, pnl) <==> filter == AllHoldings
  {
  }

  /** The filter callback: the search first, then the profit/loss filter. */
  function Keeps(h: HeldStock, prices: map<string, Quote>, query: string, filter: PnLFilter): bool
  {
    MatchesSearch(h.symbol, h.companyName, query) && PassesFilter(filter, HoldingPnL(h, prices))
  }

  /** With an empty search and the 'all' filter every holding is kept, and
      under a filter a kept holding gains (or loses) at its shown price. */
  lemma KeepsMeaning(h: HeldStock, prices: map<string, Quote>, query: string, filter: PnLFilter)
    ensures query == "" && filter == AllHoldings ==> Keeps(h, prices, query, filter)
    ensures Keeps(h, prices, query, filter) && filter == Profitable ==> HoldingPnL(h, prices) > 0.0
    ensures Keeps(h, prices, query, filter) && filter == Loss ==> HoldingPnL(h, prices) < 0.0
  {
    if query == "" {
      EmptyQueryMatches(h.symbol, h.companyName);
    }
  }

  /** The comparator's key, largest first: P&L percent, current value or quantity. */
  function SortKey(sortBy: SortBy, prices: map<string, Quote>, h: HeldStock): (key: real)
    ensures sortBy == ByValue ==> key == MarketValue([h], prices)
    ensures sortBy == ByPnLPercent && h.averageBuyPrice != 0.0 ==>
              h.averageBuyPrice * (1.0 + key / 100.0) == CurrentPrice(h, prices)
    ensures sortBy == ByQuantity ==> key == h.quantity as real
  {
    match sortBy
    case ByPnLPercent =>
      if h.averageBuyPrice != 0.0 then (CurrentPrice(h, prices) - h.averageBuyPrice) / h.averageBuyPrice * 100.0 else 0.0
    case ByValue => CurrentPrice(h, prices) * h.quantity as real
    case ByQuantity => h.quantity as real
  }

  /** `getFilteredAndSortedHoldings`: the holdings the search and the filter
      keep, ordered by the chosen key from largest to smallest. Ordering by
      P&L percent divides by the average buy price, so it needs that to be
      non-zero. */
  function FilteredAndSorted(hs: seq<HeldStock>, prices: map<string, Quote>, query: string,
                             filter: PnLFilter, sortBy: SortBy): (r: seq<HeldStock>)
    requires sortBy == ByPnLPercent ==> forall i :: 0 <= i < |hs| ==> hs[i].averageBuyPrice != 0.0
    ensures SortedDescending(r, h => SortKey(sortBy, prices, h))
    ensures multiset(r) == multiset(Filter(hs, h => Keeps(h, prices, query, filter)))
  {
    SortDescending(Filter(hs, h => Keeps(h, prices, query, filter)), h => SortKey(sortBy, prices, h))
  }

  /** The result holds exactly the holdings that match the search and pass
      the filter, each as often as it occurs in the input. */
  lemma FilteredAndSortedMembers(hs: seq<HeldStock>, prices: map<string, Quote>, query: string,
                                 filter: PnLFilter, sortBy: SortBy, h: HeldStock)
    requires sortBy == ByPnLPercent ==> forall i :: 0 <= i < |hs| ==> hs[i].averageBuyPrice != 0.0
    ensures multiset(FilteredAndSorted(hs, prices, query, filter, sortBy))[h] ==
              if Keeps(h, prices, query, filter) then multiset(hs)[h] else 0
    ensures h in FilteredAndSorted(hs, prices, query, filter, sortBy) <==>
              h in hs && MatchesSearch(h.symbol, h.companyName, query) && PassesFilter(filter, HoldingPnL(h, prices))
  {
    var keep := h => Keeps(h, prices, query, filter);
    FilterMultiplicity(hs, keep, h);
    var r := FilteredAndSorted(hs, prices, query, filter, sortBy);
    assert h in r <==> multiset(r)[h] > 0;
  }

  /** The empty query under 'all' shows every holding, reordered. */
  lemma ShowAllReorders(hs: seq<HeldStock>, prices: map<string, Quote>, sortBy: SortBy)
    requires sortBy == ByPnLPercent ==> forall i :: 0 <= i < |hs| ==> hs[i].averageBuyPrice != 0.0
    ensures multiset(FilteredAndSorted(hs, prices, "", AllHoldings, sortBy)) == multiset(hs)
  {
    var keep := h => Keeps(h, prices, "", AllHoldings);
    forall h | h in hs ensures keep(h) {
      EmptyQueryMatches(h.symbol, h.companyName);
    }
    FilterKeepsAll(hs, keep);
  }

  // -------------------------------------------------------- StudentDashboard

  /** `calculatePortfolioValue` of the student dashboard: quantity times the
      current price, with the fallback to the average buy price. */
  method StudentPortfolioValue(hs: seq<HeldStock>, prices: map<string, Quote>) returns (total: real)
    ensures total == MarketValue(hs, prices)
  {
    total := 0.0;
    var i := 0;
    while i < |hs|
      invariant 0 <= i <= |hs|
      invariant total == MarketValue(hs[..i], prices)
    {
      assert hs[..i + 1][..i] == hs[..i];
      var currentPrice := CurrentPrice(hs[i], prices);
      total := total + hs[i].quantity as real * currentPrice;
      i := i + 1;
    }
    assert hs[..i] == hs;
  }

  /** `calculateTotalInvested`: quantity times average buy price. */
  method StudentTotalInvested(hs: seq<HeldStock>) returns (total: real)
    ensures total == Invested(hs)
  {
    total := 0.0;
    var i := 0;
    while i < |hs|
      invariant 0 <= i <= |hs|
      invariant total == Invested(hs[..i])
    {
      assert hs[..i + 1][..i] == hs[..i];
      total := total + hs[i].quantity as real * hs[i].averageBuyPrice;
      i := i + 1;
    }
    assert hs[..i] == hs;
  }

  /** The dashboard's headline figures. */
  datatype Overview = Overview(totalValue: real, overallPnL: real, overallPnLPercent: real)

  /** `totalValue`, `overallPnL` and `overallPnLPercent`: cash (0 while the
      profile is missing) plus holdings, measured against the starting cash. */
  function StudentOverview(cash: Option<real>, portfolioValue: real): (o: Overview)
    ensures o.totalValue == (if cash.Some? then cash.value else 0.0) + portfolioValue
    ensures o.overallPnL == o.totalValue - InitialVirtualCash
    ensures InitialVirtualCash * (1.0 + o.overallPnLPercent / 100.0) == o.totalValue
  {
    var totalValue := (if cash.Some? then cash.value else 0.0) + portfolioValue;
    Overview(totalValue, totalValue - 100000.0, (totalValue - 100000.0) / 100000.0 * 100.0)
  }

  /** The footer's P&L percent: relative to the amount invested, or 0 when
      nothing is invested. */
  function FooterPercent(portfolioValue: real, totalInvested: real): (pct: real)
    ensures totalInvested > 0.0 ==> totalInvested * (1.0 + pct / 100.0) == portfolioValue
    ensures totalInvested <= 0.0 ==> pct == 0.0
  {
    if totalInvested > 0.0 then (portfolioValue - totalInvested) / totalInvested * 100.0 else 0.0
  }

  /** `handleSellClick`: the trade dialog opens only for a quoted symbol. */
  function SellClickOpens(h: HeldStock, prices: map<string, Quote>): (opens: bool)
    ensures opens <==> h.symbol in prices
  {
    h.symbol in prices
  }

  /** The price the sell dialog trades at, when it opens: the quote's price
      or, for a quote priced 0, the stock's stored `current_price`. It is the
      price the holding is valued at unless the quote is priced 0, where the
      valuation falls back on the average buy price instead. */
  function SellDialogPrice(h: HeldStock, storedPrice: real, prices: map<string, Quote>): (r: Option<real>)
    ensures r.Some? <==> SellClickOpens(h, prices)
    ensures r.Some? && prices[h.symbol].price != 0.0 ==> r.value == CurrentPrice(h, prices)
    ensures r.Some? && prices[h.symbol].price == 0.0 ==> r.value == storedPrice
  {
    if h.symbol !in prices then None
    else if prices[h.symbol].price != 0.0 then Some(prices[h.symbol].price)
    else Some(storedPrice)
  }

  // --------------------------------------------------------- ParentDashboard

  /** `calculatePortfolioValue` of the parent dashboard. */
  method ParentPortfolioValue(hs: seq<HeldStock>, prices: map<string, Quote>) returns (total: real)
    ensures total == QuotedValue(hs, prices)
  {
    total := 0.0;
    var i := 0;
    while i < |hs|
      invariant 0 <= i <= |hs|
      invariant total == QuotedValue(hs[..i], prices)
    {
      assert hs[..i + 1][..i] == hs[..i];
      var h := hs[i];
      if h.symbol in prices {
        total := total + h.quantity as real * prices[h.symbol].price;
      } else {
        total := total + h.quantity as real * h.averageBuyPrice;
      }
      i := i + 1;
    }
    assert hs[..i] == hs;
  }

  /** `calculateTotalPnL`: only quoted holdings add their gain or loss. */
  method ParentTotalPnL(hs: seq<HeldStock>, prices: map<string, Quote>) returns (totalPnL: real)
    ensures totalPnL == QuotedPnL(hs, prices)
  {
    totalPnL := 0.0;
    var i := 0;
    while i < |hs|
      invariant 0 <= i <= |hs|
      invariant totalPnL == QuotedPnL(hs[..i], prices)
    {
      assert hs[..i + 1][..i] == hs[..i];
      var h := hs[i];
      if h.symbol in prices {
        var pnl := (prices[h.symbol].price - h.averageBuyPrice) * h.quantity as real;
        totalPnL := totalPnL + pnl;
      }
      i := i + 1;
    }
    assert hs[..i] == hs;
  }

  /** The parent's total P&L is the portfolio value less what the holdings cost. */
  lemma {:induction false} ParentPnLIsValueLessCost(hs: seq<HeldStock>, prices: map<string, Quote>)
    ensures QuotedPnL(hs, prices) == QuotedValue(hs, prices) - Invested(hs)
  {
    if hs != [] {
      var h := hs[|hs| - 1];
      ParentPnLIsValueLessCost(hs[..|hs| - 1], prices);
      assert QuotedHoldingPnL(h, prices) == QuotedHoldingValue(h, prices) - Cost(h);
    }
  }

  /** The two dashboards value a child's holdings alike unless a quote has
      price 0, which the student dashboard replaces by the cost. */
  lemma {:induction false} DashboardsAgree(hs: seq<HeldStock>, prices: map<string, Quote>)
    requires forall i :: 0 <= i < |hs| && hs[i].symbol in prices ==> prices[hs[i].symbol].price != 0.0
    ensures MarketValue(hs, prices) == QuotedValue(hs, prices)
  {
    if hs != [] {
      DashboardsAgree(hs[..|hs| - 1], prices);
    }
  }

  /** `totalValue` of the parent dashboard: the child's cash plus the holdings. */
  function ParentTotalValue(childCash: real, portfolioValue: real): (v: real)
    ensures v - portfolioValue == childCash
  {
    childCash + portfolioValue
  }

  /** The parent's total value splits into cash, what the holdings cost and
      the profit or loss the parent dashboard reports. */
  lemma ParentTotalValueParts(childCash: real, hs: seq<HeldStock>, prices: map<string, Quote>)
    ensures ParentTotalValue(childCash, QuotedValue(hs, prices)) == childCash + Invested(hs) + QuotedPnL(hs, prices)
  {
    ParentPnLIsValueLessCost(hs, prices);
  }

  /** Unless a held symbol is quoted at 0, the parent sees the total value
      the child's own dashboard shows. */
  lemma ParentSeesStudentTotal(childCash: real, hs: seq<HeldStock>, prices: map<string, Quote>)
    requires forall i :: 0 <= i < |hs| && hs[i].symbol in prices ==> prices[hs[i].symbol].price != 0.0
    ensures ParentTotalValue(childCash, QuotedValue(hs, prices))
            == StudentOverview(Some(childCash), MarketValue(hs, prices)).totalValue
  {
    DashboardsAgree(hs, prices);
  }
}
