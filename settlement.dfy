/** Trade settlement as the trade modal performs it (src/components/BuySellModal.tsx):
    one buy or sell at the freshly fetched price changes the cash balance, the
    holding of that stock (created, updated in place or deleted) and the
    append-only transaction ledger.

    `Buy` and `Sell` say what a settlement does to a `Portfolio` value;
    `Account.Submit` performs the same writes in the source's order on mutable
    state and is proved to agree with them. */
module Settlement {
  import opened Common

  datatype TradeKind = BuyOrder | SellOrder

  datatype TxType = BUY | SELL

  /** One row of the transactions table. */
  datatype Tx = Tx(stockId: int, txType: TxType, quantity: int, pricePerShare: real, totalAmount: real)

  /** One row of the holdings table, for a fixed user, keyed by stock id. */
  datatype Position = Position(quantity: int, averageBuyPrice: real)

  /** What one user owns: virtual cash, holdings by stock id, and the ledger in insertion order. */
  datatype Portfolio = Portfolio(cash: real, holdings: map<int, Position>, ledger: seq<Tx>)

  datatype TradeError = PriceUnavailable | InsufficientFunds | InsufficientShares

  /** Shares held of one stock; no holding row means none. */
  function Shares(p: Portfolio, stockId: int): int
  {
    if stockId in p.holdings then p.holdings[stockId].quantity else 0
  }

  /** A buy of `quantity` shares at `price` (BuySellModal.tsx:52-102). */
  function Buy(p: Portfolio, stockId: int, quantity: int, price: real): (r: Result<Portfolio, TradeError>)
    requires quantity >= 1
    ensures r.Failure? <==> quantity as real * price > p.cash
    ensures r.Failure? ==> r.error == InsufficientFunds
    ensures r.Success? ==>
      && r.value.cash == p.cash - quantity as real * price
      && r.value.ledger == p.ledger + [Tx(stockId, BUY, quantity, price, quantity as real * price)]
      && r.value.holdings - {stockId} == p.holdings - {stockId}
      && stockId in r.value.holdings
      && (Shares(p, stockId) >= 0 ==> Shares(r.value, stockId) == Shares(p, stockId) + quantity)
  {
    var total := quantity as real * price;
    if total > p.cash then Failure(InsufficientFunds)
    else
      var position :=
        if stockId in p.holdings && p.holdings[stockId].quantity > 0 then
          var h := p.holdings[stockId];
          var newQuantity := h.quantity + quantity;
          Position(newQuantity,
                   (h.averageBuyPrice * h.quantity as real + price * quantity as real) / newQuantity as real)
        else
          Position(quantity, price);
      Success(Portfolio(p.cash - total, p.holdings[stockId := position],
                        p.ledger + [Tx(stockId, BUY, quantity, price, total)]))
  }

  /** A sell of `quantity` shares at `price` (BuySellModal.tsx:103-145). */
  function Sell(p: Portfolio, stockId: int, quantity: int, price: real): (r: Result<Portfolio, TradeError>)
    requires quantity >= 1
    ensures r.Failure? <==> stockId !in p.holdings || quantity > p.holdings[stockId].quantity
    ensures r.Failure? ==> r.error == InsufficientShares
    ensures r.Success? ==>
      && r.value.cash == p.cash + quantity as real * price
      && r.value.ledger == p.ledger + [Tx(stockId, SELL, quantity, price, quantity as real * price)]
      && r.value.holdings - {stockId} == p.holdings - {stockId}
      && Shares(r.value, stockId) == Shares(p, stockId) - quantity
      && (stockId in r.value.holdings <==> Shares(r.value, stockId) != 0)
      && (stockId in r.value.holdings ==>
            r.value.holdings[stockId].averageBuyPrice == p.holdings[stockId].averageBuyPrice)
  {
    if stockId !in p.holdings || quantity > p.holdings[stockId].quantity then Failure(InsufficientShares)
    else
      var total := quantity as real * price;
      var h := p.holdings[stockId];
      var newQuantity := h.quantity - quantity;
      var holdings :=
        if newQuantity == 0 then p.holdings - {stockId}
        else p.holdings[stockId := Position(newQuantity, h.averageBuyPrice)];
      Success(Portfolio(p.cash + total, holdings, p.ledger + [Tx(stockId, SELL, quantity, price, total)]))
  }

  /** The trade the dialog submits: refused exactly when the guard of its
      kind fails, and otherwise one more record on the ledger. */
  function Settle(p: Portfolio, kind: TradeKind, stockId: int, quantity: int, price: real): (r: Result<Portfolio, TradeError>)
    requires quantity >= 1
    ensures r.Failure? <==>
              || (kind == BuyOrder && quantity as real * price > p.cash)
              || (kind == SellOrder && (stockId !in p.holdings || quantity > p.holdings[stockId].quantity))
    ensures r.Success? ==> |r.value.ledger| == |p.ledger| + 1 && r.value.ledger[..|p.ledger|] == p.ledger
  {
    match kind
    case BuyOrder => Buy(p, stockId, quantity, price)
    case SellOrder => Sell(p, stockId, quantity, price)
  }

  // ----- What the ledger says about the cash and the holdings -----

  function CashDelta(tx: Tx): real
  {
    if tx.txType == BUY then -tx.totalAmount else tx.totalAmount
  }

  function SharesDelta(tx: Tx, stockId: int): int
  {
    if tx.stockId != stockId then 0
    else if tx.txType == BUY then tx.quantity
    else -tx.quantity
  }

  /** Sum of SELL totals minus sum of BUY totals. */
  function CashFlow(ledger: seq<Tx>): real
  {
    if ledger == [] then 0.0 else CashFlow(ledger[..|ledger| - 1]) + CashDelta(ledger[|ledger| - 1])
  }

  /** Shares bought minus shares sold of one stock. */
  function NetShares(ledger: seq<Tx>, stockId: int): int
  {
    if ledger == [] then 0 else NetShares(ledger[..|ledger| - 1], stockId) + SharesDelta(ledger[|ledger| - 1], stockId)
  }

  lemma LedgerAppend(ledger: seq<Tx>, tx: Tx)
    ensures CashFlow(ledger + [tx]) == CashFlow(ledger) + CashDelta(tx)
    ensures forall id :: NetShares(ledger + [tx], id) == NetShares(ledger, id) + SharesDelta(tx, id)
  {
    assert (ledger + [tx])[..|ledger|] == ledger;
  }

  /** The account invariant: no holding row with zero shares, the cash is the
      opening cash replayed through the ledger, and every holding's quantity is
      what the ledger bought minus what it sold. */
  ghost predicate Consistent(p: Portfolio, openingCash: real)
  {
    && (forall id :: id in p.holdings ==> p.holdings[id].quantity > 0)
    && p.cash == openingCash + CashFlow(p.ledger)
    && (forall id :: Shares(p, id) == NetShares(p.ledger, id))
  }

  /** Every accepted trade keeps the account invariant. */
  lemma {:induction false} SettlePreservesConsistency(p: Portfolio, openingCash: real, kind: TradeKind,
                                                       stockId: int, quantity: int, price: real)
    requires quantity >= 1
    requires Consistent(p, openingCash)
    requires Settle(p, kind, stockId, quantity, price).Success?
    ensures Consistent(Settle(p, kind, stockId, quantity, price).value, openingCash)
  {
    var q := Settle(p, kind, stockId, quantity, price).value;
    var tx := q.ledger[|q.ledger| - 1];
    assert q.ledger == p.ledger + [tx];
    LedgerAppend(p.ledger, tx);
    forall id ensures Shares(q, id) == NetShares(q.ledger, id) {
      if id != stockId {
        assert (id in q.holdings <==> id in p.holdings);
        assert Shares(q, id) == Shares(p, id);
      }
    }
  }

  /** Cash stays non-negative and average prices stay positive when trades
      execute at positive prices. */
  ghost predicate Solvent(p: Portfolio)
  {
    p.cash >= 0.0 && forall id :: id in p.holdings ==> p.holdings[id].quantity > 0 && p.holdings[id].averageBuyPrice > 0.0
  }

  lemma {:induction false} SettlePreservesSolvency(p: Portfolio, kind: TradeKind, stockId: int, quantity: int, price: real)
    requires quantity >= 1 && price > 0.0
    requires Solvent(p)
    requires Settle(p, kind, stockId, quantity, price).Success?
    ensures Solvent(Settle(p, kind, stockId, quantity, price).value)
  {
    var q := Settle(p, kind, stockId, quantity, price).value;
    if kind == BuyOrder && stockId in p.holdings {
      var h := p.holdings[stockId];
      var n := h.quantity + quantity;
      assert h.averageBuyPrice * h.quantity as real > 0.0;
      assert price * quantity as real > 0.0;
      assert q.holdings[stockId].averageBuyPrice
          == (h.averageBuyPrice * h.quantity as real + price * quantity as real) / n as real;
    }
  }

  // ----- The weighted average cost -----

  /** Buying into an existing holding blends the average cost by quantity. */
  lemma BuyAverage(p: Portfolio, stockId: int, quantity: int, price: real)
    requires quantity >= 1
    requires stockId in p.holdings && p.holdings[stockId].quantity > 0
    requires Buy(p, stockId, quantity, price).Success?
    ensures var h := p.holdings[stockId];
            var h' := Buy(p, stockId, quantity, price).value.holdings[stockId];
            && h'.quantity == h.quantity + quantity
            && h'.averageBuyPrice * h'.quantity as real == h.averageBuyPrice * h.quantity as real + price * quantity as real
  {
    var h := p.holdings[stockId];
    var n := (h.quantity + quantity) as real;
    var a := h.averageBuyPrice * h.quantity as real + price * quantity as real;
    assert (a / n) * n == a;
  }

  /** Buying with no holding opens one at the execution price. */
  lemma BuyOpensPosition(p: Portfolio, stockId: int, quantity: int, price: real)
    requires quantity >= 1
    requires stockId !in p.holdings
    requires Buy(p, stockId, quantity, price).Success?
    ensures Buy(p, stockId, quantity, price).value.holdings[stockId] == Position(quantity, price)
  {
  }

  datatype Lot = Lot(quantity: int, price: real)

  function LotQuantity(lots: seq<Lot>): int
  {
    if lots == [] then 0 else LotQuantity(lots[..|lots| - 1]) + lots[|lots| - 1].quantity
  }

  function LotCost(lots: seq<Lot>): real
  {
    if lots == [] then 0.0 else LotCost(lots[..|lots| - 1]) + lots[|lots| - 1].quantity as real * lots[|lots| - 1].price
  }

  predicate PositiveLots(lots: seq<Lot>)
  {
    forall i :: 0 <= i < |lots| ==> lots[i].quantity >= 1
  }

  /** Buys of the lots, one after another, stopping at the first rejection. */
  function BuyLots(p: Portfolio, stockId: int, lots: seq<Lot>): Result<Portfolio, TradeError>
    requires PositiveLots(lots)
  {
    if lots == [] then Success(p)
    else
      match BuyLots(p, stockId, lots[..|lots| - 1])
      case Failure(e) => Failure(e)
      case Success(q) => Buy(q, stockId, lots[|lots| - 1].quantity, lots[|lots| - 1].price)
  }

  /** Buying lots q1@p1, ..., qn@pn into an empty position leaves quantity
      q1+...+qn and average cost (q1*p1 + ... + qn*pn) / (q1+...+qn),
      whatever the order of the lots. */
  lemma {:induction false} AverageOfBuys(p: Portfolio, stockId: int, lots: seq<Lot>)
    requires PositiveLots(lots) && lots != []
    requires stockId !in p.holdings
    requires BuyLots(p, stockId, lots).Success?
    ensures var h := BuyLots(p, stockId, lots).value.holdings[stockId];
            && h.quantity == LotQuantity(lots)
            && h.averageBuyPrice == LotCost(lots) / LotQuantity(lots) as real
  {
    AverageOfBuysScaled(p, stockId, lots);
    ScaledToAverage(BuyLots(p, stockId, lots).value, stockId, lots);
  }

  lemma ScaledToAverage(q: Portfolio, stockId: int, lots: seq<Lot>)
    requires ScaledAverage(q, stockId, lots)
    ensures q.holdings[stockId].averageBuyPrice == LotCost(lots) / LotQuantity(lots) as real
  {
    DivideBack(q.holdings[stockId].averageBuyPrice, LotQuantity(lots) as real, LotCost(lots));
  }

  lemma DivideBack(a: real, n: real, c: real)
    requires n > 0.0 && a * n == c
    ensures a == c / n
  {
  }

  /** The position bought so far, scaled: quantity is the lots' total and
      average times quantity is the lots' total cost. */
  predicate ScaledAverage(q: Portfolio, stockId: int, lots: seq<Lot>)
  {
    && stockId in q.holdings
    && q.holdings[stockId].quantity == LotQuantity(lots) >= 1
    && q.holdings[stockId].averageBuyPrice * LotQuantity(lots) as real == LotCost(lots)
  }

  lemma {:induction false} AverageOfBuysScaled(p: Portfolio, stockId: int, lots: seq<Lot>)
    requires PositiveLots(lots) && lots != []
    requires stockId !in p.holdings
    requires BuyLots(p, stockId, lots).Success?
    ensures ScaledAverage(BuyLots(p, stockId, lots).value, stockId, lots)
  {
    var init := lots[..|lots| - 1];
    assert PositiveLots(init);
    if init == [] {
      assert lots == [lots[0]];
      assert BuyLots(p, stockId, lots) == Buy(p, stockId, lots[0].quantity, lots[0].price) by {
        assert init == [];
      }
      FirstLot(p, stockId, lots[0]);
    } else {
      AverageOfBuysScaled(p, stockId, init);
      AverageStep(p, stockId, lots);
    }
  }

  lemma FirstLot(p: Portfolio, stockId: int, lot: Lot)
    requires lot.quantity >= 1
    requires stockId !in p.holdings
    requires lot.quantity as real * lot.price <= p.cash
    ensures PositiveLots([lot]) && BuyLots(p, stockId, [lot]).Success?
    ensures ScaledAverage(BuyLots(p, stockId, [lot]).value, stockId, [lot])
  {
    assert [lot][..0] == [];
    assert BuyLots(p, stockId, [lot]) == Buy(p, stockId, lot.quantity, lot.price);
    BuyOpensPosition(p, stockId, lot.quantity, lot.price);
  }

  /** One more lot: the scaled average of the position bought so far extends by that lot. */
  lemma AverageStep(p: Portfolio, stockId: int, lots: seq<Lot>)
    requires PositiveLots(lots) && |lots| >= 2
    requires BuyLots(p, stockId, lots).Success?
    requires BuyLots(p, stockId, lots[..|lots| - 1]).Success?
    requires ScaledAverage(BuyLots(p, stockId, lots[..|lots| - 1]).value, stockId, lots[..|lots| - 1])
    ensures ScaledAverage(BuyLots(p, stockId, lots).value, stockId, lots)
  {
    var init := lots[..|lots| - 1];
    var last := lots[|lots| - 1];
    var q0 := BuyLots(p, stockId, init).value;
    assert BuyLots(p, stockId, lots) == Buy(q0, stockId, last.quantity, last.price);
    BuyAverage(q0, stockId, last.quantity, last.price);
  }

  /** The two-buy case: q1@p1 then q2@p2 from no holding averages to
      (q1*p1 + q2*p2) / (q1 + q2). */
  lemma TwoBuysAverage(p: Portfolio, stockId: int, q1: int, p1: real, q2: int, p2: real)
    requires q1 >= 1 && q2 >= 1
    requires stockId !in p.holdings
    requires BuyLots(p, stockId, [Lot(q1, p1), Lot(q2, p2)]).Success?
    ensures BuyLots(p, stockId, [Lot(q1, p1), Lot(q2, p2)]).value.holdings[stockId]
         == Position(q1 + q2, (q1 as real * p1 + q2 as real * p2) / (q1 + q2) as real)
  {
    var lots := [Lot(q1, p1), Lot(q2, p2)];
    TwoLots(q1, p1, q2, p2);
    AverageOfBuys(p, stockId, lots);
  }

  /** The totals of two lots. */
  lemma TwoLots(q1: int, p1: real, q2: int, p2: real)
    ensures LotQuantity([Lot(q1, p1), Lot(q2, p2)]) == q1 + q2
    ensures LotCost([Lot(q1, p1), Lot(q2, p2)]) == q1 as real * p1 + q2 as real * p2
  {
    var lots := [Lot(q1, p1), Lot(q2, p2)];
    assert lots[..1] == [Lot(q1, p1)];
    assert [Lot(q1, p1)][..0] == [];
    assert LotQuantity([Lot(q1, p1)]) == q1;
    assert LotCost([Lot(q1, p1)]) == q1 as real * p1;
  }

  /** Buying n shares at p and selling them straight back at p restores the
      cash and removes the holding. */
  lemma RoundTrip(p: Portfolio, stockId: int, n: int, price: real)
    requires n >= 1
    requires stockId !in p.holdings
    requires Buy(p, stockId, n, price).Success?
    ensures var afterBuy := Buy(p, stockId, n, price).value;
            var afterSell := Sell(afterBuy, stockId, n, price);
            && afterSell.Success?
            && afterSell.value.cash == p.cash
            && afterSell.value.holdings == p.holdings
            && afterSell.value.ledger == p.ledger + [Tx(stockId, BUY, n, price, n as real * price),
                                                     Tx(stockId, SELL, n, price, n as real * price)]
  {
    var afterBuy := Buy(p, stockId, n, price).value;
    assert afterBuy.holdings[stockId] == Position(n, price);
    assert afterBuy.holdings - {stockId} == p.holdings;
  }

  // ----- The values the modal shows before submitting (BuySellModal.tsx:27-33, 204, 266-270) -----

  /** `quantity * currentPrice`, the order total the dialog shows. */
  function TotalAmount(quantity: int, currentPrice: real): real
  {
    quantity as real * currentPrice
  }

  /** What the dialog shows before submitting is what the trade then does at
      that price: the total is the amount recorded on the ledger and the
      amount the cash moves by, and a buy's remaining cash is the cash left. */
  lemma ShownAmountsMatchTrade(p: Portfolio, kind: TradeKind, stockId: int, quantity: int, price: real)
    requires quantity >= 1
    requires Settle(p, kind, stockId, quantity, price).Success?
    ensures var q := Settle(p, kind, stockId, quantity, price).value;
            && q.ledger[|p.ledger|].totalAmount == TotalAmount(quantity, price)
            && (kind == BuyOrder ==> q.cash == RemainingCash(Some(p.cash), quantity, price))
            && (kind == SellOrder ==> q.cash == p.cash + TotalAmount(quantity, price))
  {
  }

  /** `(profile?.virtual_cash || 0) - totalAmount`; no profile reads as 0 cash. */
  function RemainingCash(cash: Option<real>, quantity: int, currentPrice: real): (r: real)
    ensures cash.None? ==> r == -TotalAmount(quantity, currentPrice)
    ensures cash.Some? ==> r + TotalAmount(quantity, currentPrice) == cash.value
  {
    (if cash.Some? then cash.value else 0.0) - TotalAmount(quantity, currentPrice)
  }

  /** Profit or loss quoted for a sell: against the holding's average cost, 0 otherwise. */
  function ProfitLoss(kind: TradeKind, holding: Option<Position>, quantity: int, currentPrice: real): (r: real)
    ensures kind == BuyOrder || holding.None? ==> r == 0.0
    ensures kind == SellOrder && holding.Some? && currentPrice >= holding.value.averageBuyPrice && quantity >= 0 ==> r >= 0.0
    ensures kind == SellOrder && holding.Some? && currentPrice < holding.value.averageBuyPrice && quantity >= 1 ==> r < 0.0
  {
    if kind == SellOrder && holding.Some? then (currentPrice - holding.value.averageBuyPrice) * quantity as real else 0.0
  }

  /** The quoted amount for a sell is the gain the sale then makes: the
      proceeds credited to the cash less what those shares cost. */
  lemma ProfitLossIsSaleGain(p: Portfolio, stockId: int, quantity: int, price: real)
    requires quantity >= 1 && stockId in p.holdings
    requires Sell(p, stockId, quantity, price).Success?
    ensures ProfitLoss(SellOrder, Some(p.holdings[stockId]), quantity, price)
            == (Sell(p, stockId, quantity, price).value.cash - p.cash)
               - p.holdings[stockId].averageBuyPrice * quantity as real
  {
  }

  /** `holding?.quantity || 0`. */
  function MaxSellQuantity(holding: Option<Position>): (r: int)
    ensures holding.None? ==> r == 0
    ensures holding.Some? ==> r == holding.value.quantity
  {
    if holding.Some? then holding.value.quantity else 0
  }

  /** `Math.max(1, parseInt(text) || 1)`: `parsed` is parseInt's result, None for NaN. */
  function ClampQuantity(parsed: Option<int>): (q: int)
    ensures q >= 1
    ensures parsed.Some? && parsed.value >= 1 ==> q == parsed.value
    ensures parsed.None? || parsed.value < 1 ==> q == 1
  {
    var v := if parsed.Some? && parsed.value != 0 then parsed.value else 1;
    if v > 1 then v else 1
  }

  /** The submit button is disabled while loading, for a buy the remaining
      cash would be negative, and for a sell more than the held quantity. */
  function SubmitDisabled(loading: bool, kind: TradeKind, cash: Option<real>, holding: Option<Position>,
                          quantity: int, currentPrice: real): bool
  {
    || loading
    || (kind == BuyOrder && RemainingCash(cash, quantity, currentPrice) < 0.0)
    || (kind == SellOrder && quantity > MaxSellQuantity(holding))
  }

  /** When the shown price is the execution price and the shown cash and holding
      are the stored ones, the button is enabled exactly for the trades that
      are accepted: an enabled submit is never rejected, and a disabled one
      would have been. */
  lemma SubmitEnabledIffAccepted(p: Portfolio, kind: TradeKind, stockId: int, quantity: int, price: real)
    requires quantity >= 1
    ensures !SubmitDisabled(false, kind, Some(p.cash), if stockId in p.holdings then Some(p.holdings[stockId]) else None,
                            quantity, price)
            <==> Settle(p, kind, stockId, quantity, price).Success?
  {
  }

  /** A sell button that the guard leaves enabled implies a holding with enough
      shares; with no holding every quantity is refused. */
  lemma {:induction false} SellWithoutHoldingDisabled(kind: TradeKind, cash: Option<real>, quantity: int, price: real)
    requires kind == SellOrder && quantity >= 1
    ensures SubmitDisabled(false, kind, cash, None, quantity, price)
  {
  }

  // ----- The account as the store holds it -----

  class Account {
    var cash: real
    var holdings: map<int, Position>
    var ledger: seq<Tx>
    ghost const openingCash: real

    function State(): Portfolio
      reads this
    {
      Portfolio(cash, holdings, ledger)
    }

    ghost predicate Valid()
      reads this
    {
      Consistent(State(), openingCash)
    }

    /** A profile row created with `startingCash` and nothing else. */
    constructor (startingCash: real)
      ensures Valid()
      ensures State() == Portfolio(startingCash, map[], [])
      ensures openingCash == startingCash
    {
      cash, holdings, ledger := startingCash, map[], [];
      openingCash := startingCash;
    }

    /** handleSubmit: `latestPrice` is the re-fetched quote's price, None when
        the fetch gave nothing. A rejection writes nothing; an accepted trade
        inserts the transaction, updates the cash and then inserts, updates or
        deletes the holding, as one step. */
    method Submit(kind: TradeKind, stockId: int, quantity: int, latestPrice: Option<real>)
      returns (error: Option<TradeError>)
      requires Valid()
      requires quantity >= 1
      modifies this
      ensures Valid()
      ensures latestPrice.None? ==> error == Some(PriceUnavailable) && State() == old(State())
      ensures latestPrice.Some? ==>
        var r := Settle(old(State()), kind, stockId, quantity, latestPrice.value);
        && (r.Failure? ==> error == Some(r.error) && State() == old(State()))
        && (r.Success? ==> error.None? && State() == r.value)
    {
      if latestPrice.None? {
        return Some(PriceUnavailable);
      }
      var price := latestPrice.value;
      var total := quantity as real * price;
      ghost var before := State();
      if kind == BuyOrder {
        if total > cash {
          return Some(InsufficientFunds);
        }
        RecordBuy(stockId, quantity, price);
      } else {
        if stockId !in holdings || quantity > holdings[stockId].quantity {
          return Some(InsufficientShares);
        }
        RecordSell(stockId, quantity, price);
      }
      SettlePreservesConsistency(before, openingCash, kind, stockId, quantity, price);
      error := None;
    }

    /** The writes of an accepted buy: the BUY transaction, the debit, and the
        holding inserted at the execution price or re-averaged in place. */
    method RecordBuy(stockId: int, quantity: int, price: real)
      requires quantity >= 1 && quantity as real * price <= cash
      modifies this
      ensures Buy(old(State()), stockId, quantity, price).Success?
      ensures State() == Buy(old(State()), stockId, quantity, price).value
    {
      ghost var before := State();
      var total := quantity as real * price;
      ledger := ledger + [Tx(stockId, BUY, quantity, price, total)];
      cash := cash - total;
      if stockId in holdings && holdings[stockId].quantity > 0 {
        var h := holdings[stockId];
        var newQuantity := h.quantity + quantity;
        var newAvgPrice := (h.averageBuyPrice * h.quantity as real + price * quantity as real) / newQuantity as real;
        assert h == before.holdings[stockId];
        assert Buy(before, stockId, quantity, price).value.holdings[stockId] == Position(newQuantity, newAvgPrice);
        holdings := holdings[stockId := Position(newQuantity, newAvgPrice)];
      } else {
        holdings := holdings[stockId := Position(quantity, price)];
      }
    }

    /** The writes of an accepted sell: the SELL transaction, the credit, and
        the holding reduced in place or deleted when no share is left. */
    method RecordSell(stockId: int, quantity: int, price: real)
      requires quantity >= 1 && stockId in holdings && quantity <= holdings[stockId].quantity
      modifies this
      ensures Sell(old(State()), stockId, quantity, price).Success?
      ensures State() == Sell(old(State()), stockId, quantity, price).value
    {
      var total := quantity as real * price;
      var h := holdings[stockId];
      ledger := ledger + [Tx(stockId, SELL, quantity, price, total)];
      cash := cash + total;
      var newQuantity := h.quantity - quantity;
      if newQuantity == 0 {
        holdings := holdings - {stockId};
      } else {
        holdings := holdings[stockId := Position(newQuantity, h.averageBuyPrice)];
      }
    }
  }

  /** The account walk-through. Starting from 1000 cash, buying 10@100 spends all
      of it, so a following buy of 10@120 is rejected; from 2200 cash the two buys
      average to 110, selling 15@130 keeps that average, and selling the last 5@110
      removes the holding with 2500 cash. */
  lemma Walkthrough()
    ensures var p1 := Buy(Portfolio(1000.0, map[], []), 7, 10, 100.0);
            && p1.Success? && p1.value.cash == 0.0 && p1.value.holdings[7] == Position(10, 100.0)
            && Buy(p1.value, 7, 10, 120.0) == Failure(InsufficientFunds)
    ensures var p2 := Buy(Portfolio(1200.0, map[7 := Position(10, 100.0)], []), 7, 10, 120.0);
            p2.Success? && p2.value.cash == 0.0 && p2.value.holdings[7] == Position(20, 110.0)
    ensures var p3 := Sell(Portfolio(0.0, map[7 := Position(20, 110.0)], []), 7, 15, 130.0);
            p3.Success? && p3.value.cash == 1950.0 && p3.value.holdings[7] == Position(5, 110.0)
    ensures var p4 := Sell(Portfolio(1950.0, map[7 := Position(5, 110.0)], []), 7, 5, 110.0);
            p4.Success? && p4.value.cash == 2500.0 && 7 !in p4.value.holdings
    ensures Buy(Portfolio(50.0, map[], []), 7, 1, 100.0) == Failure(InsufficientFunds)
  {
    assert (100.0 * 10.0 + 120.0 * 10.0) / 20.0 == 110.0;
  }
}
