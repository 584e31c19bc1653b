/** Shapes shared by the price layer, the trade engine and the pages:
    the optional value, the success-or-error result, a JavaScript number as
    a division can leave it, the quote record and a draw of Math.random. */
module Common {

  datatype Option<+T> = None | Some(value: T)

  datatype Result<+R, +E> = Success(value: R) | Failure(error: E)

  /** A number as JavaScript division produces it: finite, an infinity, or NaN. */
  datatype JsNumber = Finite(value: real) | PosInfinity | NegInfinity | NaN
  {
    /** `x * k` for a positive constant k. */
    function Times(k: real): (r: JsNumber)
      requires k > 0.0
      ensures Finite? ==> r == Finite(value * k)
      ensures !Finite? ==> r == this
    {
      if Finite? then Finite(value * k) else this
    }
  }

  /** `a / b` on JavaScript numbers: dividing by zero gives an infinity, or NaN for 0/0. */
  function JsDivide(a: real, b: real): (r: JsNumber)
    ensures r.Finite? <==> b != 0.0
    ensures r.Finite? ==> r.value * b == a
    ensures r == NaN <==> a == 0.0 && b == 0.0
  {
    if b != 0.0 then Finite(a / b)
    else if a == 0.0 then NaN
    else if a > 0.0 then PosInfinity
    else NegInfinity
  }

  /** `x || fallback` on a JavaScript number: 0 and NaN are falsy. */
  function OrElse(x: JsNumber, fallback: real): (r: JsNumber)
    ensures x == Finite(0.0) || x == NaN ==> r == Finite(fallback)
    ensures x != Finite(0.0) && x != NaN ==> r == x
    ensures r != NaN
    ensures fallback != 0.0 ==> r != Finite(0.0)
  {
    if x == Finite(0.0) || x == NaN then Finite(fallback) else x
  }

  /** Falling back twice on the same value is falling back once: the first
      fallback already leaves a value that is never NaN, and is 0 only when
      the fallback itself is 0. */
  lemma OrElseIdempotent(x: JsNumber, fallback: real)
    ensures OrElse(OrElse(x, fallback), fallback) == OrElse(x, fallback)
  {
  }

  /** The reference prices both price modules fall back on, one per stock with
      historical data (src/lib/yahooFinance.ts:28-70, src/lib/stockPrices.ts:8-50
      carry the same table). */
  const FallbackPrices: map<string, real> :=
    map[
      "RELIANCE" := 2456.50,
      "TCS" := 3678.25,
      "HDFCBANK" := 1632.75,
      "INFY" := 1456.80,
      "ICICIBANK" := 945.30,
      "HINDUNILVR" := 2587.60,
      "ITC" := 456.75,
      "SBIN" := 612.40,
      "BHARTIARTL" := 1234.80,
      "KOTAKBANK" := 1789.50,
      "LT" := 3456.20,
      "AXISBANK" := 1045.60,
      "ASIANPAINT" := 3201.40,
      "MARUTI" := 11234.50,
      "SUNPHARMA" := 1456.30,
      "TITAN" := 3456.70,
      "ULTRACEMCO" := 9876.40,
      "BAJFINANCE" := 6543.20,
      "NESTLEIND" := 23456.80,
      "HCLTECH" := 1234.50,
      "WIPRO" := 456.80,
      "POWERGRID" := 234.60,
      "NTPC" := 345.20,
      "ONGC" := 234.50,
      "COALINDIA" := 345.60,
      "TATAMOTORS" := 876.40,
      "TATASTEEL" := 134.50,
      "JSWSTEEL" := 876.30,
      "INDUSINDBK" := 1345.60,
      "ADANIPORTS" := 1234.50,
      "TECHM" := 1234.50,
      "BAJAJFINSV" := 1567.80,
      "DRREDDY" := 5678.40,
      "CIPLA" := 1234.50,
      "EICHERMOT" := 4567.30,
      "HEROMOTOCO" := 4321.50,
      "GRASIM" := 2345.60,
      "BRITANNIA" := 4876.50,
      "BAJAJ-AUTO" := 8765.30,
      "HINDALCO" := 567.40,
      "BPCL" := 567.80
    ]

  const DefaultBasePrice: real := 1000.0

  /** `FALLBACK_PRICES[symbol] || 1000`: the table price, or 1000 for a symbol
      the table does not know (a zero entry would also fall through). */
  function BasePrice(symbol: string): (b: real)
    ensures b > 0.0
    ensures symbol in FallbackPrices ==> b == FallbackPrices[symbol]
    ensures symbol !in FallbackPrices ==> b == DefaultBasePrice
  {
    if symbol in FallbackPrices && FallbackPrices[symbol] != 0.0 then FallbackPrices[symbol] else DefaultBasePrice
  }

  /** A synthetic quote around a base price: the price is the base moved by
      the variation `(r - 0.5) * factor`, the previous close is the base, the
      change is their difference and the change percent is the change over
      the base, times 100. */
  function SyntheticQuote(symbol: string, base: real, r: Draw, factor: real, now: int): (q: Quote)
    ensures q.symbol == symbol && q.lastUpdated == now
    ensures q.previousClose == base
    ensures q.change == q.price - q.previousClose
  {
    var price := base * (1.0 + (r - 0.5) * factor);
    Quote(symbol, price, base, price - base, JsDivide(price - base, base).Times(100.0), now)
  }

  /** Around a positive base, the synthetic price moves by at most half the
      factor either way and the change percent is finite and at most
      `factor * 50` in size. */
  lemma SyntheticQuoteBounds(symbol: string, base: real, r: Draw, factor: real, now: int)
    requires base > 0.0 && 0.0 <= factor
    ensures var q := SyntheticQuote(symbol, base, r, factor, now);
            && base * (1.0 - factor / 2.0) <= q.price <= base * (1.0 + factor / 2.0)
            && q.changePercent == Finite((r - 0.5) * factor * 100.0)
            && -factor * 50.0 <= q.changePercent.value <= factor * 50.0
  {
    var variation := (r - 0.5) * factor;
    VariationBounds(r, factor);
    ScaleBounds(base, variation, factor / 2.0);
    PercentBounds(variation, factor);
  }

  lemma VariationBounds(r: Draw, factor: real)
    requires 0.0 <= factor
    ensures -(factor / 2.0) <= (r - 0.5) * factor <= factor / 2.0
  {
    assert (r - 0.5) * factor + factor / 2.0 == r * factor;
    assert factor / 2.0 - (r - 0.5) * factor == (1.0 - r) * factor;
  }

  lemma PercentBounds(variation: real, factor: real)
    requires -(factor / 2.0) <= variation <= factor / 2.0
    ensures -factor * 50.0 <= variation * 100.0 <= factor * 50.0
  {
  }

  lemma ScaleBounds(base: real, variation: real, half: real)
    requires base > 0.0 && -half <= variation <= half
    ensures base * (1.0 - half) <= base * (1.0 + variation) <= base * (1.0 + half)
    ensures (base * (1.0 + variation) - base) / base == variation
  {
    assert base * (1.0 + variation) - base == base * variation;
    assert base * (1.0 + half) - base * (1.0 + variation) == base * (half - variation);
    assert base * (1.0 + variation) - base * (1.0 - half) == base * (variation + half);
  }

  /** A result of Math.random(): a real in [0, 1). */
  type Draw = r: real | 0.0 <= r < 1.0 witness 0.0

  /** The StockPrice record (src/lib/types.ts): a quote for one symbol.
      `lastUpdated` is the time, in milliseconds, at which the quote was built. */
  datatype Quote = Quote(
    symbol: string,
    price: real,
    previousClose: real,
    change: real,
    changePercent: JsNumber,
    lastUpdated: int)

  /** The virtual cash a new student profile starts with, and the baseline
      against which the dashboard measures overall profit or loss. */
  const InitialVirtualCash: real := 100000.0
}
