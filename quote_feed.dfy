/** The live-quote layer (src/lib/yahooFinance.ts): a timestamped cache with a
    two-minute freshness window, a per-minute call counter with a quota of 5,
    a FIFO request queue drained by one loop that re-checks the cache before
    each fetch and waits 12 s after it, and a synthetic fallback quote
    whenever the provider cannot be used.

    `FeedState` is the module state as a value and the functions below say
    what each operation does to it; the class `Feed` holds the same state in
    mutable fields and its methods are proved to agree with those functions.
    The clock, the provider's answers and Math.random are inputs: each
    operation takes `now`, and `Env` says what the provider would answer and
    what Math.random would draw for a symbol at a time. */
module QuoteFeed {
  import opened Common

  const CacheDuration: int := 120000
  const MaxCallsPerMinute: nat := 5
  const RateWindow: int := 60000
  const QueueSpacing: int := 12000

  /** The fallback's variation factor: up to 2% either way. */
  const FallbackFactor: real := 0.04

  datatype CacheEntry = CacheEntry(data: Quote, timestamp: int)

  /** A queued call of `fetchStockPrice`; the ticket stands for its promise. */
  datatype Request = Request(symbol: string, ticket: nat)

  /** A settled promise: the ticket, its symbol and the quote it resolved with. */
  datatype Resolution = Resolution(ticket: nat, symbol: string, quote: Quote)

  /** What the provider's GLOBAL_QUOTE call gives back: a quote (with the
      fields already parsed, a missing field read as 0), a Note or
      Information payload, an empty or missing Global Quote, or a thrown
      error. */
  datatype ProviderAnswer =
    | Ok(price: real, previousClose: real, change: real, changePercent: real)
    | Note
    | EmptyQuote
    | NetworkError

  /** The world outside the module: whether an API key is configured, what the
      provider answers for a symbol at a time, and what Math.random draws. */
  datatype Env = Env(hasApiKey: bool, answer: (string, int) -> ProviderAnswer, draw: (string, int) -> Draw)

  datatype FeedState = FeedState(
    cache: map<string, CacheEntry>,
    callCount: nat,
    lastResetTime: int,
    queue: seq<Request>,
    processing: bool,
    resolved: seq<Resolution>,
    nextTicket: nat)

  /** `getBSESymbol`: the NSE symbol with the ".BSE" exchange suffix. */
  function BseSymbol(nse: string): (r: string)
    ensures |r| == |nse| + 4
    ensures r[..|nse|] == nse && r[|nse|..] == ".BSE"
  {
    nse + ".BSE"
  }

  /** `getFallbackPrice` of this module: the reference price moved by up to 2%. */
  function Fallback(symbol: string, r: Draw, now: int): (q: Quote)
    ensures q.symbol == symbol && q.lastUpdated == now
    ensures q.previousClose == BasePrice(symbol) && q.change == q.price - q.previousClose
    ensures q.previousClose * 0.98 <= q.price <= q.previousClose * 1.02
    ensures q.changePercent.Finite? && -2.0 <= q.changePercent.value <= 2.0
  {
    SyntheticQuoteBounds(symbol, BasePrice(symbol), r, FallbackFactor, now);
    SyntheticQuote(symbol, BasePrice(symbol), r, FallbackFactor, now)
  }

  /** The quote built from a usable provider answer. */
  function ProviderQuote(symbol: string, a: ProviderAnswer, now: int): (q: Quote)
    requires a.Ok?
    ensures q.symbol == symbol && q.lastUpdated == now
    ensures q.changePercent.Finite?
    ensures q.price != 0.0 <==> Usable(a)
  {
    Quote(symbol, a.price, a.previousClose, a.change, Finite(a.changePercent), now)
  }

  /** A provider answer is used only when it carries a non-zero price. */
  predicate Usable(a: ProviderAnswer)
  {
    a.Ok? && a.price != 0.0
  }

  /** The cache holds an entry for the symbol younger than two minutes. */
  predicate Fresh(cache: map<string, CacheEntry>, symbol: string, now: int)
  {
    symbol in cache && now - cache[symbol].timestamp < CacheDuration
  }

  // ----- Rate limiting (yahooFinance.ts:79-93) -----

  /** `resetRateLimitIfNeeded`: a minute after the last reset the counter starts again. */
  function ResetIfNeeded(f: FeedState, now: int): (r: FeedState)
    ensures now - f.lastResetTime >= RateWindow ==> r == f.(callCount := 0, lastResetTime := now)
    ensures now - f.lastResetTime < RateWindow ==> r == f
  {
    if now - f.lastResetTime >= RateWindow then f.(callCount := 0, lastResetTime := now) else f
  }

  /** Resetting twice at the same instant is resetting once, and whatever
      happened, the window now started at most a minute ago. */
  lemma ResetIdempotent(f: FeedState, now: int)
    requires f.lastResetTime <= now
    ensures ResetIfNeeded(ResetIfNeeded(f, now), now) == ResetIfNeeded(f, now)
    ensures 0 <= now - ResetIfNeeded(f, now).lastResetTime < RateWindow
    ensures ResetIfNeeded(f, now).callCount <= f.callCount
  {
  }

  datatype Fetched = Fetched(feed: FeedState, quote: Quote)

  /** `fetchFromAlphaVantage` (response handling): the quote it settles on and
      the limiter state it leaves. It never comes back without a quote. */
  function FetchFromProvider(f: FeedState, symbol: string, now: int, env: Env): (r: Fetched)
    ensures r.feed == f.(callCount := r.feed.callCount, lastResetTime := r.feed.lastResetTime)
    ensures !env.hasApiKey ==> r.feed == f && r.quote == Fallback(symbol, env.draw(symbol, now), now)
    ensures env.hasApiKey ==> r.feed.lastResetTime == ResetIfNeeded(f, now).lastResetTime
    ensures env.hasApiKey ==>
              var before := ResetIfNeeded(f, now).callCount;
              if before < MaxCallsPerMinute then r.feed.callCount == before + 1
              else r.feed.callCount == before && r.quote == Fallback(symbol, env.draw(symbol, now), now)
    ensures f.callCount <= MaxCallsPerMinute ==> r.feed.callCount <= MaxCallsPerMinute
    ensures r.quote == Fallback(symbol, env.draw(symbol, now), now)
         || (env.hasApiKey && Usable(env.answer(symbol, now))
             && r.quote == ProviderQuote(symbol, env.answer(symbol, now), now))
  {
    if !env.hasApiKey then Fetched(f, Fallback(symbol, env.draw(symbol, now), now))
    else
      var g := ResetIfNeeded(f, now);
      if g.callCount >= MaxCallsPerMinute then Fetched(g, Fallback(symbol, env.draw(symbol, now), now))
      else
        var h := g.(callCount := g.callCount + 1);
        var a := env.answer(symbol, now);
        if Usable(a) then Fetched(h, ProviderQuote(symbol, a, now))
        else Fetched(h, Fallback(symbol, env.draw(symbol, now), now))
  }

  // ----- The queue (yahooFinance.ts:172-223) -----

  datatype Drained = Drained(feed: FeedState, finish: int)

  /** One turn of the `while` loop in `processQueue` at time `t`: the head
      request leaves the queue and is answered from the cache when its entry
      is still fresh; otherwise it is fetched, the quote is stored with the
      timestamp `t` and the request answered, and the loop waits 12 s. */
  function Step(f: FeedState, t: int, env: Env): (r: Drained)
    requires f.queue != []
    ensures r.feed.queue == f.queue[1..]
    ensures r.feed.processing == f.processing && r.feed.nextTicket == f.nextTicket
    ensures f.queue[0].symbol in r.feed.cache
    ensures r.feed.resolved == f.resolved + [Resolution(f.queue[0].ticket, f.queue[0].symbol, r.feed.cache[f.queue[0].symbol].data)]
    ensures r.feed.cache - {f.queue[0].symbol} == f.cache - {f.queue[0].symbol}
    ensures Fresh(f.cache, f.queue[0].symbol, t) ==> r.feed.cache == f.cache && r.finish == t
    ensures !Fresh(f.cache, f.queue[0].symbol, t) ==>
              r.feed.cache[f.queue[0].symbol].timestamp == t && r.finish == t + QueueSpacing
    ensures f.callCount <= MaxCallsPerMinute ==> r.feed.callCount <= MaxCallsPerMinute
  {
    var item := f.queue[0];
    var g := f.(queue := f.queue[1..]);
    if Fresh(g.cache, item.symbol, t) then
      Drained(g.(resolved := g.resolved + [Resolution(item.ticket, item.symbol, g.cache[item.symbol].data)]), t)
    else
      var fetched := FetchFromProvider(g, item.symbol, t, env);
      Drained(fetched.feed.(cache := fetched.feed.cache[item.symbol := CacheEntry(fetched.quote, t)],
                            resolved := fetched.feed.resolved + [Resolution(item.ticket, item.symbol, fetched.quote)]),
              t + QueueSpacing)
  }

  /** The `while` loop of `processQueue`, run from time `t` until the queue is
      empty: the requests are answered in queue order, each exactly once. */
  function Drain(f: FeedState, t: int, env: Env): (r: Drained)
    ensures r.feed.queue == [] && r.finish >= t
    ensures r.feed.processing == f.processing && r.feed.nextTicket == f.nextTicket
    ensures |r.feed.resolved| == |f.resolved| + |f.queue|
    ensures r.feed.resolved[..|f.resolved|] == f.resolved
    decreases |f.queue|
  {
    if f.queue == [] then Drained(f, t)
    else
      var s := Step(f, t, env);
      var r := Drain(s.feed, s.finish, env);
      assert r.feed.resolved[..|f.resolved|] == s.feed.resolved[..|f.resolved|];
      r
  }

  /** First in, first out: the j-th request of the queue is the j-th promise
      the drain resolves, with its ticket and its symbol. */
  lemma {:induction false} DrainOrder(f: FeedState, t: int, env: Env, j: nat)
    requires j < |f.queue|
    ensures var r := Drain(f, t, env).feed;
            && r.resolved[|f.resolved| + j].ticket == f.queue[j].ticket
            && r.resolved[|f.resolved| + j].symbol == f.queue[j].symbol
    decreases |f.queue|
  {
    var s := Step(f, t, env);
    var r := Drain(s.feed, s.finish, env).feed;
    var n := |f.resolved|;
    assert Drain(f, t, env).feed == r;
    if j == 0 {
      assert r.resolved[..n + 1] == s.feed.resolved;
      assert r.resolved[n] == s.feed.resolved[n];
      assert s.feed.resolved[n] == Resolution(f.queue[0].ticket, f.queue[0].symbol, s.feed.cache[f.queue[0].symbol].data);
    } else {
      DrainOrder(s.feed, s.finish, env, j - 1);
      assert |s.feed.resolved| + (j - 1) == n + j;
      assert f.queue[j] == s.feed.queue[j - 1];
    }
  }

  /** `processQueue`: returns at once while another drain runs or nothing is
      queued, and otherwise drains with the processing flag raised. */
  function ProcessQueueResult(f: FeedState, now: int, env: Env): (r: Drained)
    ensures f.processing || f.queue == [] ==> r == Drained(f, now)
    ensures !f.processing ==> r.feed.queue == [] && !r.feed.processing
    ensures !f.processing ==> |r.feed.resolved| == |f.resolved| + |f.queue|
  {
    if f.processing || f.queue == [] then Drained(f, now)
    else
      var d := Drain(f.(processing := true), now, env);
      Drained(d.feed.(processing := false), d.finish)
  }

  /** Nothing queued and no drain running: the state between two calls. */
  predicate Idle(f: FeedState)
  {
    f.queue == [] && !f.processing
  }

  /** Tickets are handed out in order and resolved in order: the resolved
      promises are tickets 0, 1, ... and the queue holds the next ones. */
  predicate Tickets(f: FeedState)
  {
    && (forall i :: 0 <= i < |f.resolved| ==> f.resolved[i].ticket == i)
    && (forall j :: 0 <= j < |f.queue| ==> f.queue[j].ticket == |f.resolved| + j)
    && f.nextTicket == |f.resolved| + |f.queue|
  }

  /** The invariant of the module state: the quota is never exceeded and every
      promise is resolved exactly once, first in first out. */
  predicate Inv(f: FeedState)
  {
    f.callCount <= MaxCallsPerMinute && Tickets(f)
  }

  /** Draining keeps the invariant. */
  lemma {:induction false} DrainKeepsInv(f: FeedState, t: int, env: Env)
    requires Inv(f)
    ensures Inv(Drain(f, t, env).feed)
    decreases |f.queue|
  {
    if f.queue != [] {
      var s := Step(f, t, env);
      assert Tickets(s.feed);
      DrainKeepsInv(s.feed, s.finish, env);
    }
  }

  /** `fetchStockPrice` between two calls: a fresh cache entry is returned with
      the state untouched; otherwise the request is queued and drained, and
      the answer is the quote now cached for the symbol, stored at `now`. */
  datatype Answered = Answered(feed: FeedState, quote: Quote)

  function FetchStockPriceResult(f: FeedState, symbol: string, now: int, env: Env): (r: Answered)
    requires Idle(f)
    ensures Fresh(f.cache, symbol, now) ==> r == Answered(f, f.cache[symbol].data)
    ensures !Fresh(f.cache, symbol, now) ==>
              && symbol in r.feed.cache
              && r.feed.cache[symbol] == CacheEntry(r.quote, now)
              && r.feed.cache - {symbol} == f.cache - {symbol}
              && r.feed.resolved == f.resolved + [Resolution(f.nextTicket, symbol, r.quote)]
              && r.feed.nextTicket == f.nextTicket + 1
              && Idle(r.feed)
  {
    if Fresh(f.cache, symbol, now) then Answered(f, f.cache[symbol].data)
    else
      var g := f.(queue := [Request(symbol, f.nextTicket)], nextTicket := f.nextTicket + 1);
      var d := ProcessQueueResult(g, now, env);
      SingleDrain(g.(processing := true), now, env);
      Answered(d.feed, d.feed.resolved[|d.feed.resolved| - 1].quote)
  }

  /** A cache miss between two calls: queueing the request and draining the
      queue keeps the invariant, and the answer is the last promise resolved. */
  lemma MissAnswered(f: FeedState, symbol: string, now: int, env: Env)
    requires Inv(f) && Idle(f) && !Fresh(f.cache, symbol, now)
    ensures var g := f.(queue := [Request(symbol, f.nextTicket)], nextTicket := f.nextTicket + 1);
            var d := ProcessQueueResult(g, now, env).feed;
            && Inv(d) && Idle(d) && |d.resolved| > 0
            && FetchStockPriceResult(f, symbol, now, env) == Answered(d, d.resolved[|d.resolved| - 1].quote)
  {
    var g := f.(queue := [Request(symbol, f.nextTicket)], nextTicket := f.nextTicket + 1);
    assert Inv(g);
    ProcessQueueCache(g, now, env, map[]);
  }

  /** A drain of one request is one turn of the loop. */
  lemma SingleDrain(f: FeedState, t: int, env: Env)
    requires |f.queue| == 1
    ensures Drain(f, t, env) == Step(f, t, env)
  {
    assert Step(f, t, env).feed.queue == [];
  }

  /** The quote `fetchStockPrice` answers a cache miss with is the provider's
      when it gave a usable quote within the quota, and the fallback otherwise. */
  lemma FetchedQuoteSource(f: FeedState, symbol: string, now: int, env: Env)
    requires Idle(f) && !Fresh(f.cache, symbol, now)
    ensures var q := FetchStockPriceResult(f, symbol, now, env).quote;
            q == Fallback(symbol, env.draw(symbol, now), now)
            || (env.hasApiKey && Usable(env.answer(symbol, now))
                && q == ProviderQuote(symbol, env.answer(symbol, now), now))
  {
    var g := f.(queue := [Request(symbol, f.nextTicket)], nextTicket := f.nextTicket + 1, processing := true);
    SingleDrain(g, now, env);
    var fetched := FetchFromProvider(g.(queue := []), symbol, now, env);
    assert Step(g, now, env).feed.cache[symbol].data == fetched.quote;
  }

  /** The re-check before each fetch: two queued requests for the same symbol
      cost one provider fetch, and both promises get the same quote. */
  lemma DuplicateServedFromCache(f: FeedState, s: string, a: nat, b: nat, t: int, env: Env)
    requires f.queue == [Request(s, a), Request(s, b)]
    requires !Fresh(f.cache, s, t)
    ensures var r := Drain(f, t, env);
            && r.feed.resolved[|f.resolved|].quote == r.feed.resolved[|f.resolved| + 1].quote
            && r.finish == t + QueueSpacing
  {
    var s1 := Step(f, t, env);
    assert s1.feed.queue == [Request(s, b)];
    assert Fresh(s1.feed.cache, s, s1.finish);
    var s2 := Step(s1.feed, s1.finish, env);
    assert Drain(s1.feed, s1.finish, env) == s2 by { SingleDrain(s1.feed, s1.finish, env); }
  }

  // ----- What the cache says about the answers -----

  function Lookup(cache: map<string, CacheEntry>, s: string): Option<CacheEntry>
  {
    if s in cache then Some(cache[s]) else None
  }

  /** The symbols a queue asks for. */
  function SymbolsOf(queue: seq<Request>): set<string>
  {
    set j | 0 <= j < |queue| :: queue[j].symbol
  }

  /** Draining touches only the cache entries of queued symbols. */
  lemma {:induction false} DrainFrame(f: FeedState, t: int, env: Env, s: string)
    requires s !in SymbolsOf(f.queue)
    ensures Lookup(Drain(f, t, env).feed.cache, s) == Lookup(f.cache, s)
    decreases |f.queue|
  {
    if f.queue != [] {
      var st := Step(f, t, env);
      assert f.queue[0].symbol in SymbolsOf(f.queue);
      assert s in st.feed.cache - {f.queue[0].symbol} <==> s in f.cache - {f.queue[0].symbol};
      assert Lookup(st.feed.cache, s) == Lookup(f.cache, s);
      assert forall j :: 0 <= j < |st.feed.queue| ==> st.feed.queue[j] == f.queue[j + 1];
      assert SymbolsOf(st.feed.queue) <= SymbolsOf(f.queue);
      DrainFrame(st.feed, st.finish, env, s);
    }
  }

  /** The result map of a batch: each settled promise writes its symbol's
      entry, in the order the promises settle. */
  function Collect(m: map<string, Quote>, rs: seq<Resolution>): map<string, Quote>
    decreases |rs|
  {
    if rs == [] then m else Collect(m[rs[0].symbol := rs[0].quote], rs[1..])
  }

  /** The result has an entry exactly for the symbols already there and those answered. */
  lemma {:induction false} CollectKeys(m: map<string, Quote>, rs: seq<Resolution>)
    ensures Collect(m, rs).Keys == m.Keys + set k | 0 <= k < |rs| :: rs[k].symbol
    decreases |rs|
  {
    if rs != [] {
      CollectKeys(m[rs[0].symbol := rs[0].quote], rs[1..]);
      var all := set k | 0 <= k < |rs| :: rs[k].symbol;
      var rest := set k | 0 <= k < |rs[1..]| :: rs[1..][k].symbol;
      forall x | x in all ensures x in {rs[0].symbol} + rest {
        var k :| 0 <= k < |rs| && rs[k].symbol == x;
        if k > 0 { assert rs[1..][k - 1].symbol == x; }
      }
      forall x | x in rest ensures x in all {
        var k :| 0 <= k < |rs[1..]| && rs[1..][k].symbol == x;
        assert rs[k + 1].symbol == x;
      }
    }
  }

  /** Every entry of the map is the quote the cache holds for that symbol. */
  ghost predicate AgreesWith(m: map<string, Quote>, cache: map<string, CacheEntry>)
  {
    forall s :: s in m ==> s in cache && m[s] == cache[s].data
  }

  /** Draining keeps a map that agrees with the cache in agreement with it,
      once the drained requests' answers are written into the map. */
  lemma {:induction false} DrainCollect(f: FeedState, t: int, env: Env, m: map<string, Quote>)
    requires AgreesWith(m, f.cache)
    ensures var r := Drain(f, t, env).feed;
            AgreesWith(Collect(m, r.resolved[|f.resolved|..]), r.cache)
    decreases |f.queue|
  {
    if f.queue != [] {
      var st := Step(f, t, env);
      var x := st.feed.resolved[|f.resolved|];
      StepCollect(f, t, env, m);
      DrainCollect(st.feed, st.finish, env, m[x.symbol := x.quote]);
      var r := Drain(f, t, env).feed;
      assert r.resolved[|f.resolved|..] == [x] + r.resolved[|st.feed.resolved|..];
    }
  }

  /** One turn of the loop: writing the answer into a map that agreed with
      the cache gives a map that agrees with the new cache. */
  lemma StepCollect(f: FeedState, t: int, env: Env, m: map<string, Quote>)
    requires f.queue != [] && AgreesWith(m, f.cache)
    ensures var st := Step(f, t, env);
            var x := st.feed.resolved[|f.resolved|];
            AgreesWith(m[x.symbol := x.quote], st.feed.cache)
  {
    var st := Step(f, t, env);
    var x := st.feed.resolved[|f.resolved|];
    var m' := m[x.symbol := x.quote];
    forall s | s in m' ensures s in st.feed.cache && m'[s] == st.feed.cache[s].data {
      if s != x.symbol {
        assert s in st.feed.cache - {x.symbol} <==> s in f.cache - {x.symbol};
      }
    }
  }

  /** What a `processQueue` run from an idle state guarantees about the cache:
      the invariant holds again, a map that agreed with the cache still agrees
      once the new answers are written into it, and the entries of symbols
      that were not queued are untouched. */
  lemma ProcessQueueCache(f: FeedState, now: int, env: Env, m: map<string, Quote>)
    requires !f.processing && Inv(f)
    requires AgreesWith(m, f.cache)
    ensures var r := ProcessQueueResult(f, now, env).feed;
            && Inv(r)
            && AgreesWith(Collect(m, r.resolved[|f.resolved|..]), r.cache)
            && (forall s :: s !in SymbolsOf(f.queue) ==> Lookup(r.cache, s) == Lookup(f.cache, s))
  {
    if f.queue != [] {
      var g := f.(processing := true);
      DrainKeepsInv(g, now, env);
      DrainCollect(g, now, env, m);
      forall s | s !in SymbolsOf(f.queue)
        ensures Lookup(ProcessQueueResult(f, now, env).feed.cache, s) == Lookup(f.cache, s)
      {
        DrainFrame(g, now, env, s);
      }
    } else {
      assert f.resolved[|f.resolved|..] == [];
    }
  }

  /** The symbols `fetchMultipleStockPrices` queues: those whose cache entry is
      not fresh at `now`, in input order. */
  function Misses(cache: map<string, CacheEntry>, symbols: seq<string>, now: int): (m: seq<string>)
    ensures |m| <= |symbols|
  {
    if symbols == [] then []
    else
      var init := symbols[..|symbols| - 1];
      var s := symbols[|symbols| - 1];
      Misses(cache, init, now) + (if Fresh(cache, s, now) then [] else [s])
  }

  /** A symbol is queued exactly when it is in the batch and its entry is not fresh. */
  lemma {:induction false} MissesMembers(cache: map<string, CacheEntry>, symbols: seq<string>, now: int)
    ensures forall s :: s in Misses(cache, symbols, now) <==> s in symbols && !Fresh(cache, s, now)
    decreases |symbols|
  {
    if symbols != [] {
      var init := symbols[..|symbols| - 1];
      MissesMembers(cache, init, now);
      assert symbols == init + [symbols[|symbols| - 1]];
    }
  }

  /** Requests for the symbols with consecutive tickets from `first`. */
  function Requests(symbols: seq<string>, first: nat): (rs: seq<Request>)
    ensures |rs| == |symbols|
  {
    if symbols == [] then [] else [Request(symbols[0], first)] + Requests(symbols[1..], first + 1)
  }

  /** The j-th request asks for the j-th symbol with ticket `first + j`. */
  lemma {:induction false} RequestsElements(symbols: seq<string>, first: nat)
    ensures forall j :: 0 <= j < |symbols| ==> Requests(symbols, first)[j] == Request(symbols[j], first + j)
    decreases |symbols|
  {
    if symbols != [] {
      RequestsElements(symbols[1..], first + 1);
    }
  }

  lemma {:induction false} RequestsAppend(symbols: seq<string>, s: string, first: nat)
    ensures Requests(symbols + [s], first) == Requests(symbols, first) + [Request(s, first + |symbols|)]
    decreases |symbols|
  {
    if symbols != [] {
      assert (symbols + [s])[1..] == symbols[1..] + [s];
      RequestsAppend(symbols[1..], s, first + 1);
    }
  }

  lemma MissesAppend(cache: map<string, CacheEntry>, symbols: seq<string>, i: nat, now: int)
    requires i < |symbols|
    ensures Misses(cache, symbols[..i + 1], now)
         == Misses(cache, symbols[..i], now) + (if Fresh(cache, symbols[i], now) then [] else [symbols[i]])
  {
    assert symbols[..i + 1][..i] == symbols[..i];
  }

  /** Queueing one more missed symbol appends its request with the next ticket. */
  lemma QueueAppend(queue: seq<Request>, symbols: seq<string>, s: string, first: nat)
    ensures queue + Requests(symbols + [s], first) == queue + Requests(symbols, first) + [Request(s, first + |symbols|)]
  {
    RequestsAppend(symbols, s, first);
  }

  /** Looking up one more symbol of the batch: a fresh one joins the hits. */
  lemma HitsStep(cache: map<string, CacheEntry>, symbols: seq<string>, i: nat, now: int)
    requires i < |symbols|
    ensures Fresh(cache, symbols[i], now) ==>
              (set x | x in symbols[..i + 1] && Fresh(cache, x, now))
              == (set x | x in symbols[..i] && Fresh(cache, x, now)) + {symbols[i]}
    ensures !Fresh(cache, symbols[i], now) ==>
              (set x | x in symbols[..i + 1] && Fresh(cache, x, now))
              == (set x | x in symbols[..i] && Fresh(cache, x, now))
  {
    assert symbols[..i + 1] == symbols[..i] + [symbols[i]];
  }

  /** The queue after every symbol of the batch has been looked up at `now`. */
  function EnqueueMisses(f: FeedState, symbols: seq<string>, now: int): (r: FeedState)
  {
    var m := Misses(f.cache, symbols, now);
    f.(queue := f.queue + Requests(m, f.nextTicket), nextTicket := f.nextTicket + |m|)
  }

  /** The batch queue keeps the state's invariant. */
  lemma EnqueueKeepsInv(f: FeedState, symbols: seq<string>, now: int)
    requires Inv(f)
    ensures Inv(EnqueueMisses(f, symbols, now))
  {
    RequestsElements(Misses(f.cache, symbols, now), f.nextTicket);
  }

  /** The batch queue asks for what was queued before and for every symbol
      of the batch whose entry is not fresh. */
  lemma EnqueueSymbols(f: FeedState, symbols: seq<string>, now: int)
    ensures SymbolsOf(EnqueueMisses(f, symbols, now).queue)
         == SymbolsOf(f.queue) + set s | s in symbols && !Fresh(f.cache, s, now)
  {
    var m := Misses(f.cache, symbols, now);
    var q := f.queue + Requests(m, f.nextTicket);
    MissesMembers(f.cache, symbols, now);
    RequestsElements(m, f.nextTicket);
    forall s | s in symbols && !Fresh(f.cache, s, now) ensures s in SymbolsOf(q) {
      var j :| 0 <= j < |m| && m[j] == s;
      assert q[|f.queue| + j].symbol == s;
    }
    forall s | s in SymbolsOf(q) ensures s in SymbolsOf(f.queue) || s in m {
      var j :| 0 <= j < |q| && q[j].symbol == s;
      if j < |f.queue| {
        assert q[j] == f.queue[j];
      } else {
        assert q[j].symbol == m[j - |f.queue|];
      }
    }
    forall s | s in SymbolsOf(f.queue) ensures s in SymbolsOf(q) {
      var j :| 0 <= j < |f.queue| && f.queue[j].symbol == s;
      assert q[j] == f.queue[j];
    }
  }

  /** The answers a drain writes are for the queued symbols, and for all of them. */
  lemma ResolvedSymbols(f: FeedState, now: int, env: Env)
    requires !f.processing
    ensures var rs := ProcessQueueResult(f, now, env).feed.resolved[|f.resolved|..];
            (set k | 0 <= k < |rs| :: rs[k].symbol) == SymbolsOf(f.queue)
  {
    var rs := ProcessQueueResult(f, now, env).feed.resolved[|f.resolved|..];
    if f.queue != [] {
      var d := Drain(f.(processing := true), now, env);
      assert rs == d.feed.resolved[|f.resolved|..];
      forall k | 0 <= k < |rs| ensures rs[k].symbol == f.queue[k].symbol {
        DrainOrder(f.(processing := true), now, env, k);
        assert rs[k] == d.feed.resolved[|f.resolved| + k];
      }
      forall x | x in SymbolsOf(f.queue) ensures x in set k | 0 <= k < |rs| :: rs[k].symbol {
        var k :| 0 <= k < |f.queue| && f.queue[k].symbol == x;
        assert rs[k].symbol == x;
      }
    }
  }

  /** What `fetchMultipleStockPrices` answers between two calls: the hits
      from the cache, then the answers of the drained misses written over
      them; there is an entry for every symbol of the batch and each is the
      quote the cache then holds for it. */
  lemma BatchAnswers(f: FeedState, symbols: seq<string>, now: int, env: Env, hits: map<string, Quote>)
    requires Inv(f) && Idle(f)
    requires hits.Keys == set s | s in symbols && Fresh(f.cache, s, now)
    requires forall s :: s in hits ==> s in f.cache && hits[s] == f.cache[s].data
    ensures var r := ProcessQueueResult(EnqueueMisses(f, symbols, now), now, env).feed;
            var answers := Collect(hits, r.resolved[|f.resolved|..]);
            && Inv(r) && Idle(r)
            && answers.Keys == set s | s in symbols
            && AgreesWith(answers, r.cache)
  {
    var q := EnqueueMisses(f, symbols, now);
    EnqueueKeepsInv(f, symbols, now);
    ProcessQueueCache(q, now, env, hits);
    BatchKeys(f, symbols, now, env, hits);
  }

  /** The batch answers every symbol it was given. */
  lemma BatchKeys(f: FeedState, symbols: seq<string>, now: int, env: Env, hits: map<string, Quote>)
    requires Idle(f)
    requires hits.Keys == set s | s in symbols && Fresh(f.cache, s, now)
    ensures var r := ProcessQueueResult(EnqueueMisses(f, symbols, now), now, env).feed;
            Collect(hits, r.resolved[|f.resolved|..]).Keys == set s | s in symbols
  {
    var q := EnqueueMisses(f, symbols, now);
    var r := ProcessQueueResult(q, now, env).feed;
    EnqueueSymbols(f, symbols, now);
    ResolvedSymbols(q, now, env);
    CollectKeys(hits, r.resolved[|f.resolved|..]);
  }

  // ----- The module state as mutable fields -----

  class Feed {
    var cache: map<string, CacheEntry>
    var callCount: nat
    var lastResetTime: int
    var queue: seq<Request>
    var processing: bool
    var resolved: seq<Resolution>
    var nextTicket: nat
    const env: Env

    function State(): FeedState
      reads this
    {
      FeedState(cache, callCount, lastResetTime, queue, processing, resolved, nextTicket)
    }

    /** Between calls: the invariant holds, nothing is queued and no drain runs. */
    predicate Valid()
      reads this
    {
      Inv(State()) && Idle(State())
    }

    /** The state when the module is loaded at `loadTime`. */
    constructor(env: Env, loadTime: int)
      ensures Valid()
      ensures State() == FeedState(map[], 0, loadTime, [], false, [], 0)
      ensures this.env == env
    {
      cache := map[];
      callCount := 0;
      lastResetTime := loadTime;
      queue := [];
      processing := false;
      resolved := [];
      nextTicket := 0;
      this.env := env;
    }

    method ResetRateLimitIfNeeded(now: int)
      modifies this
      ensures State() == ResetIfNeeded(old(State()), now)
    {
      var timeSinceReset := now - lastResetTime;
      if timeSinceReset >= RateWindow {
        callCount := 0;
        lastResetTime := now;
      }
    }

    method CanMakeApiCall(now: int) returns (ok: bool)
      modifies this
      ensures State() == ResetIfNeeded(old(State()), now)
      ensures ok <==> State().callCount < MaxCallsPerMinute
    {
      ResetRateLimitIfNeeded(now);
      ok := callCount < MaxCallsPerMinute;
    }

    method FetchFromAlphaVantage(symbol: string, now: int) returns (quote: Quote)
      modifies this
      ensures Fetched(State(), quote) == FetchFromProvider(old(State()), symbol, now, env)
    {
      if !env.hasApiKey {
        return Fallback(symbol, env.draw(symbol, now), now);
      }
      var ok := CanMakeApiCall(now);
      if !ok {
        return Fallback(symbol, env.draw(symbol, now), now);
      }
      callCount := callCount + 1;
      var answer := env.answer(symbol, now);
      match answer
      case Note =>
        quote := Fallback(symbol, env.draw(symbol, now), now);
      case EmptyQuote =>
        quote := Fallback(symbol, env.draw(symbol, now), now);
      case NetworkError =>
        quote := Fallback(symbol, env.draw(symbol, now), now);
      case Ok(price, _, _, _) =>
        if price == 0.0 {
          quote := Fallback(symbol, env.draw(symbol, now), now);
        } else {
          quote := ProviderQuote(symbol, answer, now);
        }
    }

    /** The drain loop: `shift`, re-check the cache, fetch, store, resolve, wait. */
    method ProcessQueue(now: int) returns (finish: int)
      modifies this
      ensures Drained(State(), finish) == ProcessQueueResult(old(State()), now, env)
    {
      if processing || |queue| == 0 {
        return now;
      }
      processing := true;
      ghost var goal := Drain(State(), now, env);
      var t := now;
      while |queue| > 0
        invariant Drain(State(), t, env) == goal
        decreases |queue|
      {
        t := ServeHead(t);
      }
      processing := false;
      finish := t;
    }

    /** One turn of the drain loop at time `t`. */
    method ServeHead(t: int) returns (next: int)
      requires |queue| > 0
      modifies this
      ensures Drained(State(), next) == Step(old(State()), t, env)
      ensures Drain(State(), next, env) == Drain(old(State()), t, env)
    {
      var item := queue[0];
      queue := queue[1..];
      if item.symbol in cache && t - cache[item.symbol].timestamp < CacheDuration {
        resolved := resolved + [Resolution(item.ticket, item.symbol, cache[item.symbol].data)];
        return t;
      }
      var stockPrice := FetchFromAlphaVantage(item.symbol, t);
      cache := cache[item.symbol := CacheEntry(stockPrice, t)];
      resolved := resolved + [Resolution(item.ticket, item.symbol, stockPrice)];
      next := t + QueueSpacing;
    }
    /** `fetchStockPrice`: a fresh cache entry answers at once; otherwise the
        request is queued and the queue drained. */
    method FetchStockPrice(symbol: string, now: int) returns (quote: Quote)
      requires Valid()
      modifies this
      ensures Valid()
      ensures Answered(State(), quote) == FetchStockPriceResult(old(State()), symbol, now, env)
    {
      if symbol in cache && now - cache[symbol].timestamp < CacheDuration {
        return cache[symbol].data;
      }
      queue := queue + [Request(symbol, nextTicket)];
      nextTicket := nextTicket + 1;
      var _ := ProcessQueue(now);
      MissAnswered(old(State()), symbol, now, env);
      quote := resolved[|resolved| - 1].quote;
    }

    /** `fetchMultipleStockPrices`: every symbol is looked up in the cache, the
        misses are queued in input order and drained by one loop, and each
        settled promise writes its symbol's entry of the result. */
    method FetchMultipleStockPrices(symbols: seq<string>, now: int) returns (results: map<string, Quote>)
      requires Valid()
      modifies this
      ensures Valid()
      ensures State() == ProcessQueueResult(EnqueueMisses(old(State()), symbols, now), now, env).feed
      ensures results.Keys == set s | s in symbols
      ensures forall s :: s in results ==> s in cache && results[s] == cache[s].data
    {
      ghost var start := State();
      var hits := LookUpBatch(symbols, now);
      var before := |resolved|;
      var _ := ProcessQueue(now);
      results := CollectResolutions(hits, before);
      BatchAnswers(start, symbols, now, env, hits);
    }

    /** The synchronous part of `fetchMultipleStockPrices`: fresh symbols are
        answered from the cache, the others are queued in input order. */
    method LookUpBatch(symbols: seq<string>, now: int) returns (hits: map<string, Quote>)
      modifies this
      ensures State() == EnqueueMisses(old(State()), symbols, now)
      ensures hits.Keys == set s | s in symbols && Fresh(old(cache), s, now)
      ensures forall s :: s in hits ==> s in old(cache) && hits[s] == old(cache)[s].data
    {
      ghost var start := State();
      hits := map[];
      var i := 0;
      ghost var misses: seq<string> := [];
      while i < |symbols|
        invariant 0 <= i <= |symbols|
        invariant cache == start.cache && callCount == start.callCount && lastResetTime == start.lastResetTime
        invariant processing == start.processing && resolved == start.resolved
        invariant misses == Misses(start.cache, symbols[..i], now)
        invariant queue == start.queue + Requests(misses, start.nextTicket)
        invariant nextTicket == start.nextTicket + |misses|
        invariant hits.Keys == set s | s in symbols[..i] && Fresh(start.cache, s, now)
        invariant forall s :: s in hits ==> s in start.cache && hits[s] == start.cache[s].data
      {
        var s := symbols[i];
        MissesAppend(start.cache, symbols, i, now);
        HitsStep(start.cache, symbols, i, now);
        if s in cache && now - cache[s].timestamp < CacheDuration {
          hits := hits[s := cache[s].data];
        } else {
          QueueAppend(start.queue, misses, s, start.nextTicket);
          queue := queue + [Request(s, nextTicket)];
          nextTicket := nextTicket + 1;
          misses := misses + [s];
        }
        i := i + 1;
      }
      assert symbols[..i] == symbols;
      assert State() == EnqueueMisses(start, symbols, now);
    }

    /** The settled promises of the batch, in the order they settled, each
        writing its symbol's entry of the result. */
    method CollectResolutions(hits: map<string, Quote>, before: nat) returns (results: map<string, Quote>)
      requires before <= |resolved|
      ensures results == Collect(hits, resolved[before..])
    {
      results := hits;
      var j := before;
      while j < |resolved|
        invariant before <= j <= |resolved|
        invariant Collect(results, resolved[j..]) == Collect(hits, resolved[before..])
      {
        var r := resolved[j];
        assert resolved[j..][1..] == resolved[j + 1..];
        results := results[r.symbol := r.quote];
        j := j + 1;
      }
    }

    /** `clearPriceCache`: the cache is emptied and nothing else changes. */
    method ClearPriceCache()
      modifies this
      ensures State() == old(State()).(cache := map[])
    {
      cache := map[];
    }
  }
}
