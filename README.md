# Virtual stock-trading simulator: a verified model of its trading core

The application lets a student trade Nifty 50 stocks with virtual cash and
lets a linked parent follow the portfolio. This project models the logic
under the pages, in Dafny, and proves what that logic promises:

- **Settlement** (`Settlement`, from `src/components/BuySellModal.tsx`). A
  buy or a sell changes the cash, the holding for the stock and an
  append-only ledger. `Account` holds that state in mutable fields. Its
  `Submit` is proved to agree with the pure `Buy` and `Sell`. The account
  invariant is proved to survive every accepted trade: the cash is the
  opening cash replayed through the ledger, and each holding is the ledger's
  net share count. The weighted-average cost rule is proved for any run of
  buys.
- **Live quotes** (`QuoteFeed`, from `src/lib/yahooFinance.ts`). This covers:
  - the two-minute cache;
  - the per-minute call counter with its quota of 5;
  - the FIFO queue drained by one loop that re-checks the cache;
  - the synthetic fallback quote.

  The class `Feed` holds the module state. The functions over `FeedState`
  say what each operation does, and the lemmas prove:
  - the queue is answered in order and exactly once;
  - the cache is re-checked before each fetch;
  - the counter never passes the quota;
  - the batch call answers every symbol it was asked for.
- **Quotes from history** (`HistoricalQuotes`, from `src/lib/stockPrices.ts`).
  This covers the latest quote computed from the two latest closes, this
  module's ±1% fallback, the initial price map, the background refresh and
  the batch entry point that takes either symbols or stocks.
- **Market calendar** (`MarketHours`, from `src/lib/marketUtils.ts`). This
  covers the trading window and holidays, the next weekday, and "time ago"
  buckets.
- **CSV import** (`CsvImport`, from `scripts/importHistoricalData.ts`). This
  covers parsing dates and numbers, symbol normalisation, accepting or
  skipping a row, batches of 1000, and the success, failed and skipped counts.
- **Pages**:
  - `Valuation`: the holdings page, the student dashboard and the parent
    dashboard;
  - `StockDetail`: the chart range, the insight lookup, the price header and
    the trade buttons;
  - `Onboarding`: parent codes and the new student profile;
  - `Transactions`: the type filter and the sign of the amount;
  - `StocksList`: search, background price updates and row defaults.
- **Shared pieces**:
  - `Common`: Option, Result, JavaScript numbers with infinities and NaN, the
    fallback price table and the synthetic quote;
  - `Text`: lower-casing, `includes`, `split`, `padStart` and replacing the
    first match;
  - `Sequences`: `filter`, and a sort by a key in descending order.

The clock, Math.random, the quote provider's answers and the database are
parameters of the operations that read them.

## Model

| member | source | states |
|---|---|---|
| Common.Times | src/lib/stockPrices.ts:76 | multiplying a JavaScript number by a positive constant scales a finite value and keeps an infinity or NaN as it is |
| Common.JsDivide | src/lib/stockPrices.ts:76 | the quotient is finite exactly when the divisor is non-zero, and then it times the divisor gives back the dividend; 0/0 is NaN and nothing else is |
| Common.OrElse | src/pages/StockDetail.tsx:161 | `x \|\| fallback`: 0 and NaN give the fallback and every other value (infinities included) is kept, so the result is never NaN and is 0 only when the fallback is 0 |
| Common.OrElseIdempotent | src/pages/StockDetail.tsx:161 | applying the same fallback a second time changes nothing |
| Common.BasePrice | src/lib/yahooFinance.ts:96 | the reference price is positive; it is the table entry for a known symbol and 1000 for any other |
| Common.SyntheticQuote | src/lib/yahooFinance.ts:95-110 | the fallback quote has the symbol and the time asked for, previous close equal to the base and change equal to price minus previous close |
| Common.SyntheticQuoteBounds | src/lib/yahooFinance.ts:97-101 | for a positive base and variation factor f, the price lies within base·(1 ± f/2) and the percent is exactly (r − 0.5)·f·100, so within ±50·f |
| Settlement.Buy | src/components/BuySellModal.tsx:52-102 | a buy fails with InsufficientFunds exactly when quantity·price exceeds the cash, so spending all the cash is allowed; on success the cash falls by quantity·price, one BUY record with that total is appended, only this stock's holding changes, and its share count grows by the quantity |
| Settlement.Sell | src/components/BuySellModal.tsx:103-145 | a sell fails with InsufficientShares exactly when there is no holding or the quantity exceeds it; on success the cash rises by quantity·price, one SELL record is appended, the share count falls by the quantity, the holding is deleted exactly when none remain, and the average buy price is kept otherwise |
| Settlement.LedgerAppend | src/components/BuySellModal.tsx:60-76 | appending a record adds its cash effect to the ledger's cash flow and its share effect to every stock's net shares |
| Settlement.SettlePreservesConsistency | src/components/BuySellModal.tsx:41-154 | every accepted trade keeps the account invariant: no zero-share holding, cash equal to the opening cash plus the ledger's flow, and each holding equal to the ledger's net shares |
| Settlement.SettlePreservesSolvency | src/components/BuySellModal.tsx:56-58 | with positive prices an accepted trade keeps the cash non-negative and every average buy price positive |
| Settlement.BuyAverage | src/components/BuySellModal.tsx:78-92 | buying into an existing holding gives quantity q + n, and the new average times the new quantity equals avg·q + price·n |
| Settlement.BuyOpensPosition | src/components/BuySellModal.tsx:93-101 | buying with no holding opens the position (quantity, price) |
| Settlement.AverageOfBuys | src/components/BuySellModal.tsx:78-101 | after any run of buys of one stock from no holding, the quantity is the sum of the lots and the average buy price is the total cost divided by the total quantity |
| Settlement.AverageOfBuysScaled | src/components/BuySellModal.tsx:80-81 | the same weighted average in multiplied form, kept along the run of buys |
| Settlement.TwoBuysAverage | src/components/BuySellModal.tsx:80-81 | buying q1 at p1 and then q2 at p2 from no holding gives the position (q1 + q2, (q1·p1 + q2·p2)/(q1 + q2)) |
| Settlement.RoundTrip | src/components/BuySellModal.tsx:52-145 | buying n shares of a stock not held and selling the same n at the same price restores the cash and the holdings, and leaves one BUY and one SELL record of n·price on the ledger |
| Settlement.RemainingCash | src/components/BuySellModal.tsx:27-28 | the remaining cash plus the order total is the profile's cash, or 0 when the profile is missing |
| Settlement.ProfitLoss | src/components/BuySellModal.tsx:30-31 | the quoted profit or loss is 0 for a buy or without a holding; for a sell it is non-negative at or above the average price and negative below it |
| Settlement.ProfitLossIsSaleGain | src/components/BuySellModal.tsx:30-31 | for an accepted sell the quoted profit or loss is exactly the cash the sale brings in less the average buy price times the quantity |
| Settlement.MaxSellQuantity | src/components/BuySellModal.tsx:33 | the held quantity, or 0 without a holding |
| Settlement.ClampQuantity | src/components/BuySellModal.tsx:204 | the entered quantity is the parsed value when that is at least 1, and 1 for an unparsable, zero or negative entry |
| Settlement.SubmitEnabledIffAccepted | src/components/BuySellModal.tsx:266-270 | with the account's own cash and holding and the execution price shown, the submit button is enabled exactly for the trades that are then accepted |
| Settlement.SubmitDisabled | src/components/BuySellModal.tsx:266-270 | the button's `disabled` condition; no contract of its own, `SubmitEnabledIffAccepted` states what it decides |
| Settlement.TotalAmount | src/components/BuySellModal.tsx:27 | the order total; no contract of its own, `ShownAmountsMatchTrade` proves it is the recorded total and the cash movement |
| Settlement.ShownAmountsMatchTrade | src/components/BuySellModal.tsx:27-28 | for an accepted trade the shown total is the amount recorded on the ledger and the amount the cash moves by, and a buy's shown remaining cash is the cash left afterwards |
| Settlement.Settle | src/components/BuySellModal.tsx:52-145 | a submitted trade is refused exactly when its kind's guard fails (cash below the total for a buy; no holding or too few shares for a sell) and otherwise appends one record to the ledger |
| Settlement.SellWithoutHoldingDisabled | src/components/BuySellModal.tsx:269 | a sell with no holding has its submit button disabled |
| Settlement.Account.constructor | src/components/BuySellModal.tsx:41-154 | a new account has the starting cash, no holdings and an empty ledger, and satisfies the invariant |
| Settlement.Account.Submit | src/components/BuySellModal.tsx:41-154 | without a price the trade fails with PriceUnavailable and nothing changes; otherwise a rejected trade returns its error and changes nothing, and an accepted one leaves exactly the state `Buy` or `Sell` computes; the invariant is kept |
| Settlement.Account.RecordBuy | src/components/BuySellModal.tsx:60-102 | the three writes of a buy (ledger, cash, holding), in the source's order, leave the state `Buy` computes |
| Settlement.Account.RecordSell | src/components/BuySellModal.tsx:108-144 | the three writes of a sell, in order, leave the state `Sell` computes, deleting the holding when it reaches zero |
| Settlement.Walkthrough | src/components/BuySellModal.tsx:52-145 | concrete trades: 10 at 100 from 1000 spends all the cash; a buy of 10 at 120 with no cash left is refused; 10 more at 120 averages 110; selling 15 at 130 leaves 5 at 110 and cash 1950; selling the last 5 deletes the holding |
| QuoteFeed.BseSymbol | src/lib/yahooFinance.ts:73-77 | the provider symbol is the NSE symbol followed by ".BSE" |
| QuoteFeed.Fallback | src/lib/yahooFinance.ts:95-111 | the fallback quote has previous close equal to the reference price, change equal to price minus previous close, a price within ±2% of the base and a finite percent within ±2 |
| QuoteFeed.ResetIfNeeded | src/lib/yahooFinance.ts:79-88 | 60000 ms after the last reset the counter goes to 0 and the reset time to now; before that nothing changes |
| QuoteFeed.ResetIdempotent | src/lib/yahooFinance.ts:79-88 | resetting twice is resetting once, the window afterwards is less than a minute old, and the counter never grows |
| QuoteFeed.FetchFromProvider | src/lib/yahooFinance.ts:113-170 | only the limiter fields change; without an API key the fallback comes back and nothing changes; with one the counter goes up by exactly one when it was under 5 after the reset, and otherwise the fallback comes back with the counter unchanged; the counter never passes 5; the quote is always either the fallback or the provider's usable answer |
| QuoteFeed.Step | src/lib/yahooFinance.ts:193-215 | one loop turn takes the head of the queue, answers it from a fresh cache entry without waiting, or fetches, stores the quote stamped with the time and waits 12 s; only that symbol's cache entry changes, and the answer is what the cache now holds |
| QuoteFeed.Drain | src/lib/yahooFinance.ts:193-220 | draining empties the queue, answers as many requests as were queued, after the earlier answers, and ends no earlier than it started |
| QuoteFeed.DrainOrder | src/lib/yahooFinance.ts:193-194 | the j-th answer the drain gives is for the j-th queued request: first in, first out |
| QuoteFeed.ProcessQueueResult | src/lib/yahooFinance.ts:186-223 | a drain already running or an empty queue changes nothing; otherwise the queue is emptied, every request answered and the processing flag is clear again |
| QuoteFeed.DrainKeepsInv | src/lib/yahooFinance.ts:186-223 | draining keeps the ticket invariant: every request ever issued is answered or still queued, once, in issue order |
| QuoteFeed.Fresh | src/lib/yahooFinance.ts:174-175 | a cached entry is used only when it is younger than two minutes; no contract of its own, `FetchStockPriceResult` states its effect |
| QuoteFeed.Usable | src/lib/yahooFinance.ts:151-155 | a provider answer is used only when its price is non-zero; no contract of its own, `ProviderQuote` and `FetchStockPriceResult` state its effect |
| QuoteFeed.ProviderQuote | src/lib/yahooFinance.ts:146-163 | the quote built from a provider answer carries the symbol and the current time and a finite percent, and its price is non-zero exactly when the answer is usable |
| QuoteFeed.FetchStockPriceResult | src/lib/yahooFinance.ts:172-184 | a fresh cache entry is returned and nothing changes; otherwise the symbol is queued, fetched and cached with the current time, one answer is logged for its ticket, and no other cache entry changes |
| QuoteFeed.MissAnswered | src/lib/yahooFinance.ts:179-183 | on a cache miss the call is answered by the queue drain, whose last answer is the quote returned, and the invariant holds afterwards |
| QuoteFeed.SingleDrain | src/lib/yahooFinance.ts:193-220 | draining a queue of one request is one loop turn |
| QuoteFeed.FetchedQuoteSource | src/lib/yahooFinance.ts:172-184 | a quote fetched on a miss is the fallback or the provider's usable answer: the fetch is never empty |
| QuoteFeed.DuplicateServedFromCache | src/lib/yahooFinance.ts:198-203 | two queued requests for one stale symbol get the same quote, and the second is read from the cache, so there is only one 12 s wait |
| QuoteFeed.DrainFrame | src/lib/yahooFinance.ts:193-220 | draining leaves the cache entry of every symbol that was not queued as it was |
| QuoteFeed.CollectKeys | src/lib/yahooFinance.ts:228-233 | collecting answers into a map adds exactly the answered symbols to its keys |
| QuoteFeed.DrainCollect | src/lib/yahooFinance.ts:205-209 | every answer the drain gives agrees with the cache entry stored for it |
| QuoteFeed.ProcessQueueCache | src/lib/yahooFinance.ts:186-223 | a full drain keeps the invariant, its answers agree with the cache, and the cache of unqueued symbols is untouched |
| QuoteFeed.Misses | src/lib/yahooFinance.ts:172-177 | the symbols to queue are no more than those asked for |
| QuoteFeed.MissesMembers | src/lib/yahooFinance.ts:172-177 | a symbol is queued exactly when it was asked for and has no fresh cache entry |
| QuoteFeed.Requests | src/lib/yahooFinance.ts:181 | one request per queued symbol |
| QuoteFeed.RequestsElements | src/lib/yahooFinance.ts:181 | the j-th request is for the j-th symbol, with the j-th ticket after the first |
| QuoteFeed.EnqueueKeepsInv | src/lib/yahooFinance.ts:228-229 | queueing the misses of a batch keeps the ticket invariant |
| QuoteFeed.EnqueueSymbols | src/lib/yahooFinance.ts:228-229 | the queue afterwards holds the symbols it held plus exactly the asked-for symbols without a fresh entry |
| QuoteFeed.ResolvedSymbols | src/lib/yahooFinance.ts:193-220 | the drain answers exactly the symbols that were queued |
| QuoteFeed.BatchAnswers | src/lib/yahooFinance.ts:225-237 | the batch result has exactly the asked-for symbols as keys, every value agrees with the cache, and the invariant holds |
| QuoteFeed.BatchKeys | src/lib/yahooFinance.ts:225-237 | cache hits plus drained answers cover exactly the asked-for symbols |
| QuoteFeed.Feed.constructor | src/lib/yahooFinance.ts:10-24 | the module starts with an empty cache, a zero counter reset at load time, an empty queue, no drain running and no answers |
| QuoteFeed.Feed.ResetRateLimitIfNeeded | src/lib/yahooFinance.ts:79-88 | the new state is `ResetIfNeeded` of the old one |
| QuoteFeed.Feed.CanMakeApiCall | src/lib/yahooFinance.ts:90-93 | the limiter is reset if due, and a call is allowed exactly when the counter is then under 5 |
| QuoteFeed.Feed.FetchFromAlphaVantage | src/lib/yahooFinance.ts:113-170 | the quote and the new state are those `FetchFromProvider` gives |
| QuoteFeed.Feed.ProcessQueue | src/lib/yahooFinance.ts:186-223 | the loop leaves the state and the finish time that `ProcessQueueResult` gives |
| QuoteFeed.Feed.ServeHead | src/lib/yahooFinance.ts:194-215 | one turn of the loop agrees with `Step`, and draining the rest afterwards equals draining the whole queue |
| QuoteFeed.Feed.FetchStockPrice | src/lib/yahooFinance.ts:172-184 | the quote and the new state are those `FetchStockPriceResult` gives, and the invariant is kept |
| QuoteFeed.Feed.FetchMultipleStockPrices | src/lib/yahooFinance.ts:225-237 | the misses are queued and drained, the result has a key for exactly the asked-for symbols, and each value is what the cache holds for it |
| QuoteFeed.Feed.LookUpBatch | src/lib/yahooFinance.ts:172-177 | the cache hits of a batch are returned and exactly the misses are queued, in order, with fresh tickets |
| QuoteFeed.Feed.CollectResolutions | src/lib/yahooFinance.ts:230-232 | the answers logged since a point are added to the map in order |
| QuoteFeed.Feed.ClearPriceCache | src/lib/yahooFinance.ts:239-240 | the cache is emptied and nothing else changes |
| HistoricalQuotes.LatestHistoricalQuote | src/lib/stockPrices.ts:52-90 | a failed query or no rows give no quote; otherwise the price is the latest close, the previous close is the second-latest close (or the latest when there is one row) and change is their difference |
| HistoricalQuotes.ChangePercentMeaning | src/lib/stockPrices.ts:75-76 | with a non-zero previous close, previous·(1 + percent/100) is the price; with a zero previous close the percent is +∞, −∞ or NaN as in JavaScript |
| HistoricalQuotes.SingleRowNoChange | src/lib/stockPrices.ts:71 | one row gives previous close equal to the price and change 0, with percent 0 (NaN for a zero close) |
| HistoricalQuotes.OnlyTwoLatestRows | src/lib/stockPrices.ts:59-71 | only the two latest rows matter |
| HistoricalQuotes.HistoryExample | src/lib/stockPrices.ts:70-76 | closes 100 and 95 give change 5 and percent 500/95 |
| HistoricalQuotes.HistoryFallback | src/lib/stockPrices.ts:92-108 | this module's fallback has previous close equal to the base and a price within ±1% of it, with a percent within ±1 |
| HistoricalQuotes.InitialQuote | src/lib/stockPrices.ts:113-120 | the quote is for the stock's own symbol |
| HistoricalQuotes.PriceMapKeys | src/lib/stockPrices.ts:120 | the price map has a key for exactly the input stocks' symbols |
| HistoricalQuotes.PriceMapLast | src/lib/stockPrices.ts:120 | when symbols repeat, the entry is the one set last |
| HistoricalQuotes.InitialQuotes | src/lib/stockPrices.ts:113-121 | one quote per stock, in order: the historical quote when there is one, else the fallback |
| HistoricalQuotes.GetInitialStockPrices | src/lib/stockPrices.ts:110-125 | the map built by the loop has an entry for every input stock, with its historical-or-fallback quote |
| HistoricalQuotes.BatchFallbackQuote | src/lib/stockPrices.ts:164-169 | on the error path a stock with a non-zero id gets its historical-or-fallback quote and one with id 0 gets the fallback |
| HistoricalQuotes.BatchFallbackQuotes | src/lib/stockPrices.ts:163-170 | one error-path quote per stock, in order |
| HistoricalQuotes.Normalize | src/lib/stockPrices.ts:148-150 | a list of symbols becomes stocks with id 0, and a list of stocks is kept |
| HistoricalQuotes.SymbolList | src/lib/stockPrices.ts:152 | the symbols of the stocks, in order |
| HistoricalQuotes.NormalizeKeepsSymbols | src/lib/stockPrices.ts:148-152 | normalising symbols and taking their symbols back gives the input |
| HistoricalQuotes.SymbolListGetsFallbacks | src/lib/stockPrices.ts:164-168 | on the error path a list of symbols never reads the history: each gets the fallback |
| HistoricalQuotes.BatchFallbackAgreesWithInitial | src/lib/stockPrices.ts:110-170 | for stocks with non-zero ids the error path gives the same quotes as the initial price map |
| HistoricalQuotes.FallbackPrices | src/lib/stockPrices.ts:161-171 | the loop's map has an entry for every input stock with its error-path quote |
| HistoricalQuotes.FetchMultipleStockPrices | src/lib/stockPrices.ts:146-173 | every normalised symbol gets an entry; when the feed answers, the result agrees with the feed's cache after the batch; when it fails, the feed is untouched and the result is the error-path map |
| HistoricalQuotes.BackgroundRun | src/lib/stockPrices.ts:132-143 | fetching the symbols one after another gives one quote per symbol and leaves the feed idle |
| HistoricalQuotes.BackgroundRunAnswers | src/lib/stockPrices.ts:134-139 | the i-th quote is what the feed answers for the i-th symbol after the earlier symbols were fetched |
| HistoricalQuotes.UpdatePricesInBackground | src/lib/stockPrices.ts:127-144 | the callback runs once per stock, in input order, with that stock's symbol and the feed's answer, and the feed's state is the sequential run's |
| MarketHours.IsMarketOpen | src/lib/marketUtils.ts:4-47 | open exactly on a weekday, between 09:15 and 15:30 inclusive, on a date outside the holiday list |
| MarketHours.TradingWindowEdges | src/lib/marketUtils.ts:18-23 | on a working weekday 09:15 and 15:30 are open, 09:14 and 15:31 are closed |
| MarketHours.RepublicDayClosed | src/lib/marketUtils.ts:25-44 | 2025-01-26 is closed at any hour |
| MarketHours.IsWeekend | src/lib/marketUtils.ts:9-12 | Sunday (0) and Saturday (6); no contract of its own, `IsMarketOpen` and `NextTradingDay` state what it decides |
| MarketHours.NextTradingDay | src/lib/marketUtils.ts:49-58 | the day found is 1 to 3 days ahead, a weekday, every day skipped is a weekend day, and it is 3 days after a Friday, 2 after a Saturday and 1 otherwise |
| MarketHours.TimeAgo | src/lib/marketUtils.ts:102-113 | under a minute reads "Just now", a week or more a date, and each other bucket holds the whole minutes, hours or days that have fully elapsed |
| MarketHours.TimeAgoExamples | src/lib/marketUtils.ts:105-110 | 90 s is one minute, 2 h is two hours, a time in the future is "Just now" |
| CsvImport.StripCommas | scripts/importHistoricalData.ts:118 | the result has no comma and is no longer than the input |
| CsvImport.ParseNumber | scripts/importHistoricalData.ts:114-120 | "", "-" and "null" give null; anything else is parsed after its commas are removed |
| CsvImport.StripCommasNone | scripts/importHistoricalData.ts:118 | a value without commas is parsed as it is |
| CsvImport.StripCommasDropsOne | scripts/importHistoricalData.ts:118 | a thousands separator is dropped and the digits either side are kept |
| CsvImport.ParseNumberDropsComma | scripts/importHistoricalData.ts:118 | "a,b" parses as "ab" |
| CsvImport.OrZero | scripts/importHistoricalData.ts:298-300 | a missing number reads 0, a present one is kept |
| CsvImport.ParseDate | scripts/importHistoricalData.ts:122-153 | DD-MMM-YYYY to YYYY-MM-DD; no contract of its own, `ParseDateMeaning` and `ParseDateRoundTrip` state its meaning |
| CsvImport.ParseDateMeaning | scripts/importHistoricalData.ts:122-153 | a date comes out exactly when splitting on '-' gives three pieces with a known month name in the middle, and it is year-MM-day with the day padded to two characters |
| CsvImport.ParseDateRoundTrip | scripts/importHistoricalData.ts:125-148 | for a day, a month name and a year without '-', the output splits back into the year, the month number and the padded day |
| CsvImport.ParseDateExample | scripts/importHistoricalData.ts:124 | "01-Jan-2008" becomes "2008-01-01" |
| CsvImport.ParseDateUnknownMonth | scripts/importHistoricalData.ts:143-146 | an unknown month name gives null |
| CsvImport.ParseDateExtraPiece | scripts/importHistoricalData.ts:125-126 | four pieces give null |
| CsvImport.NormalizeSymbol | scripts/importHistoricalData.ts:215-218 | normalising keeps the length of the symbol |
| CsvImport.NormalizeExample | scripts/importHistoricalData.ts:215-218 | "M_M" becomes "M&M", and the key looked up is "M&M" too |
| CsvImport.LookupKeyOneUnderscore | scripts/importHistoricalData.ts:192-198 | for a symbol with one '_', normalising twice equals normalising once and puts '&' in its place |
| CsvImport.ConvertRow | scripts/importHistoricalData.ts:264-303 | a row is kept exactly when its stock id is found and non-zero, its date parses and open, high, low and close are present; the record carries the id, the parsed date and the parsed open, high, low and close; volume, turnover and trades default to 0; previous close, last, VWAP, deliverable volume and deliverable percent stay null when missing |
| CsvImport.Accepted | scripts/importHistoricalData.ts:256-311 | no more records are kept than there are rows |
| CsvImport.Skipped | scripts/importHistoricalData.ts:267-286 | skipped plus kept is the number of rows |
| CsvImport.SucceededPlusFailed | scripts/importHistoricalData.ts:320-342 | the batches' success and failed counts add up to the number of records batched |
| CsvImport.SplitIntoBatches | scripts/importHistoricalData.ts:249-316 | the batches concatenate to the kept records in order, all but the last hold 1000 and none is empty, and the skipped count is the number of rejected rows |
| CsvImport.UpsertBatches | scripts/importHistoricalData.ts:320-342 | a failed batch adds its size to failed and a successful one to success |
| CsvImport.ImportCsvFile | scripts/importHistoricalData.ts:220-347 | a missing or unparsable file gives zero counts; otherwise the batching and the three counts are as above |
| CsvImport.CountsAddUp | scripts/importHistoricalData.ts:249-346 | success + failed is the number accepted, and success + failed + skipped is the number of rows |
| Text.Lower | src/pages/Holdings.tsx:73-74 | lower-casing keeps the length, lower-cases the ASCII letters A-Z and keeps every other character |
| Text.LowerIdempotent | src/pages/Holdings.tsx:73-74 | lower-casing twice is lower-casing once |
| Text.Includes | src/pages/Holdings.tsx:73-74 | a match needs the text to be at least as long as the searched part, and a prefix always matches; `IncludesIffOccurs` gives the full meaning |
| Text.MatchesSearch | src/pages/Holdings.tsx:72-74 | a query longer than both the symbol and the company name never matches |
| Text.SearchIgnoresQueryCase | src/pages/StocksList.tsx:74-78 | a query matches exactly when its lower-cased form does |
| Text.IncludesIffOccurs | src/pages/Holdings.tsx:73-74 | `includes` holds exactly when the text occurs at some position |
| Text.Split | scripts/importHistoricalData.ts:125 | splitting gives at least one piece |
| Text.JoinSplit | scripts/importHistoricalData.ts:125 | joining the pieces with the separator gives back the input |
| Text.PadStart | scripts/importHistoricalData.ts:128 | a short value is filled on the left with the pad character up to the width, a long one is kept |
| Text.IndexOf | scripts/importHistoricalData.ts:217 | the first position of the character, or the length when it is absent |
| Text.ReplaceFirst | scripts/importHistoricalData.ts:217 | replacing keeps the length |
| Text.ReplaceFirstSpec | scripts/importHistoricalData.ts:217 | only the first occurrence is replaced and every other character is kept; a value without it is unchanged |
| Text.EmptyQueryMatches | src/pages/Holdings.tsx:72-74 | the empty query matches every stock |
| Sequences.Filter | src/pages/Holdings.tsx:71-85 | the kept elements are exactly those in the input that satisfy the predicate, and no more than the input |
| Sequences.FilterAppend | src/pages/Transactions.tsx:45 | filtering a concatenation filters each part, so the order is kept |
| Sequences.FilterKeepsAll | src/pages/StocksList.tsx:74-78 | a predicate every element satisfies keeps the whole input |
| Sequences.FilterMultiplicity | src/pages/Holdings.tsx:71-85 | each kept element appears as often as in the input |
| Sequences.FilterComplement | src/pages/Transactions.tsx:45 | a predicate and its negation split the input |
| Sequences.InsertMultiset | src/pages/Holdings.tsx:87 | insertion adds exactly the new element |
| Sequences.InsertSorted | src/pages/Holdings.tsx:87 | inserting into a descending sequence keeps it descending |
| Sequences.SortDescending | src/pages/Holdings.tsx:87-104 | the result is a permutation of the input in non-increasing order of the key |
| Valuation.CurrentPrice | src/pages/Holdings.tsx:62-63 | the quote price, or the average buy price without a quote or with a zero one |
| Valuation.CalculateTotals | src/pages/Holdings.tsx:54-68 | the totals are the cost basis, the market value, their difference and the number of holdings |
| Valuation.UnquotedWorthCost | src/pages/Holdings.tsx:62-64 | without usable quotes the market value equals the cost basis |
| Valuation.PassesFilter | src/pages/Holdings.tsx:82-84 | 'profitable' keeps pnl > 0, 'loss' keeps pnl < 0, 'all' keeps everything |
| Valuation.BreakEvenOnlyUnderAll | src/pages/Holdings.tsx:82-84 | a holding at zero profit shows only under 'all' |
| Valuation.Keeps | src/pages/Holdings.tsx:71-85 | the search and then the profit/loss filter; no contract of its own, `KeepsMeaning` and `FilteredAndSortedMembers` state its meaning |
| Valuation.KeepsMeaning | src/pages/Holdings.tsx:71-85 | an empty search under 'all' keeps every holding, and a holding kept under 'profitable' or 'loss' gains or loses at its shown price |
| Valuation.SortKey | src/pages/Holdings.tsx:87-104 | the value key is the holding's market value, the percent key is the move of the shown price over the average buy price, and the quantity key is the quantity |
| Valuation.FilteredAndSorted | src/pages/Holdings.tsx:70-107 | the result is a permutation of the holdings that match the search and the filter, in non-increasing order of the chosen key |
| Valuation.FilteredAndSortedMembers | src/pages/Holdings.tsx:70-107 | a holding is shown exactly when it matches the search and the filter, as often as it occurs |
| Valuation.ShowAllReorders | src/pages/Holdings.tsx:70-107 | with no search and 'all' the page shows every holding, only reordered |
| Valuation.StudentPortfolioValue | src/pages/StudentDashboard.tsx:77-85 | the loop's total is the market value of the holdings |
| Valuation.StudentTotalInvested | src/pages/StudentDashboard.tsx:87-93 | the loop's total is the cost basis |
| Valuation.StudentOverview | src/pages/StudentDashboard.tsx:97-99 | the total is cash (0 without a profile) plus the portfolio; the result is that minus 100000, and 100000·(1 + percent/100) is the total |
| Valuation.FooterPercent | src/pages/StudentDashboard.tsx:286 | with a positive amount invested, invested·(1 + percent/100) is the portfolio value; otherwise the percent is 0 |
| Valuation.SellClickOpens | src/pages/StudentDashboard.tsx:101-106 | the sell dialog opens exactly when a quote for the symbol exists |
| Valuation.SellDialogPrice | src/pages/StudentDashboard.tsx:369-374 | the dialog has a price exactly when it opens; it is the price the holding is valued at for a non-zero quote, and the stock's stored price for a quote of 0 |
| Valuation.ParentPortfolioValue | src/pages/ParentDashboard.tsx:96-107 | the loop's total adds quantity·price for quoted holdings and quantity·average for the others |
| Valuation.ParentTotalPnL | src/pages/ParentDashboard.tsx:109-119 | the loop's total adds (price − average)·quantity for quoted holdings only |
| Valuation.ParentPnLIsValueLessCost | src/pages/ParentDashboard.tsx:96-119 | the parent's total profit or loss is the portfolio value less the cost basis |
| Valuation.DashboardsAgree | src/pages/ParentDashboard.tsx:96-107 | when no quote is zero, the parent's and the student's portfolio values agree |
| Valuation.ParentTotalValue | src/pages/ParentDashboard.tsx:123 | the total value less the portfolio is the child's cash |
| Valuation.ParentTotalValueParts | src/pages/ParentDashboard.tsx:121-123 | the parent's total value is the child's cash plus what the holdings cost plus the reported profit or loss |
| Valuation.ParentSeesStudentTotal | src/pages/ParentDashboard.tsx:121-123 | unless a held symbol is quoted at 0, the parent's total value is the one on the child's own dashboard |
| StockDetail.DaysBack | src/pages/StockDetail.tsx:100-114 | 3M, 6M and 1Y look back 90, 180 and 365 days, and any other range 30 |
| StockDetail.FilteredHistory | src/pages/StockDetail.tsx:96-118 | no history gives nothing, 'ALL' gives the history unchanged, and otherwise exactly the rows dated on or after the cutoff are kept |
| StockDetail.FilteredHistoryKeepsOrder | src/pages/StockDetail.tsx:117 | the kept rows stay in their order |
| StockDetail.FilteredHistoryExample | src/pages/StockDetail.tsx:100-117 | a row from a week ago shows under 1M and one from 100 days ago only from 6M on |
| StockDetail.AIInsight | src/pages/StockDetail.tsx:125-135 | the four described stocks get their own text and any other stock the general text with its company name |
| StockDetail.InsightDefault | src/pages/StockDetail.tsx:131-134 | the 'DEFAULT' entry is the general text, and every stock without its own text gets what 'DEFAULT' gets |
| StockDetail.InsightUsesName | src/pages/StockDetail.tsx:125-134 | a described stock's text ignores the company name, and the general text differs for different company names |
| StockDetail.PriceHeader | src/pages/StockDetail.tsx:159-162 | the price is the quote's, else the stored price; change and percent default to 0; the header is positive exactly when the change is not negative |
| StockDetail.NoQuoteHeader | src/pages/StockDetail.tsx:159-162 | without a quote the header shows the stored price, no change, and counts as positive |
| StockDetail.BuyEnabled | src/pages/StockDetail.tsx:224-227 | BUY is enabled while the market is open; no contract of its own, `SellEnabledOnlyWithBuy` relates it to SELL |
| StockDetail.SellEnabled | src/pages/StockDetail.tsx:231-234 | SELL is enabled exactly when the market is open and a non-zero holding exists |
| StockDetail.SellEnabledOnlyWithBuy | src/pages/StockDetail.tsx:224-234 | SELL is never enabled while BUY is not, and is enabled whenever BUY is and a non-zero holding exists |
| StockDetail.ModalShown | src/pages/StockDetail.tsx:367 | the trade dialog shows exactly when requested, with the stock loaded and a quote present |
| StockDetail.DialogPriceIsHeaderPrice | src/pages/StockDetail.tsx:159-371 | a shown dialog trades at the price the header shows when the quote's price is non-zero; a quote of 0 opens it at 0 while the header shows the stored price |
| StockDetail.SellImpliesBuy | src/pages/StockDetail.tsx:224-234 | whenever SELL is enabled BUY is too |
| Onboarding.CharIndex | src/pages/Onboarding.tsx:14 | floor(r·32) is a valid index into the alphabet for every r in [0, 1) |
| Onboarding.ParentCode | src/pages/Onboarding.tsx:10-17 | one character per draw, each the alphabet's character at that draw's index |
| Onboarding.NoLookAlikes | src/pages/Onboarding.tsx:11 | a code never contains I, O, 0 or 1 |
| Onboarding.GenerateParentCode | src/pages/Onboarding.tsx:10-17 | the loop builds the 8-character code of the eight draws |
| Onboarding.UniqueParentCode | src/pages/Onboarding.tsx:57-72 | a code returned is 8 characters long, in no existing profile and is the first such among the attempts; none is returned only when every attempt is taken |
| Onboarding.CreateStudentProfile | src/pages/Onboarding.tsx:36-95 | it fails with no user exactly when nobody is signed in, with a taken username exactly when a signed-in user picks one in use, and for want of a code exactly when every attempt is taken; a new student profile has the user's id, the username, the first attempted 8-character code not in use and 100000 of cash |
| Transactions.FilteredTransactions | src/pages/Transactions.tsx:42-45 | 'all' gives the list unchanged, and a type keeps exactly the records of that type |
| Transactions.FilteredKeepsOrder | src/pages/Transactions.tsx:45 | the filtered list keeps the newest-first order |
| Transactions.FilteredKeepsDuplicates | src/pages/Transactions.tsx:45 | every record of the chosen type is kept as often as it occurs |
| Transactions.BuysAndSellsPartition | src/pages/Transactions.tsx:45 | the BUY list and the SELL list together are as long as the whole list |
| Transactions.DisplayedAmount | src/pages/Transactions.tsx:176-177 | a BUY shows its total negated and a SELL shows it as it is |
| Transactions.AmountSign | src/pages/Transactions.tsx:176 | '-' for a BUY and '+' for a SELL; no contract of its own, `SignIsCashDirection` states its meaning |
| Transactions.SignIsCashDirection | src/pages/Transactions.tsx:176-177 | the displayed amount is the record's effect on the cash balance, and '-' is shown exactly for a BUY |
| StocksList.FilteredStocks | src/pages/StocksList.tsx:74-78 | a stock is listed exactly when it matches the search, ignoring case |
| StocksList.EmptyQueryKeepsAll | src/pages/StocksList.tsx:74-78 | the empty search lists every stock |
| StocksList.FilteredKeepsOrder | src/pages/StocksList.tsx:74-78 | the search keeps the list's symbol order |
| StocksList.ApplyUpdate | src/pages/StocksList.tsx:45-51 | an update sets the entry of its symbol and leaves every other entry as it was |
| StocksList.ApplyAllKeys | src/pages/StocksList.tsx:59-65 | after a run of updates the map holds the old symbols plus the updated ones |
| StocksList.ApplyAllLeavesOthers | src/pages/StocksList.tsx:59-65 | a symbol no update names keeps its entry |
| StocksList.ApplyAllLastWins | src/pages/StocksList.tsx:59-65 | a symbol holds the quote of its last update |
| StocksList.DisplayRow | src/pages/StocksList.tsx:158-182 | without a quote the row shows zeros; the percent falls back to 0 for 0 or NaN; "Loading..." shows exactly when the price is not positive; the row is positive exactly when the change is not negative |
| StocksList.UpdateEndsLoading | src/pages/StocksList.tsx:178-182 | an update with a positive price ends "Loading..." for its row and shows that price |

## Left out

- Concurrency. The `Promise.all` fan-outs and interleavings between callers
  are not modelled. This includes a second `processQueue` arriving while one
  is running. Every operation runs to completion before the next starts, so
  the processing flag is clear between calls.
- Randomness and time. Math.random and `Date.now` are parameters: the draws,
  `now`, and the times of the background run. The 12 s wait is modelled as a
  later time for the next loop turn, not as an actual delay.
- Rounding. `toFixed(2)` is not modelled, nor are the `parseFloat` and
  `parseInt` internals. Everything is `real`. `parseFloat` in the CSV import
  is a parameter that returns None for NaN.
- `DAILY_CALL_LIMIT` is declared in `src/lib/yahooFinance.ts` but never
  used, so no daily limit is modelled.
- The Alpha Vantage fetch and the JSON handling become a datatype of
  answers: a parsed quote, a Note or Information payload, an empty quote, or
  a thrown error. A parsed quote with price 0 is not used. The raw field
  parsing is not modelled.
- `src/lib/stockPrices.ts` `fetchMultipleStockPrices`: whether the feed call
  throws is the `feedFails` flag. The feed itself never throws in the model.
- Time zones and `Intl` formatting are not modelled. This covers
  `toLocaleString` and `toISOString`, the currency and number formats, the
  readable date of `getNextMarketOpenTime`, the date that `getTimeAgo` shows
  after a week, and the chart date labels. The clock is given already in
  India Standard Time.
- Supabase writes and reads become state and parameters. A failed insert,
  update or delete part way through a trade is not modelled: an accepted
  trade is one step. The failed profile insert of onboarding is left out in
  the same way.
- Text.Lower: only the ASCII letters A-Z are lower-cased. JavaScript's
  `toLowerCase` applies the full Unicode case mapping (the Kelvin sign
  becomes "k", for instance) and works on UTF-16 code units; the model's
  characters are not code units, and a search that matches only through a
  non-ASCII case mapping does not match in the model.
- The insight texts are not copied: `AIInsight` returns which text is shown.
- JavaScript object-key lookups such as `insights[symbol]` and `monthMap[...]`
  also find inherited names like "constructor". The model looks keys up in
  plain maps only.
- Sequences.SortDescending: stability is not proved. `Array.prototype.sort`
  is modelled as an insertion sort on a `seq`, not as an in-place array sort.
- Valuation.FilteredAndSorted: requires non-zero average prices for the
  P&L-percent order. A zero average makes the comparator NaN, and the order
  JavaScript then returns is implementation-defined.
- Onboarding.UniqueParentCode: the retry loop of `src/pages/Onboarding.tsx`
  may run for ever. The model takes the candidate codes as a finite list of
  draws, and `NoFreeCode` means the list was used up.
- The parent's onboarding step (entering a student's code) and role
  selection are not modelled.
- `main()` of the import script, with its totals over several files, is not
  modelled. Neither is `ensureStocksExist`, and the stock-id lookup is a
  parameter.
- CsvImport.ConvertRow: the row's symbol is normalised once by
  `normalizeSymbol` and again inside `getStockId`. The key looked up
  therefore has the first two underscores replaced, and the model follows
  that. A stock id of 0 counts as missing, as `!stockId` does.
- Settlement: the quantity must be at least 1, which the input clamp
  (`Math.max(1, ...)`) guarantees. The price re-fetched before the trade is
  an `Option` parameter, and its absence is the PriceUnavailable error.
- The dialog's stale `virtual_cash` reads after a concurrent trade are not
  modelled.
- Settlement.Walkthrough: after 10 are bought at 100 from 1000, a buy of 10
  at 120 is refused by the funds check. The later steps start from states
  that accept them.
- Valuation.FooterPercent: the code guards the division with
  `totalInvested > 0`. A negative amount invested also shows 0, and the
  model follows the code.
- React hooks, timers, polling, routing, the social feed and the database
  diagnostic scripts are not modelled: they hold no logic to verify.
