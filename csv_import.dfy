/** The historical-data import (scripts/importHistoricalData.ts): parsing
    of dates and numbers, symbol normalisation, the decision to keep or skip
    a CSV row, the split of the kept rows into batches of 1000 and the
    success, failed and skipped counts of one file.

    The CSV library, the file system and the database are outside the
    model: the parsed records are the input (None when the file is missing
    or does not parse), `parseFloat` is a parameter (None for NaN), the
    symbol-to-id lookup is a parameter, and so is the outcome of each
    batch's upsert. */
module CsvImport {
  import opened Common
  import opened Text

  // ------------------------------------------------------------ parseNumber

  /** `value.replace(/,/g, '')`. */
  function StripCommas(value: string): (r: string)
    ensures ',' !in r
    ensures |r| <= |value|
  {
    if value == [] then []
    else (if value[0] == ',' then [] else [value[0]]) + StripCommas(value[1..])
  }

  /** Stripping commas keeps every other character, in order. */
  lemma {:induction false} StripCommasAppend(a: string, b: string)
    ensures StripCommas(a + b) == StripCommas(a) + StripCommas(b)
  {
    if a == [] {
      assert a + b == b;
    } else {
      assert (a + b)[1..] == a[1..] + b;
      StripCommasAppend(a[1..], b);
    }
  }

  /** `parseNumber`: no number for "", "-" or "null", otherwise what
      `parseFloat` makes of the value without its commas. */
  function ParseNumber(value: string, parseFloat: string -> Option<real>): (r: Option<real>)
    ensures value == "" || value == "-" || value == "null" ==> r == None
    ensures value != "" && value != "-" && value != "null" ==> r == parseFloat(StripCommas(value))
  {
    if value == "" || value == "-" || value == "null" then None
    else parseFloat(StripCommas(value))
  }

  /** A string without commas is left as it is. */
  lemma {:induction false} StripCommasNone(value: string)
    requires ',' !in value
    ensures StripCommas(value) == value
  {
    if value != [] {
      StripCommasNone(value[1..]);
      assert value == [value[0]] + value[1..];
    }
  }

  /** Stripping a comma between two pieces joins what remains of them. */
  lemma StripCommasDropsOne(a: string, b: string)
    ensures StripCommas(a + "," + b) == StripCommas(a) + StripCommas(b)
  {
    StripCommasAppend(a + ",", b);
    StripCommasAppend(a, ",");
    assert StripCommas(",") == [] by {
      assert ","[1..] == [];
    }
  }

  /** A thousands separator is dropped before parsing: "1,234" is parsed as "1234". */
  lemma ParseNumberDropsComma(a: string, b: string, parseFloat: string -> Option<real>)
    requires ',' !in a && ',' !in b
    ensures ParseNumber(a + "," + b, parseFloat) == parseFloat(a + b)
  {
    var v := a + "," + b;
    assert v != "" && v != "-" && v != "null" by {
      assert v[|a|] == ',';
      assert ',' !in "-" && ',' !in "null";
    }
    StripCommasDropsOne(a, b);
    StripCommasNone(a);
    StripCommasNone(b);
  }

  /** `parseNumber(x) || 0`: a missing number, or 0, counts as 0. */
  function OrZero(n: Option<real>): (r: real)
    ensures n.Some? ==> r == n.value
    ensures n.None? ==> r == 0.0
  {
    if n.Some? && n.value != 0.0 then n.value else 0.0
  }

  // -------------------------------------------------------------- parseDate

  /** The three-letter month names and their two-digit numbers. */
  const MonthNumbers: map<string, string> := map[
    "Jan" := "01", "Feb" := "02", "Mar" := "03", "Apr" := "04",
    "May" := "05", "Jun" := "06", "Jul" := "07", "Aug" := "08",
    "Sep" := "09", "Oct" := "10", "Nov" := "11", "Dec" := "12"
  ]

  /** `parseDate`: a DD-MMM-YYYY date becomes YYYY-MM-DD, the day padded to
      two characters with '0'; no date unless splitting on '-' gives
      exactly three pieces and the middle one is a month name. */
  function ParseDate(dateStr: string): (r: Option<string>)
  {
    var parts := Split(dateStr, '-');
    if |parts| != 3 then None
    else
      var day := PadStart(parts[0], 2, '0');
      if parts[1] !in MonthNumbers then None
      else
        var month := MonthNumbers[parts[1]];
        var year := parts[2];
        Some(year + "-" + month + "-" + day)
  }

  /** A date comes out exactly when there are three pieces and the middle
      one is a month name; it is the year, the month number and the padded
      day, joined by '-'. */
  lemma ParseDateMeaning(dateStr: string)
    ensures var parts := Split(dateStr, '-');
            && (ParseDate(dateStr).Some? <==> |parts| == 3 && parts[1] in MonthNumbers)
            && (ParseDate(dateStr).Some? ==>
                  ParseDate(dateStr).value == parts[2] + "-" + MonthNumbers[parts[1]] + "-" + PadStart(parts[0], 2, '0'))
  {
  }

  /** Pieces free of '-' joined by '-' split back into those pieces. */
  lemma SplitThree(a: string, b: string, c: string)
    requires '-' !in a && '-' !in b && '-' !in c
    ensures Split(a + "-" + b + "-" + c, '-') == [a, b, c]
  {
    assert a + "-" + b + "-" + c == a + ['-'] + (b + ['-'] + c);
    SplitAfterPiece(a, '-', b + ['-'] + c);
    SplitAfterPiece(b, '-', c);
    SplitNoSeparator(c, '-');
  }

  /** Any day, month name and year without '-' convert; the result splits
      back into the year, the month number and the padded day. */
  lemma {:induction false} ParseDateRoundTrip(day: string, month: string, year: string)
    requires '-' !in day && '-' !in year && month in MonthNumbers
    ensures ParseDate(day + "-" + month + "-" + year) ==
              Some(year + "-" + MonthNumbers[month] + "-" + PadStart(day, 2, '0'))
    ensures Split(ParseDate(day + "-" + month + "-" + year).value, '-') ==
              [year, MonthNumbers[month], PadStart(day, 2, '0')]
  {
    assert '-' !in month;
    SplitThree(day, month, year);
    var mm := MonthNumbers[month];
    assert '-' !in mm;
    assert '-' !in PadStart(day, 2, '0');
    SplitThree(year, mm, PadStart(day, 2, '0'));
  }

  /** "01-Jan-2008" becomes "2008-01-01". */
  lemma ParseDateExample()
    ensures ParseDate("01-Jan-2008") == Some("2008-01-01")
  {
    assert "01-Jan-2008" == "01" + "-" + "Jan" + "-" + "2008";
    ParseDateRoundTrip("01", "Jan", "2008");
    assert MonthNumbers["Jan"] == "01";
    assert PadStart("01", 2, '0') == "01";
    assert "2008" + "-" + "01" + "-" + "01" == "2008-01-01";
  }

  /** An unknown month name gives no date. */
  lemma ParseDateUnknownMonth(day: string, month: string, year: string)
    requires '-' !in day && '-' !in month && '-' !in year && month !in MonthNumbers
    ensures ParseDate(day + "-" + month + "-" + year) == None
  {
    SplitThree(day, month, year);
  }

  /** A date with a fourth piece gives no date. */
  lemma ParseDateExtraPiece(a: string, b: string, c: string, d: string)
    requires '-' !in a && '-' !in b && '-' !in c && '-' !in d
    ensures ParseDate(a + "-" + b + "-" + c + "-" + d) == None
  {
    assert a + "-" + b + "-" + c + "-" + d == a + ['-'] + (b + "-" + c + "-" + d);
    SplitAfterPiece(a, '-', b + "-" + c + "-" + d);
    SplitThree(b, c, d);
  }

  // -------------------------------------------------------- normalizeSymbol

  /** `normalizeSymbol`: the first '_' becomes '&'. */
  function NormalizeSymbol(symbol: string): (r: string)
    ensures |r| == |symbol|
  {
    ReplaceFirst(symbol, '_', '&')
  }

  /** The key `getStockId` looks up: it normalises the already normalised
      symbol once more. */
  function LookupKey(symbol: string): string
  {
    NormalizeSymbol(NormalizeSymbol(symbol))
  }

  /** "M_M" is looked up as "M&M". */
  lemma NormalizeExample()
    ensures NormalizeSymbol("M_M") == "M&M"
    ensures LookupKey("M_M") == "M&M"
  {
    assert IndexOf("M_M", '_') == 1 by {
      assert "M_M"[1..] == "_M";
    }
    assert IndexOf("M&M", '_') == 3 by {
      assert "M&M"[1..] == "&M" && "&M"[1..] == "M" && "M"[1..] == "";
    }
  }

  /** With at most one '_' the second normalisation changes nothing. */
  lemma LookupKeyOneUnderscore(symbol: string, k: int)
    requires 0 <= k < |symbol| && symbol[k] == '_'
    requires forall i :: 0 <= i < |symbol| && i != k ==> symbol[i] != '_'
    ensures LookupKey(symbol) == NormalizeSymbol(symbol)
    ensures NormalizeSymbol(symbol)[k] == '&'
  {
    ReplaceFirstSpec(symbol, '_', '&');
    var n := NormalizeSymbol(symbol);
    assert IndexOf(symbol, '_') == k;
    assert '_' !in n;
    ReplaceFirstSpec(n, '_', '&');
  }

  // ----------------------------------------------------------- one CSV row

  /** The columns of a CSV row the import reads, as strings. */
  datatype CsvRow = CsvRow(
    date: string, symbol: string, prevClose: string, open: string, high: string, low: string,
    last: string, close: string, vwap: string, volume: string, turnover: string, trades: string,
    deliverableVolume: string, deliverablePercent: string)

  /** A stock_history row as the import writes it. */
  datatype HistoryRecord = HistoryRecord(
    stockId: int, date: string, prevClose: Option<real>, open: real, high: real, low: real,
    last: Option<real>, close: real, vwap: Option<real>, volume: real, turnover: real, trades: real,
    deliverableVolume: Option<real>, deliverablePercent: Option<real>)

  /** The per-row part of the import loop: skip the row when the symbol has
      no stock id (or id 0), the date does not parse, or open, high, low or
      close is missing; otherwise build the record, volume, turnover and
      trades defaulting to 0 and the other optional columns staying empty. */
  function ConvertRow(row: CsvRow, stockIds: string -> Option<int>, parseFloat: string -> Option<real>)
    : (r: Option<HistoryRecord>)
    ensures r.Some? <==>
              && stockIds(LookupKey(row.symbol)).Some? && stockIds(LookupKey(row.symbol)).value != 0
              && ParseDate(row.date).Some?
              && ParseNumber(row.open, parseFloat).Some? && ParseNumber(row.high, parseFloat).Some?
              && ParseNumber(row.low, parseFloat).Some? && ParseNumber(row.close, parseFloat).Some?
    ensures r.Some? ==>
              && r.value.stockId == stockIds(LookupKey(row.symbol)).value
              && r.value.date == ParseDate(row.date).value
              && r.value.close == ParseNumber(row.close, parseFloat).value
              && r.value.volume == OrZero(ParseNumber(row.volume, parseFloat))
              && r.value.vwap == ParseNumber(row.vwap, parseFloat)
    ensures r.Some? ==>
              && r.value.open == ParseNumber(row.open, parseFloat).value
              && r.value.high == ParseNumber(row.high, parseFloat).value
              && r.value.low == ParseNumber(row.low, parseFloat).value
              && r.value.turnover == OrZero(ParseNumber(row.turnover, parseFloat))
              && r.value.trades == OrZero(ParseNumber(row.trades, parseFloat))
              && r.value.prevClose == ParseNumber(row.prevClose, parseFloat)
              && r.value.last == ParseNumber(row.last, parseFloat)
              && r.value.deliverableVolume == ParseNumber(row.deliverableVolume, parseFloat)
              && r.value.deliverablePercent == ParseNumber(row.deliverablePercent, parseFloat)
  {
    var stockId := stockIds(LookupKey(row.symbol));
    if stockId.None? || stockId.value == 0 then None
    else
      var date := ParseDate(row.date);
      if date.None? then None
      else
        var open := ParseNumber(row.open, parseFloat);
        var high := ParseNumber(row.high, parseFloat);
        var low := ParseNumber(row.low, parseFloat);
        var close := ParseNumber(row.close, parseFloat);
        if open.None? || high.None? || low.None? || close.None? then None
        else
          Some(HistoryRecord(
            stockId.value, date.value, ParseNumber(row.prevClose, parseFloat),
            open.value, high.value, low.value, ParseNumber(row.last, parseFloat), close.value,
            ParseNumber(row.vwap, parseFloat),
            OrZero(ParseNumber(row.volume, parseFloat)), OrZero(ParseNumber(row.turnover, parseFloat)),
            OrZero(ParseNumber(row.trades, parseFloat)),
            ParseNumber(row.deliverableVolume, parseFloat), ParseNumber(row.deliverablePercent, parseFloat)))
  }

  /** The per-row conversion, with the id lookup and the number parser fixed. */
  function Converter(stockIds: string -> Option<int>, parseFloat: string -> Option<real>): CsvRow -> Option<HistoryRecord>
  {
    row => ConvertRow(row, stockIds, parseFloat)
  }

  /** The records the rows yield under a conversion, in order. */
  function Accepted(rows: seq<CsvRow>, convert: CsvRow -> Option<HistoryRecord>): (r: seq<HistoryRecord>)
    ensures |r| <= |rows|
  {
    if rows == [] then []
    else
      var n := |rows| - 1;
      var init := Accepted(rows[..n], convert);
      var last := convert(rows[n]);
      if last.Some? then init + [last.value] else init
  }

  /** The number of rows the conversion skips. */
  function Skipped(rows: seq<CsvRow>, convert: CsvRow -> Option<HistoryRecord>): (k: nat)
    ensures k + |Accepted(rows, convert)| == |rows|
  {
    if rows == [] then 0
    else
      var n := |rows| - 1;
      Skipped(rows[..n], convert) + (if convert(rows[n]).None? then 1 else 0)
  }

  // ------------------------------------------------------------- batching

  const BatchSize: int := 1000

  function Concat(batches: seq<seq<HistoryRecord>>): seq<HistoryRecord>
  {
    if batches == [] then [] else Concat(batches[..|batches| - 1]) + batches[|batches| - 1]
  }

  /** Chunks of 1000 in order, the last one possibly shorter but not empty. */
  ghost predicate WellBatched(batches: seq<seq<HistoryRecord>>)
  {
    && (forall i :: 0 <= i < |batches| ==> 1 <= |batches[i]| <= BatchSize)
    && (forall i :: 0 <= i < |batches| - 1 ==> |batches[i]| == BatchSize)
  }

  lemma ConcatAppend(batches: seq<seq<HistoryRecord>>, batch: seq<HistoryRecord>)
    ensures Concat(batches + [batch]) == Concat(batches) + batch
  {
    assert (batches + [batch])[..|batches|] == batches;
  }

  /** One more row adds its record, if any, to the accepted rows, or one to the skipped count. */
  lemma RowStep(rows: seq<CsvRow>, i: int, convert: CsvRow -> Option<HistoryRecord>)
    requires 0 <= i < |rows|
    ensures var r := convert(rows[i]);
            && Accepted(rows[..i + 1], convert) ==
                 Accepted(rows[..i], convert) + (if r.Some? then [r.value] else [])
            && Skipped(rows[..i + 1], convert) ==
                 Skipped(rows[..i], convert) + (if r.None? then 1 else 0)
  {
    assert rows[..i + 1][..i] == rows[..i];
  }

  /** The per-file counts. */
  datatype Counts = Counts(success: int, failed: int, skipped: int)

  /** Rows in the batches whose upsert succeeded, and in those that failed. */
  function Succeeded(batches: seq<seq<HistoryRecord>>, upsertOk: int -> bool): int
  {
    if batches == [] then 0
    else Succeeded(batches[..|batches| - 1], upsertOk) + (if upsertOk(|batches| - 1) then |batches[|batches| - 1]| else 0)
  }

  function Failed(batches: seq<seq<HistoryRecord>>, upsertOk: int -> bool): int
  {
    if batches == [] then 0
    else Failed(batches[..|batches| - 1], upsertOk) + (if upsertOk(|batches| - 1) then 0 else |batches[|batches| - 1]|)
  }

  /** Every row of every batch is counted once, as a success or a failure. */
  lemma {:induction false} SucceededPlusFailed(batches: seq<seq<HistoryRecord>>, upsertOk: int -> bool)
    ensures Succeeded(batches, upsertOk) + Failed(batches, upsertOk) == |Concat(batches)|
  {
    if batches != [] {
      SucceededPlusFailed(batches[..|batches| - 1], upsertOk);
    }
  }

  /** The row loop of `importCSVFile`: each row is converted or skipped, and
      the batch being filled is closed as soon as it holds 1000 records; the
      last, partial batch is added when it is not empty. */
  method SplitIntoBatches(rows: seq<CsvRow>, convert: CsvRow -> Option<HistoryRecord>)
    returns (batches: seq<seq<HistoryRecord>>, skipped: int)
    ensures Concat(batches) == Accepted(rows, convert)
    ensures WellBatched(batches)
    ensures skipped == Skipped(rows, convert)
  {
    skipped := 0;
    batches := [];
    var currentBatch: seq<HistoryRecord> := [];
    ghost var accepted: seq<HistoryRecord> := [];
    var i := 0;
    while i < |rows|
      invariant 0 <= i <= |rows|
      invariant accepted == Accepted(rows[..i], convert)
      invariant Concat(batches) + currentBatch == accepted
      invariant forall k :: 0 <= k < |batches| ==> |batches[k]| == BatchSize
      invariant |currentBatch| < BatchSize
      invariant skipped == Skipped(rows[..i], convert)
    {
      RowStep(rows, i, convert);
      var historyRow := convert(rows[i]);
      if historyRow.None? {
        skipped := skipped + 1;
      } else {
        accepted := accepted + [historyRow.value];
        currentBatch := currentBatch + [historyRow.value];
        assert Concat(batches) + currentBatch == accepted;
        if |currentBatch| >= BatchSize {
          ConcatAppend(batches, currentBatch);
          batches := batches + [currentBatch];
          currentBatch := [];
          assert Concat(batches) + currentBatch == accepted;
        }
      }
      i := i + 1;
    }
    assert rows[..i] == rows;
    if |currentBatch| > 0 {
      ConcatAppend(batches, currentBatch);
      batches := batches + [currentBatch];
    } else {
      assert Concat(batches) + currentBatch == Concat(batches);
    }
  }

  /** The upsert loop: each batch is written in one call, and all of its
      rows count as inserted when the call succeeds and as failed when it
      reports an error. */
  method UpsertBatches(batches: seq<seq<HistoryRecord>>, upsertOk: int -> bool)
    returns (successCount: int, failedCount: int)
    ensures successCount == Succeeded(batches, upsertOk)
    ensures failedCount == Failed(batches, upsertOk)
  {
    successCount := 0;
    failedCount := 0;
    var j := 0;
    while j < |batches|
      invariant 0 <= j <= |batches|
      invariant successCount == Succeeded(batches[..j], upsertOk)
      invariant failedCount == Failed(batches[..j], upsertOk)
    {
      assert batches[..j + 1][..j] == batches[..j];
      if upsertOk(j) {
        successCount := successCount + |batches[j]|;
      } else {
        failedCount := failedCount + |batches[j]|;
      }
      j := j + 1;
    }
    assert batches[..j] == batches;
  }

  /** `importCSVFile` after the CSV is parsed: the row loop, which skips or
      converts each row and closes a batch whenever it reaches 1000 rows,
      the final partial batch, and the upsert loop, which counts each
      batch's rows as inserted or failed. A file that is missing or that
      does not parse gives zero counts. */
  method ImportCsvFile(records: Option<seq<CsvRow>>, stockIds: string -> Option<int>,
                       parseFloat: string -> Option<real>, upsertOk: int -> bool)
    returns (batches: seq<seq<HistoryRecord>>, counts: Counts)
    ensures records.None? ==> batches == [] && counts == Counts(0, 0, 0)
    ensures records.Some? ==>
              && Concat(batches) == Accepted(records.value, Converter(stockIds, parseFloat))
              && WellBatched(batches)
              && counts.skipped == Skipped(records.value, Converter(stockIds, parseFloat))
              && counts.success == Succeeded(batches, upsertOk)
              && counts.failed == Failed(batches, upsertOk)
  {
    if records.None? {
      return [], Counts(0, 0, 0);
    }
    var rows := records.value;
    var skippedCount;
    batches, skippedCount := SplitIntoBatches(rows, Converter(stockIds, parseFloat));

    var successCount, failedCount := UpsertBatches(batches, upsertOk);
    counts := Counts(successCount, failedCount, skippedCount);
  }

  /** The counts of a parsed file account for every record: the successes
      and failures are the accepted rows, and with the skipped rows they are
      all the records. */
  lemma CountsAddUp(rows: seq<CsvRow>, convert: CsvRow -> Option<HistoryRecord>,
                    upsertOk: int -> bool, batches: seq<seq<HistoryRecord>>, counts: Counts)
    requires Concat(batches) == Accepted(rows, convert)
    requires counts.skipped == Skipped(rows, convert)
    requires counts.success == Succeeded(batches, upsertOk) && counts.failed == Failed(batches, upsertOk)
    ensures counts.success + counts.failed == |Accepted(rows, convert)|
    ensures counts.success + counts.failed + counts.skipped == |rows|
  {
    SucceededPlusFailed(batches, upsertOk);
  }
}
