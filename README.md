# tefas-analyzer, modelled in Dafny

tefas-analyzer downloads the price history of a Turkish investment fund from
the TEFAS fund-analysis page and computes financial statistics from it. This
project models the package's core in Dafny and proves properties of that model:

- **Parser** (`parser.dfy`): `parse_chart_data`, `clean_price_data`,
  `validate_data_integrity`, `parse_asset_allocation` and `parse_benchmark_returns`.
  - `parse_chart_data` finds the price array and the date categories in the page,
    using three regular expressions each.
  - It then builds the `Tarih`/`Fiyat` frame, sorts it by date and drops
    non-positive prices.
  - The two JSON parsers read the pie-chart and column-chart blocks.
    Their loops are written as loops, and each is proved against a function
    that lists the dict writes in order.
- **Scraper** (`scraper.dfy`): `_extract_js_blocks`, and the fund-code checks of
  `fetch_tefas_js_blocks` and `get_tefas_data` with their exception ladders.
  It also covers `get_fund_additional_data`, which re-wraps each block and
  parses it. The browser is replaced by a `fetch` parameter that maps a code to
  the page text or to the exception the browser raised.
- **Analytics** (`analytics.dfy`):
  - the validation ladder of `calculate_total_return`,
    `calculate_annualized_volatility`, `calculate_cagr`,
    `calculate_sharpe_ratio` and `calculate_beta`;
  - the total-return formula;
  - `get_fund_statistics`, where each metric sits in its own `try`;
  - `calculate_financial_metrics`, where one `try` stops at the first failing
    metric.

  Logarithms, powers, square roots, means and (co)variances are fields of a
  `Numerics` parameter. A result of those can be NaN or infinite, because the
  source tests for that.
- **API** (`api.dfy`): `download` validates the code, fetches the frame,
  parses the dates, drops rows without a price, sorts, applies the
  `start`/`end` window and wraps unexpected exceptions with the fund code. `get_statistics`
  checks its frame and delegates to the analytics.
- **Utilities** (`utils.dfy`): `validate_fund_code`, `clean_fund_code` and the
  exception hierarchy.
- **Supporting modules.** `base.dfy` holds Result/Option and `Collect`, the
  in-order product of a loop whose every step may raise. `seqs.dfy` holds the
  boolean-mask filter, sorting, dict building from ordered writes, median,
  min and max. `text.dfy` covers `strip`, `split`, `float(str)` and `upper`, whose table of non-ASCII upper cases is a search tree over code-point ranges.
  `dates.dfy` covers the two `strptime` formats as day numbers. `regex.dfy`
  models the fixed regular expressions and leftmost `re.search`. `json.dfy`
  covers `json.loads` values with Python's `in`, `[]`, `len`, iteration,
  `float` and `str`. `frames.dfy` holds the price rows.

An exception is an `Error(cls, msg)` value inside `Err`. An `except` clause
becomes a match on the class, following the subclass relation of
`utils.py`.

## Model

| member | source | states |
|---|---|---|
| Utils.ScrapingErrorIsTefasError | tefas_analyzer/utils.py:138-167 | `ScrapingError` is a subclass of `TefasError` and not the reverse. The classes an `except (ScrapingError, TefasError)` lets through are exactly the subclasses of `TefasError`. |
| Utils.CleanFundCode | tefas_analyzer/utils.py:76-87 | A cleaned code holds only `A-Z0-9`. A non-string or empty argument cleans to "". |
| Utils.CleanIdempotent | tefas_analyzer/utils.py:76-87 | Cleaning a cleaned code changes nothing. |
| Utils.ValidIffCleanKeepsAll | tefas_analyzer/utils.py:28-52 | A code is valid iff it is a non-empty string, `strip().upper()` already consists of `A-Z0-9` (cleaning removes nothing), and it has 2 to 5 characters. |
| Utils.ValidateCleaned | tefas_analyzer/utils.py:28-52 | A cleaned code is valid iff its length is between 2 and 5. |
| Utils.ValidUpperAlnum | tefas_analyzer/utils.py:44-50 | A string of `A-Z0-9` is its own clean form, and it is valid iff its length is between 2 and 5. |
| Utils.CleanIgnoresStrip | tefas_analyzer/utils.py:82-85 | Cleaning upper-cases and keeps `A-Z0-9`; the `strip()` before it makes no difference. |
| Regex.ArrayAtSpec | tefas_analyzer/core/parser.py:35-58 | The matcher of an array pattern at one position returns a group iff the pattern matches there with that group: the key, optional spaces, `[`, the body class (`[\d.,\s]+`, or lazy `.*?` under DOTALL) and `]`. |
| Regex.SearchLeftmost | tefas_analyzer/core/parser.py:43 | `re.search` returns the match at the leftmost position where the pattern matches. It returns nothing iff no position matches. |
| Regex.BlockRoundTrip | tefas_analyzer/core/scraper.py:349-350 | Wrapping a block body `g` as `var IDENT = g;` and searching for the block pattern gives back `g`. |
| Regex.ExtractRewrapRoundTrip | tefas_analyzer/core/scraper.py:360-361 | A block found in a page and re-wrapped is found again unchanged. |
| Text.JoinSplit | tefas_analyzer/core/parser.py:65 | `str.split(',')` loses nothing: joining the pieces with the separator gives the text back. |
| Text.SplitJoin | tefas_analyzer/core/parser.py:69 | Splitting pieces joined by a separator they do not contain gives the pieces back. |
| Text.ParseFloatNatText | tefas_analyzer/core/parser.py:65 | `float()` of the decimal text of a natural number is that number. |
| Text.UpperExamples | tefas_analyzer/core/scraper.py:49 | `str.upper()` maps `i` and dotless `ı` to `I`, the Turkish `ç`, `ğ`, `ş` to `Ç`, `Ğ`, `Ş`, and expands `ß` to `SS`, `ﬁ` to `FI` and `ᾳ` to `ΑΙ`. |
| Dates.ParseDate | tefas_analyzer/core/parser.py:353-357 | A date parses iff one of `%d.%m.%Y` or `%Y-%m-%d` accepts it. When the first accepts, its reading wins. |
| Dates.ParseFormatted | tefas_analyzer/core/parser.py:353-357 | A valid date written as `%d.%m.%Y` or as `%Y-%m-%d` parses back to the same day number. |
| Dates.OrdinalNextDay | tefas_analyzer/core/analytics.py:165 | Consecutive calendar days have consecutive day numbers, so the difference of two day numbers is `.days`. |
| Json.Contains | tefas_analyzer/core/parser.py:179 | `key in v` on a dict tests its keys. It raises exactly on values that are neither dict, list nor string. |
| Json.GetKey | tefas_analyzer/core/parser.py:185 | `v[key]` succeeds iff `v` is a dict holding `key`, and then gives that entry. |
| Json.Items | tefas_analyzer/core/parser.py:191 | Iterating a list yields its items. Iterating a string yields its characters. |
| Json.ToFloat | tefas_analyzer/core/parser.py:194 | `float()` of a number is the number. `float()` of null, a list or a dict raises. |
| Frames.SortByDate | tefas_analyzer/core/parser.py:76 | `sort_values("Tarih")` gives a date-ordered permutation of the rows. |
| Seqs.PairsToMapLastWins | tefas_analyzer/core/parser.py:195 | In a dict built by writes in order, a key holds the value of its last write. |
| Seqs.Median | tefas_analyzer/core/parser.py:318 | The median of a non-empty column lies between its least and its greatest value. |
| Seqs.MeanBetween | tefas_analyzer/core/analytics.py:368-370 | The mean of a column lies between its minimum and its maximum. |
| Parser.CascadeFirst | tefas_analyzer/core/parser.py:35-58 | Trying the patterns in turn gives the match of the first pattern that matches. It gives nothing iff no pattern matches. |
| Parser.FirstMatching | tefas_analyzer/core/parser.py:41-45 | The loop that breaks at the first match computes that cascade. |
| Parser.ConvertEach | tefas_analyzer/core/parser.py:65 | A list comprehension converts every item in order, or raises at an item that does not convert. |
| Parser.DateTexts | tefas_analyzer/core/parser.py:69 | There is one date text per comma-separated piece. |
| Parser.Rows | tefas_analyzer/core/parser.py:75 | The frame pairs the i-th date with the i-th price. |
| Parser.BuildChart | tefas_analyzer/core/parser.py:64-89 | Failures are `ValueError`. A result is non-empty, sorted by date and holds only positive prices. |
| Parser.BuildChartRows | tefas_analyzer/core/parser.py:64-89 | A result means both lists converted with equal lengths. It is a permutation of exactly the positive (date, price) rows. |
| Parser.BuildChartMismatch | tefas_analyzer/core/parser.py:71-72 | Prices and dates of different counts raise `ValueError` with the count-mismatch message, which gives both counts. |
| Parser.BuildChartKeepsPositive | tefas_analyzer/core/parser.py:82-89 | When every price is positive and there is at least one, no row is dropped. |
| Parser.ChartData | tefas_analyzer/core/parser.py:60-61 | A missing price or date match raises `ValueError` with the "Chart data not found for {code}" message under the outer context. Every failure leaves as `ValueError`, as the outer `except` at lines 101-103 re-raises it. |
| Parser.ParseChartData | tefas_analyzer/core/parser.py:19-103 | The method runs the two pattern cascades and then builds the series. |
| Parser.Dedupe | tefas_analyzer/core/parser.py:312 | `drop_duplicates(subset=['Tarih'])` keeps the first row of each date, leaves no date twice, keeps the same set of dates, and adds nothing. |
| Parser.Deduplicated | tefas_analyzer/core/parser.py:309-315 | After the positive filter, de-duplication and sort, dates strictly increase. Every row is a positive input row, and every date of a positive row is present. |
| Parser.DeduplicatedKeepsFirst | tefas_analyzer/core/parser.py:312 | The first positive row of each date survives de-duplication. |
| Parser.CleanPriceData | tefas_analyzer/core/parser.py:295-324 | An empty frame comes back empty. Otherwise dates strictly increase, and every row is positive, comes from the input and is a row of the de-duplicated frame, so with `Parser.DeduplicatedKeepsFirst` the first row of each date is the one kept. |
| Parser.CleanOutlierCut | tefas_analyzer/core/parser.py:318-321 | The median of the de-duplicated prices is positive. A de-duplicated row is kept iff its price is at most 10 times that median. |
| Parser.CleanNonEmpty | tefas_analyzer/core/parser.py:305-321 | The cleaned frame is non-empty iff the input has a positive price. The outlier cut never empties it. |
| Parser.ValidateDataIntegrity | tefas_analyzer/core/parser.py:327-365 | The result is true iff both lists are non-empty and of equal length, at least 80% of prices are positive numbers, and at least 80% of dates parse in one of the two formats. |
| Parser.IntegrityThreshold | tefas_analyzer/core/parser.py:346 | "At least 80%" means at most a fifth of the items are invalid: 4 of 5 passes and 3 of 5 fails. |
| Parser.IntegrityOfFormatted | tefas_analyzer/core/parser.py:338-365 | Positive prices with valid dates written as `%d.%m.%Y` pass the price and date checks. |
| Parser.FindBlock | tefas_analyzer/core/parser.py:169-173 | Finding the named block succeeds iff its pattern matches the text. Otherwise it raises `ValueError`. |
| Parser.Decode | tefas_analyzer/core/parser.py:176 | Decoding succeeds iff the JSON decoder accepts the text. Otherwise it raises `JSONDecodeError`. |
| Parser.Reraise | tefas_analyzer/core/parser.py:214-217 | Both `except` clauses re-raise as `ValueError`. |
| Parser.AssetEntry | tefas_analyzer/core/parser.py:191-202 | An asset writes at most one entry. An asset that is neither a dict nor a list of two or more items writes nothing. |
| Parser.AssetSkipped | tefas_analyzer/core/parser.py:191-202 | Appending an asset of any other shape leaves the entries unchanged. |
| Parser.AssetShapes | tefas_analyzer/core/parser.py:192-201 | `{"name": n, "y": y}` and `[n, y, ...]` both write the stripped name with value `y`; list items past the second are ignored. |
| Parser.AllocationEntries | tefas_analyzer/core/parser.py:204-205 | A successful parse has at least one entry. |
| Parser.BuildAllocation | tefas_analyzer/core/parser.py:188-202 | The loop's dict is the entries written in order, the last write winning. Its total is the sum of all written values. A raising entry ends the loop with that error. |
| Parser.ParseAssetAllocation | tefas_analyzer/core/parser.py:154-217 | The result is the dict of the entries, with a warning iff their sum lies outside [90, 110]. A failure is re-raised as `ValueError` with the context. |
| Parser.AllocationLastWins | tefas_analyzer/core/parser.py:195 | An asset whose name is not repeated later keeps its own percentage in the result. |
| Parser.ReturnKey | tefas_analyzer/core/parser.py:268 | With several series the key is `"{category}_{series}"`. With one series the key is the category itself (its `str()`), which raises iff the category is unhashable. |
| Parser.ValueWrite | tefas_analyzer/core/parser.py:265-271 | A value past the categories writes nothing, and so does a null. A write is the category's key with `float(value)`, and an in-range, non-null value that converts under a category with a valid key makes exactly one write. |
| Parser.ValueWriteNumber | tefas_analyzer/core/parser.py:266-271 | A number at index i is written under the key of category i. |
| Parser.NumbersUnderCategories | tefas_analyzer/core/parser.py:265-271 | A series of numbers no longer than the categories writes each number under its own category's key, in order. |
| Parser.ValueIteration | tefas_analyzer/core/parser.py:265-271 | One inner-loop iteration makes the writes of `ValueWrite`: at most one. |
| Parser.SeriesWrites | tefas_analyzer/core/parser.py:257-271 | A series dict without `data` or `name` writes nothing. Any write means both keys are present. |
| Parser.SeriesWritesData | tefas_analyzer/core/parser.py:257-271 | A series dict with `data` and `name` writes its data's values under the categories, in order. |
| Parser.FallbackValue | tefas_analyzer/core/parser.py:278-280 | A null value writes nothing. |
| Parser.FallbackValueWrite | tefas_analyzer/core/parser.py:278-280 | A write is `float(value)` under the bare category `str(names[i])`, which must be hashable; an in-range, non-null value that converts under a hashable category makes exactly one write. |
| Parser.FallbackIteration | tefas_analyzer/core/parser.py:278-280 | One fallback iteration makes the writes of `FallbackValue`: at most one. |
| Parser.FallbackWrites | tefas_analyzer/core/parser.py:273-280 | No categories means no writes. Otherwise, with the first series a dict holding `data`, the writes are those of the fallback iterations over that data, in order; any write means that first series holds `data`. |
| Parser.FallbackIsSingleSeriesWrite | tefas_analyzer/core/parser.py:265-280 | A fallback iteration writes what a single-series iteration of the main loop writes: the bare category key. |
| Parser.ColumnData | tefas_analyzer/core/parser.py:235-252 | A column chart that passes the block, JSON, `xAxis.categories` and `series` checks has at least one series. |
| Parser.ChartWrites | tefas_analyzer/core/parser.py:254-283 | A chart with no writes in the main loop or in the fallback raises, so a result is never empty. Which writes result is stated by `Parser.SingleSeriesUnderCategories` and `Parser.FallbackUnderCategories`. |
| Parser.BenchmarkWrites | tefas_analyzer/core/parser.py:233-283 | A successful parse makes at least one write. |
| Parser.WriteValues | tefas_analyzer/core/parser.py:265-271 | The inner loop leaves the dict equal to the earlier writes followed by this series' writes, or raises the first error. |
| Parser.SeriesIteration | tefas_analyzer/core/parser.py:257-271 | One outer iteration adds exactly the writes of `Parser.SeriesWrites`, or raises its error. |
| Parser.WriteAllSeries | tefas_analyzer/core/parser.py:257-271 | The nested loops build the dict of all series' writes in order, or raise the first error. |
| Parser.WriteFallbackValues | tefas_analyzer/core/parser.py:278-280 | The fallback loop builds the dict of its writes in order. |
| Parser.WriteFallback | tefas_analyzer/core/parser.py:273-280 | The fallback method builds the dict of `Parser.FallbackWrites`, or raises its error. |
| Parser.ParseBenchmarkReturns | tefas_analyzer/core/parser.py:220-291 | The result is the dict of the benchmark writes. A failure is re-raised as `ValueError` with the context. The writes themselves and the error ladder are stated by the lemmas below. |
| Parser.KeyedReturns | tefas_analyzer/core/parser.py:265-271 | The expected writes for numeric returns: one per return, the i-th under category i's key. |
| Parser.ColumnDataOf | tefas_analyzer/core/parser.py:235-252 | A decoded chart with `xAxis.categories` and a non-empty `series` list passes the guard ladder with those values. |
| Parser.BenchmarkNeedsCategories | tefas_analyzer/core/parser.py:245-246 | A decoded chart without `xAxis`, or whose `xAxis` lacks `categories`, raises `ValueError` with the categories message, and the context is added when it is re-raised. |
| Parser.BenchmarkNeedsSeries | tefas_analyzer/core/parser.py:251-252 | With categories present, a chart without `series`, or with an empty one, raises `ValueError` with the series message. |
| Parser.OneSeriesWrites | tefas_analyzer/core/parser.py:257-271 | The main loop over one named series of numbers writes each number under the bare key of its category, in order. |
| Parser.SingleSeriesUnderCategories | tefas_analyzer/core/parser.py:233-283 | For one named series of numbers, the writes are each number under its category; with no numbers, "No valid benchmark return data found" is raised. |
| Parser.FallbackUnderCategories | tefas_analyzer/core/parser.py:254-283 | When no series has a name, the main loop writes nothing and the first series' numbers are written under the bare categories; with no numbers, "No valid benchmark return data found" is raised. |
| Scraper.Lookups | tefas_analyzer/core/scraper.py:228-248 | There is one lookup per block pattern, in the dict's order, each holding that pattern's leftmost match or None. |
| Scraper.LookupBlocks | tefas_analyzer/core/scraper.py:234-248 | The loop builds the dict of those lookups and counts the blocks found. |
| Scraper.ExtractedKeys | tefas_analyzer/core/scraper.py:228-248 | The dict has exactly the keys `price`, `allocation` and `benchmark`, each holding its own pattern's match. |
| Scraper.PriceBlock | tefas_analyzer/core/scraper.py:250-252 | `price` is always present and holds the price pattern's match. A match is never empty, so the check fails exactly when there is no match. |
| Scraper.ExtractJsBlocks | tefas_analyzer/core/scraper.py:211-255 | A missing price block raises `ScrapingError` with the message naming the fund. Otherwise the result is the dict of lookups. The found count is the number of matches. |
| Scraper.CheckedCode | tefas_analyzer/core/scraper.py:49-52 | The code is accepted iff `strip().upper()` has 2 to 5 characters, and that form is used. Otherwise the check raises `ValueError`. |
| Scraper.CheckedCodeExpands | tefas_analyzer/core/scraper.py:49-52 | The length test counts characters after upper-casing: `"\u1fb3"` upper-cases to two letters and is accepted. |
| Scraper.CheckedCodeExpandsTooFar | tefas_analyzer/core/scraper.py:49-52 | Three `\u1fb3` upper-case to six letters and fail the length test with `ValueError`. |
| Scraper.CheckedCodeTurkish | tefas_analyzer/core/scraper.py:49-54 | Turkish lower-case letters are upper-cased in the code that is fetched: `"çpu"` becomes `"ÇPU"`. |
| Scraper.FetchJsBlocks | tefas_analyzer/core/scraper.py:27-105 | A non-string or empty code raises `ValueError` with its message. Every failure is a `ValueError` or a `ScrapingError`. |
| Scraper.FetchCodeErrors | tefas_analyzer/core/scraper.py:41-52 | The `ValueError` cases are exactly a non-string or empty code and a code whose `strip().upper()` is not 2 to 5 characters long; the latter raises the length message. |
| Scraper.FetchedBlocks | tefas_analyzer/core/scraper.py:57-77 | For a code that passes the check, fetched as its upper-cased form, whose page has a price block, the result is the dict of lookups on that page. |
| Scraper.GetTefasData | tefas_analyzer/core/scraper.py:258-326 | It raises `ValueError` iff the code's length check fails; every other failure is a `ScrapingError`. Rows are non-empty, date-sorted and positive. |
| Scraper.BlockText | tefas_analyzer/core/scraper.py:347 | `js_blocks.get(name)` is truthy iff the key is present with a non-empty string. |
| Scraper.AdditionalData | tefas_analyzer/core/scraper.py:343-368 | Each block present adds its key, and nothing else is added. The entry is that block's re-wrapped parse, or {} when the parse raises. |
| Scraper.AdditionalDataIndependent | tefas_analyzer/core/scraper.py:347-366 | A broken or missing benchmark block does not change the allocation entry, and vice versa. |
| Scraper.AllocationOfBlock | tefas_analyzer/core/scraper.py:348-355 | The inner `try` gives the allocation, or {} on any exception. |
| Scraper.BenchmarkOfBlock | tefas_analyzer/core/scraper.py:359-366 | The inner `try` gives the benchmark returns, or {} on any exception. |
| Scraper.AdditionalDataOf | tefas_analyzer/core/scraper.py:344-368 | The statements build exactly `AdditionalData`. |
| Scraper.GetFundAdditionalData | tefas_analyzer/core/scraper.py:329-372 | A failing fetch gives {}. Otherwise the result is the additional data of the fetched blocks. |
| Scraper.RewrappedBlockFound | tefas_analyzer/core/scraper.py:349-361 | A re-wrapped block is found again. Parsing it gives what parsing the original page gives. |
| Scraper.SameBlockSameAllocation | tefas_analyzer/core/parser.py:169-185 | The allocation parse depends only on the pie block it finds. |
| Scraper.SameBlockSameBenchmark | tefas_analyzer/core/parser.py:235-252 | The benchmark parse depends only on the column block it finds. |
| Analytics.ValueCheck | tefas_analyzer/core/analytics.py:46-50 | The check passes iff every price is a positive number. NaN is reported first, then a non-positive price, both as `ValueError`. |
| Analytics.SortedDetermined | tefas_analyzer/core/analytics.py:53 | Two date-sorted orders of the same rows coincide when no date holds two rows. |
| Analytics.Ends | tefas_analyzer/core/analytics.py:53-56 | After `sort_index`, the first and last rows are rows of the series, with the earliest and latest dates. |
| Analytics.LogReturns | tefas_analyzer/core/analytics.py:103 | There are n-1 log returns, the i-th being `ln(x[i+1]/x[i])`. |
| Analytics.GrowthBounds | tefas_analyzer/core/analytics.py:61 | The percentage change between positive prices exceeds -100. It is positive iff the price rose, and zero iff it is unchanged. |
| Analytics.TotalReturn | tefas_analyzer/core/analytics.py:21-64 | Fewer than 2 points raise the matching `ValueError`. A result exists iff there are at least 2 points and all are positive. It is the growth from the earliest to the latest price, and exceeds -100. |
| Analytics.TotalReturnOfSorted | tefas_analyzer/core/analytics.py:53-61 | On a date-sorted series the total return compares the first and the last row. |
| Analytics.TotalReturnExample | tefas_analyzer/core/analytics.py:34-37 | Prices 100, 110 and 125 give a 25% total return. |
| Analytics.Volatility | tefas_analyzer/core/analytics.py:67-118 | Fewer than 30 points raise. A result exists iff there are at least 30 positive points and a finite daily std. It is `std * sqrt(252) * 100`. |
| Analytics.Cagr | tefas_analyzer/core/analytics.py:121-182 | Fewer than 2 points raise, then a non-datetime index raises. A result needs positive prices and an end at least one day after the start. |
| Analytics.CagrNeedsTwoDays | tefas_analyzer/core/analytics.py:163-168 | A series whose rows are all on one day raises "End date must be after start date". |
| Analytics.Sharpe | tefas_analyzer/core/analytics.py:185-260 | Fewer than 30 points raise. A rate outside [0, 1] raises after the value checks. A result needs a valid series and rate and a non-zero annual volatility. |
| Analytics.ConstantReturns | tefas_analyzer/core/analytics.py:231 | A constant price series has all log returns zero. |
| Analytics.SharpeOfConstantSeries | tefas_analyzer/core/analytics.py:244-247 | A constant series spanning more than one day raises the zero-volatility error, given a `std` that is 0 on two or more zeros (pandas' `ddof=1` deviation; fewer values are never reached). |
| Analytics.CommonDates | tefas_analyzer/core/analytics.py:305 | The index intersection is the set of dates present in both series. |
| Analytics.ReturnsOn | tefas_analyzer/core/analytics.py:310-315 | On the date-sorted rows kept for the given dates, there is one log return fewer than rows, the i-th being `ln(p[i+1]/p[i])`. |
| Analytics.AlignedReturns | tefas_analyzer/core/analytics.py:311-324 | Both return series on the common dates are cut to the shorter length, each keeping its last entries. |
| Analytics.Beta | tefas_analyzer/core/analytics.py:263-343 | Fewer than 30 points in either series raise. A result needs valid series, at least 30 common dates, and a non-zero, non-NaN benchmark variance with a finite covariance. |
| Analytics.MetricsIgnoreRowOrder | tefas_analyzer/core/analytics.py:53-228 | Each metric sorts first, so reordering the rows changes none of total return, volatility, CAGR or Sharpe, as long as no date holds two rows. |
| Analytics.Numbers | tefas_analyzer/core/analytics.py:368-370 | `min`, `max` and `mean` see no number iff every price is NaN. |
| Analytics.StatisticsAnchorOrder | tefas_analyzer/core/analytics.py:368-370 | With at least one numeric price, minimum ≤ mean ≤ maximum. With none, all three are NaN. |
| Analytics.FundStatistics | tefas_analyzer/core/analytics.py:346-395 | The record exists iff the series is non-empty with a datetime index; an empty one raises "Price series is empty". The first and last price and date are those of the unsorted series. |
| Analytics.StatisticsMetrics | tefas_analyzer/core/analytics.py:375-394 | Each metric field of the record is the metric's value, or None when it raised. |
| Analytics.GetFundStatistics | tefas_analyzer/core/analytics.py:346-395 | The key-by-key fill with a `try` per metric builds that record. |
| Analytics.MetricsUntilFailureReached | tefas_analyzer/core/analytics.py:413-419 | Within the single `try`, a metric is recorded iff it and every earlier metric succeeded, with its own value. |
| Analytics.FinancialMetrics | tefas_analyzer/core/analytics.py:398-420 | An empty frame gives {}. A missing `Price` column raises. Otherwise the keys are a prefix of the order total return, volatility, CAGR, Sharpe, ending before the first failure. |
| Analytics.CalculateFinancialMetrics | tefas_analyzer/core/analytics.py:398-420 | The statements compute `FinancialMetrics`. |
| Api.ToDatetime | tefas_analyzer/api.py:56 | `pd.to_datetime` reads every date or raises `ValueError`. Row i keeps its price with the date read. |
| Api.NormalisedSorted | tefas_analyzer/api.py:59 | The normalised rows are sorted by date. |
| Api.NormalisedRows | tefas_analyzer/api.py:57-65 | The normalised rows are a permutation of exactly the rows with a price inside the `start`/`end` window. |
| Api.AcceptedLength | tefas_analyzer/api.py:45-49 | A code passes `download`'s checks iff it is a string whose cleaned form has 2 to 5 characters. |
| Api.DownloadSteps | tefas_analyzer/api.py:45-68 | A bad code raises `ValueError`. A fetch error passes through. An empty frame raises `ScrapingError` "No data found for fund: {code}"; a frame without `Tarih` or `Fiyat` raises `ScrapingError` with the column message. A result exists iff the frame is non-empty, has both columns and all dates read, and it is the normalised rows. |
| Api.Wrapped | tefas_analyzer/api.py:73-75 | An unexpected exception is wrapped as `ScrapingError` with the message "Failed to download data for {code}: {cause}". |
| Api.Download | tefas_analyzer/api.py:37-75 | Every failure is in the `TefasError` family: a bad code becomes `ScrapingError`, a `ScrapingError` or `TefasError` from the fetch passes unchanged, and another fetch error is wrapped with the fund code. An empty frame or a missing column raises `ScrapingError`. A result is date-sorted, has only priced rows in the window, and is a permutation of all of them. |
| Api.ScrapedFrame | tefas_analyzer/api.py:51-56 | The frame built from scraped rows has both columns and readable dates, and reads back as those rows. |
| Api.ScrapeOfAcceptedCode | tefas_analyzer/core/scraper.py:308-321 | For a code `download` accepts, the scraper can only fail with `ScrapingError`. |
| Api.DownloadOfScrapedFails | tefas_analyzer/api.py:71-72 | A scraper failure reaches the caller of `download` unchanged. |
| Api.DownloadOfScrapedSucceeds | tefas_analyzer/api.py:51-68 | On a successful scrape, `download` returns the scraped rows in the window, all with positive prices. |
| Api.GetStatistics | tefas_analyzer/api.py:78-105 | Every failure is `ValueError` with the "Failed to calculate statistics: " prefix, followed by the analytics message when that fails. A result exists iff the input is a non-empty frame with a `Price` column. Its record is exactly the record of `get_fund_statistics` on the frame's rows, so it has the code, the row count and each metric's outcome. |
| Api.BenchmarkOnlyAddsKey | tefas_analyzer/api.py:98-100 | Passing a benchmark frame only adds `benchmark_comparison`; the statistics are the same. |
| Api.StatisticsOfDownload | tefas_analyzer/api.py:95-97 | Statistics of downloaded rows succeed, with minimum ≤ mean ≤ maximum price. |

## Left out

- The browser is not modelled. Selenium, the page URL, the waits and `driver.quit()` become a `fetch` parameter giving the page text or an exception. `_setup_chrome_driver` and `_wait_for_page_load` are not part of this model.
- Timeout and missing-element errors are not told apart from other fetch failures. All of them leave as `ScrapingError`; only their message text differs in the source.
- Logging is not modelled. This includes `setup_logging` and the warning texts. The warning of `parse_asset_allocation` is a returned flag.
- Floating point is not modelled. Prices are reals, and NaN is a separate value. `np.log`, `np.exp`, `np.sqrt`, `**`, `mean`, `std`, `np.cov` and `np.var` are fields of a `Numerics` parameter. JSON `NaN`/`Infinity` literals, and `float()` on exponents or `inf`/`nan` text, are not accepted by the model's `float()`.
- Analytics.Cagr: the contract does not state the returned value. The fractional power is an opaque parameter, so only the guard ladder is stated.
- Analytics.Sharpe: the contract does not state the returned value, for the same reason.
- Analytics.Beta: the contract does not state the returned value, for the same reason.
- Scraper.GetTefasData: the contract states the shape of the rows (non-empty, date-sorted, positive). Their values are stated by `Parser.BuildChartRows`.
- Api.Download: the cause in the wrapped message is the exception's message, not Python's `str(e)` of an arbitrary exception object.
- Frames.SortByDate: the model's sort is stable, while the source's `sort_values` and `sort_index` use pandas' default quicksort, which is not. Among rows that share a date, the model fixes an order the program does not. So the earliest and latest rows that `Analytics.Ends`, `Analytics.TotalReturn` and the first and last prices of `Analytics.FundStatistics` speak of are determined only when no date holds two rows (`Analytics.SortedDetermined`, `Analytics.MetricsIgnoreRowOrder`).
- Guards that no input reaches are kept in the model as branches but have no lemma:
  - `analytics.py:58-59`: the initial price is already known positive;
  - `analytics.py:105-106` and `analytics.py:233-234`: 30 or more points give at least 29 returns;
  - `analytics.py:172-173`: a whole number of days ≥ 1 is at least 1/365.25 years;
  - `analytics.py:320-321`: 30 common dates give 29 returns;
  - `scraper.py:302-303`: the parser never returns an empty frame.
- Lines 104-151 of `parser.py` sit after an unconditional `raise` and are never executed. They are not modelled.
- The `isinstance` checks on a `pd.Series` argument, and the `risk_free_rate` number check, are not modelled. The model's types already say these hold.
- `get_statistics` converts its index with `pd.to_datetime`, and a failure there is not modelled. The frame's rows already carry day numbers.
- `start` and `end` are day numbers, not strings or timestamps.
- `pd.to_datetime(dayfirst=True)` on the chart categories is modelled as the two `strptime` formats. The many other date spellings pandas infers are not accepted.
- Parser.ParseDays and Api.ToDatetime: pandas' missing-value and format-inference rules are not modelled. The differences are:
  - pandas reads `""`, `"NaT"` and `"nan"` as NaT rows without raising, while the model has no NaT row and rejects such a text (`["01.02.2024", ""]` raises "could not parse dates" in the model).
  - pandas 2 infers one format from the first element and raises on any element in another format, while the model accepts each element in either format (`["01.02.2024", "2024-02-02"]`).
- Library error messages are stand-ins: `float()` failures omit the quoted text (`could not convert string to float: 'x'`), and the `pd.to_datetime` failures read "could not parse dates" and "Unknown datetime string format" rather than pandas' own wording. Only the exception class is faithful.
- `str.isspace` uses the full Unicode whitespace set. `\d` and `\s` in the regular expressions are the ASCII digits and that whitespace set, not every Unicode digit. `str.upper` follows the full case mapping of Unicode 15.0, which Python 3.12 uses, expansions included. Python 3.9 to 3.11 use Unicode 13.0 and 14.0, which upper-case a few recently added letters differently.
- Iterating a JSON dict (which yields its keys) is modelled as a failure. An asset list or series list given as a dict is not modelled.
- `str()` of non-string JSON values is a `show` parameter. A non-string category used as a single-series benchmark key is rendered with `show`, not kept as a non-string dict key.
- The statistics dict of `get_fund_statistics` is a record with one field per key. The metrics dict of `calculate_financial_metrics` is keyed by `MetricKey`; `MetricName` gives the source's string keys.
- `ScrapingError` is declared three times in `utils.py` (lines 142, 153 and 157). All three share the `TefasError` base and are modelled as one class.
- Where the project's own tests disagree with the code, the model follows the code:
  - `validate_fund_code` accepts `'123'`, `'ab'` and `'12A'`.
  - `download('')` raises `ScrapingError`, because the `ValueError` it raises first is wrapped.
  - `calculate_total_return` needs at least two points.
- The claim that over exactly one year the CAGR equals the total return is not stated. It does not hold for this code: years are 365.25 days long, so a 365-day span is slightly less than one year.
