/**
  Chart-text extraction and series building (`tefas_analyzer/core/parser.py`).
 */
module Parser {
  import opened Base
  import opened Seqs
  import opened Text
  import opened Utils
  import opened Dates
  import opened Regex
  import opened Json
  import opened Frames

  // ---------------------------------------------------------------- pattern cascade

  /** The group of the first pattern in `ps` that matches anywhere in `text`. */
  function Cascade(ps: seq<ArrayPattern>, text: string): Option<string>
  {
    if ps == [] then None
    else
      match Search(Array(ps[0]), text)
      case Some(g) => Some(g)
      case None => Cascade(ps[1..], text)
  }

  /** Patterns are tried in list order; the first one that matches decides. */
  lemma {:induction false} CascadeFirst(ps: seq<ArrayPattern>, text: string)
    ensures Cascade(ps, text).None? <==> forall k :: 0 <= k < |ps| ==> Search(Array(ps[k]), text).None?
    ensures Cascade(ps, text).Some? ==>
      exists k :: 0 <= k < |ps| && Cascade(ps, text) == Search(Array(ps[k]), text) &&
        forall j :: 0 <= j < k ==> Search(Array(ps[j]), text).None?
  {
    if ps != [] && Search(Array(ps[0]), text).None? {
      CascadeFirst(ps[1..], text);
      if Cascade(ps, text).Some? {
        var k :| 0 <= k < |ps| - 1 && Cascade(ps[1..], text) == Search(Array(ps[1..][k]), text) &&
          forall j :: 0 <= j < k ==> Search(Array(ps[1..][j]), text).None?;
        assert Cascade(ps, text) == Search(Array(ps[k + 1]), text);
        assert forall j :: 0 <= j < k + 1 ==> Search(Array(ps[j]), text).None? by {
          forall j | 0 <= j < k + 1
            ensures Search(Array(ps[j]), text).None?
          {
            if j > 0 {
              assert ps[j] == ps[1..][j - 1];
            }
          }
        }
      } else {
        forall k | 0 <= k < |ps|
          ensures Search(Array(ps[k]), text).None?
        {
          if k > 0 {
            assert ps[k] == ps[1..][k - 1];
          }
        }
      }
    }
  }

  /** The `for pattern in patterns: ... if match: break` loop. */
  method FirstMatching(ps: seq<ArrayPattern>, text: string) returns (found: Option<string>)
    ensures found == Cascade(ps, text)
  {
    found := None;
    var k := 0;
    while k < |ps|
      invariant 0 <= k <= |ps|
      invariant Cascade(ps, text) == Cascade(ps[k..], text)
    {
      assert ps[k..][1..] == ps[k + 1..];
      found := Search(Array(ps[k]), text);
      if found.Some? {
        return;
      }
      k := k + 1;
    }
    found := None;
  }

  // ---------------------------------------------------------------- series building

  /** Applies a conversion that may fail to every element; `None` as soon as one fails. */
  function ConvertEach<A, B>(xs: seq<A>, f: A -> Option<B>): (r: Option<seq<B>>)
    ensures r.Some? ==> |r.value| == |xs| && forall i :: 0 <= i < |xs| ==> f(xs[i]) == Some(r.value[i])
    ensures r.None? ==> exists i :: 0 <= i < |xs| && f(xs[i]).None?
  {
    if xs == [] then Some([])
    else
      var init := xs[..|xs| - 1];
      var head := ConvertEach(init, f);
      var last := f(xs[|xs| - 1]);
      if head.None? then
        assert forall i :: 0 <= i < |init| ==> init[i] == xs[i];
        None
      else if last.None? then None
      else
        assert forall i :: 0 <= i < |init| ==> init[i] == xs[i];
        Some(head.value + [last.value])
  }

  /** `[float(x.strip()) for x in run.split(',')]` for a matched price run. */
  function ParsePrices(run: string): Option<seq<real>>
  {
    ConvertEach(Split(run, ','), ParseFloat)
  }

  /** `date.strip().strip('"')` for every comma-separated piece of a category run. */
  function DateTexts(run: string): (ts: seq<string>)
    ensures |ts| == |Split(run, ',')|
  {
    var pieces := Split(run, ',');
    seq(|pieces|, i requires 0 <= i < |pieces| => StripBy(Strip(pieces[i]), IsQuote))
  }

  /** Every date text as a day number, or `None` if one of them does not parse. */
  function ParseDays(ts: seq<string>): Option<seq<int>>
  {
    ConvertEach(ts, ParseDate)
  }

  /** The frame `{"Tarih": days, "Fiyat": prices}`, row by row. */
  function Rows(days: seq<int>, prices: seq<real>): (ps: seq<Point>)
    requires |days| == |prices|
    ensures |ps| == |days|
    ensures forall i :: 0 <= i < |ps| ==> ps[i] == Point(days[i], Val(prices[i]))
  {
    seq(|days|, i requires 0 <= i < |days| => Point(days[i], Val(prices[i])))
  }

  const CountMismatch := "Price and date data count mismatch"
  const NoValidPrices := "No valid price data found (all values are zero or negative)"
  const ChartNotFound := "Chart data not found for "

  /** The message of the count check, with both counts. */
  function MismatchMessage(prices: nat, dates: nat): string
  {
    CountMismatch + ": " + NatText(prices) + " vs " + NatText(dates)
  }

  /**
    From the two matched runs to the cleaned frame: prices, dates, the count
    check, the date conversion, the sort by date and the `Fiyat != 0` and
    `Fiyat > 0` filters. Errors come in the order the code meets them.
   */
  function BuildChart(pricesRun: string, datesRun: string): (r: Py<seq<Point>>)
    ensures r.Err? ==> r.error.cls == ValueError
    ensures r.Ok? ==> r.value != [] && SortedByDate(r.value)
    ensures r.Ok? ==> forall p :: p in r.value ==> Positive(p)
  {
    match ParsePrices(pricesRun)
    case None => Err(Error(ValueError, "could not convert string to float"))
    case Some(prices) =>
      var texts := DateTexts(datesRun);
      if |prices| != |texts| then Err(Error(ValueError, MismatchMessage(|prices|, |texts|)))
      else
        match ParseDays(texts)
        case None => Err(Error(ValueError, "could not parse dates"))
        case Some(days) =>
          var sorted := SortByDate(Rows(days, prices));
          var kept := Filter(Filter(sorted, NonZero), Positive);
          if kept == [] then Err(Error(ValueError, NoValidPrices))
          else
            FilterSortedByDate(sorted, NonZero);
            FilterSortedByDate(Filter(sorted, NonZero), Positive);
            Ok(kept)
  }

  /** The row test `Fiyat != 0`. */
  predicate NonZero(p: Point)
  {
    !(p.price.Val? && p.price.v == 0.0)
  }

  lemma FilterSortedByDate(ps: seq<Point>, f: Point -> bool)
    requires SortedByDate(ps)
    ensures SortedByDate(Filter(ps, f))
  {
    assert SortedBy(ps, DateKey);
    FilterSorted(ps, f, DateKey);
    var r := Filter(ps, f);
    assert forall i, j :: 0 <= i < j < |r| ==> DateKey(r[i]) <= DateKey(r[j]);
  }

  /**
    A successful frame holds exactly the parsed rows with a positive price,
    each as often as in the input, ascending by date.
   */
  lemma BuildChartRows(pricesRun: string, datesRun: string)
    requires BuildChart(pricesRun, datesRun).Ok?
    ensures ParsePrices(pricesRun).Some? && ParseDays(DateTexts(datesRun)).Some?
    ensures |ParsePrices(pricesRun).value| == |DateTexts(datesRun)|
    ensures var rows := Rows(ParseDays(DateTexts(datesRun)).value, ParsePrices(pricesRun).value);
      multiset(BuildChart(pricesRun, datesRun).value) == multiset(Filter(rows, Positive))
  {
    var prices := ParsePrices(pricesRun).value;
    var days := ParseDays(DateTexts(datesRun)).value;
    var rows := Rows(days, prices);
    var sorted := SortByDate(rows);
    FilterFilter(sorted, NonZero, Positive, Positive);
    FilterPermutation(sorted, rows, Positive);
  }

  /** Unequal counts of prices and dates are rejected and no frame is built. */
  lemma BuildChartMismatch(pricesRun: string, datesRun: string)
    requires ParsePrices(pricesRun).Some?
    requires |ParsePrices(pricesRun).value| != |Split(datesRun, ',')|
    ensures BuildChart(pricesRun, datesRun) ==
      Err(Error(ValueError, MismatchMessage(|ParsePrices(pricesRun).value|, |Split(datesRun, ',')|)))
  {
  }

  /** When every price is positive, no row is lost. */
  lemma BuildChartKeepsPositive(pricesRun: string, datesRun: string)
    requires ParsePrices(pricesRun).Some? && ParseDays(DateTexts(datesRun)).Some?
    requires |ParsePrices(pricesRun).value| == |DateTexts(datesRun)| > 0
    requires forall x :: x in ParsePrices(pricesRun).value ==> x > 0.0
    ensures BuildChart(pricesRun, datesRun).Ok?
    ensures |BuildChart(pricesRun, datesRun).value| == |ParsePrices(pricesRun).value|
  {
    var prices := ParsePrices(pricesRun).value;
    var days := ParseDays(DateTexts(datesRun)).value;
    var sorted := SortByDate(Rows(days, prices));
    KeptAllPositive(days, prices, sorted);
  }

  lemma KeptAllPositive(days: seq<int>, prices: seq<real>, sorted: seq<Point>)
    requires |days| == |prices|
    requires forall x :: x in prices ==> x > 0.0
    requires multiset(sorted) == multiset(Rows(days, prices))
    ensures Filter(Filter(sorted, NonZero), Positive) == sorted
  {
    var rows := Rows(days, prices);
    forall p | p in sorted
      ensures Positive(p) && NonZero(p)
    {
      assert p in multiset(rows);
      var i :| 0 <= i < |rows| && rows[i] == p;
      assert prices[i] in prices;
    }
    FilterAll(sorted, NonZero);
    FilterAll(sorted, Positive);
  }

  /** The frame `parse_chart_data` returns for a page, or the error it raises. */
  function ChartData(code: string, pricesGroup: Option<string>, datesGroup: Option<string>): (r: Py<seq<Point>>)
    ensures r.Err? ==> r.error.cls == ValueError
    ensures pricesGroup.None? || datesGroup.None? ==>
      r == Err(Error(ValueError, "Failed to parse chart data: " + (ChartNotFound + code)))
  {
    var inner :=
      if pricesGroup.None? || datesGroup.None? then Err(Error(ValueError, ChartNotFound + code))
      else BuildChart(pricesGroup.value, datesGroup.value);
    match inner
    case Ok(rows) => Ok(rows)
    case Err(e) => Err(Error(ValueError, "Failed to parse chart data: " + e.msg))
  }

  /** `parse_chart_data`: both pattern cascades, then the series building. */
  method ParseChartData(html: string, code: string) returns (r: Py<seq<Point>>)
    ensures r == ChartData(code, Cascade(PricePatterns, html), Cascade(CategoryPatterns, html))
  {
    var seriesMatch := FirstMatching(PricePatterns, html);
    var axisMatch := FirstMatching(CategoryPatterns, html);
    r := ChartData(code, seriesMatch, axisMatch);
  }

  // ---------------------------------------------------------------- clean_price_data

  /** Row `i` is the first row carrying its date. */
  predicate FirstOfDate(ps: seq<Point>, i: int)
    requires 0 <= i < |ps|
  {
    forall j :: 0 <= j < i ==> ps[j].date != ps[i].date
  }

  /** `drop_duplicates(subset=['Tarih'])`: the first row of every date, in order. */
  function Dedupe(ps: seq<Point>): (r: seq<Point>)
    ensures DateSet(r) == DateSet(ps)
    ensures forall i, j :: 0 <= i < j < |r| ==> r[i].date != r[j].date
    ensures forall q :: q in r ==> q in ps
    ensures forall i :: 0 <= i < |ps| && FirstOfDate(ps, i) ==> ps[i] in r
  {
    if ps == [] then []
    else
      var init := ps[..|ps| - 1];
      var last := ps[|ps| - 1];
      var r := Dedupe(init);
      assert ps == init + [last];
      DateSetAppend(init, last);
      assert forall i :: 0 <= i < |init| && FirstOfDate(ps, i) ==> FirstOfDate(init, i);
      if last.date in DateSet(r) then
        r
      else
        DateSetAppend(r, last);
        r + [last]
  }

  /** The row test `Fiyat <= cap` (false for NaN). */
  function Within(cap: real): Point -> bool
  {
    (p: Point) => p.price.Val? && p.price.v <= cap
  }

  /** Positive rows, first row per date, ascending by date. */
  function Deduplicated(df: seq<Point>): (s: seq<Point>)
    ensures StrictlyIncreasingDates(s)
    ensures forall p :: p in s ==> Positive(p) && p in df
    ensures DateSet(s) == DateSet(Filter(df, Positive))
  {
    var d := Dedupe(Filter(df, Positive));
    var s := SortByDate(d);
    forall p | p in s
      ensures p in d
    {
      assert p in multiset(s);
    }
    DistinctSorted(s, d);
    s
  }

  lemma DistinctSorted(s: seq<Point>, d: seq<Point>)
    requires SortedByDate(s) && multiset(s) == multiset(d)
    requires forall i, j :: 0 <= i < j < |d| ==> d[i].date != d[j].date
    ensures StrictlyIncreasingDates(s)
    ensures DateSet(s) == DateSet(d)
  {
    DistinctDatesOnce(d);
    forall i, j | 0 <= i < j < |s|
      ensures s[i].date < s[j].date
    {
      CountOneDistinct(s, i, j);
      assert s[i] in multiset(d) && s[j] in multiset(d);
      var a :| 0 <= a < |d| && d[a] == s[i];
      var b :| 0 <= b < |d| && d[b] == s[j];
      assert a != b;
      assert d[a].date != d[b].date;
    }
    forall x | x in DateSet(s)
      ensures x in DateSet(d)
    {
      var i :| 0 <= i < |s| && s[i].date == x;
      assert s[i] in multiset(d);
    }
    forall x | x in DateSet(d)
      ensures x in DateSet(s)
    {
      var i :| 0 <= i < |d| && d[i].date == x;
      assert d[i] in multiset(s);
    }
  }

  /** Rows with pairwise different dates are pairwise different rows. */
  lemma {:induction false} DistinctDatesOnce(d: seq<Point>)
    requires forall i, j :: 0 <= i < j < |d| ==> d[i].date != d[j].date
    ensures forall x :: multiset(d)[x] <= 1
  {
    if d != [] {
      var init := d[..|d| - 1];
      var last := d[|d| - 1];
      DistinctDatesOnce(init);
      assert d == init + [last];
      assert last !in init by {
        forall k | 0 <= k < |init|
          ensures init[k] != last
        {
          assert d[k].date != d[|d| - 1].date;
        }
      }
    }
  }

  /**
    `clean_price_data`: an empty frame comes back as it is; otherwise the
    positive rows, one per date, ascending, without prices above ten times
    the median when the median is positive.
   */
  function CleanPriceData(df: seq<Point>): (r: seq<Point>)
    ensures df == [] ==> r == []
    ensures StrictlyIncreasingDates(r)
    ensures forall p :: p in r ==> Positive(p) && p in df
    ensures forall p :: p in r ==> p in Deduplicated(df)
  {
    if df == [] then df
    else
      var s := Deduplicated(df);
      if s == [] then s else OutlierCut(s, Median(Prices(s)))
  }

  /** `df[df['Fiyat'] <= median * 10]` when the median is positive. */
  function OutlierCut(s: seq<Point>, med: real): (r: seq<Point>)
    requires StrictlyIncreasingDates(s)
    ensures StrictlyIncreasingDates(r)
    ensures forall p :: p in r ==> p in s
  {
    if med > 0.0 then
      FilterIncreasing(s, Within(10.0 * med));
      Filter(s, Within(10.0 * med))
    else s
  }

  /** The median of positive prices is positive. */
  lemma MedianPositive(xs: seq<real>)
    requires xs != [] && forall i :: 0 <= i < |xs| ==> xs[i] > 0.0
    ensures Median(xs) > 0.0
  {
    var i :| 0 <= i < |xs| && xs[i] <= Median(xs);
  }

  /**
    The median of the deduplicated rows is positive, so the outlier cut always
    applies: a deduplicated row survives exactly when its price is at most ten
    times that median.
   */
  lemma CleanOutlierCut(df: seq<Point>)
    requires Deduplicated(df) != []
    ensures var s := Deduplicated(df);
      var med := Median(Prices(s));
      med > 0.0 &&
      forall p :: p in s ==> (p in CleanPriceData(df) <==> p.price.v <= 10.0 * med)
  {
    var s := Deduplicated(df);
    var xs := Prices(s);
    forall i | 0 <= i < |xs|
      ensures xs[i] > 0.0
    {
      assert s[i] in s;
    }
    MedianPositive(xs);
    var med := Median(xs);
    assert s[0] in df;
    assert CleanPriceData(df) == OutlierCut(s, med);
    OutlierCutKeeps(s, med);
  }

  lemma OutlierCutKeeps(s: seq<Point>, med: real)
    requires StrictlyIncreasingDates(s) && med > 0.0
    requires forall p :: p in s ==> p.price.Val?
    ensures forall p :: p in s ==> (p in OutlierCut(s, med) <==> p.price.v <= 10.0 * med)
  {
    var cap := Within(10.0 * med);
    assert OutlierCut(s, med) == Filter(s, cap);
    forall p | p in s
      ensures p in Filter(s, cap) <==> p.price.v <= 10.0 * med
    {
      if p.price.v <= 10.0 * med {
        FilterKeeps(s, cap, p);
      }
    }
  }

  /** Cleaning yields rows exactly when the frame holds a row with a positive price. */
  lemma CleanNonEmpty(df: seq<Point>)
    ensures CleanPriceData(df) != [] <==> exists p :: p in df && Positive(p)
  {
    var r := CleanPriceData(df);
    if r != [] {
      assert r[0] in r;
    }
    if p :| p in df && Positive(p) {
      DeduplicatedNonEmpty(df, p);
      CleanKeepsCheapest(df);
    }
  }

  /** A positive row leaves at least one row after deduplication. */
  lemma DeduplicatedNonEmpty(df: seq<Point>, p: Point)
    requires p in df && Positive(p)
    ensures Deduplicated(df) != []
  {
    var f := Filter(df, Positive);
    FilterKeeps(df, Positive, p);
    var k :| 0 <= k < |f| && f[k] == p;
    assert p.date in DateSet(f);
  }

  /** The outlier cut never removes a row priced at or below the median, so some row survives. */
  lemma CleanKeepsCheapest(df: seq<Point>)
    requires Deduplicated(df) != []
    ensures CleanPriceData(df) != []
  {
    CleanOutlierCut(df);
    var s := Deduplicated(df);
    var xs := Prices(s);
    var med := Median(xs);
    var i :| 0 <= i < |xs| && xs[i] <= med;
    assert s[i] in s;
  }

  /**
    Of the rows with a positive price, the first one of every date is the row
    the cleaning keeps for that date (before the outlier cut).
   */
  lemma DeduplicatedKeepsFirst(df: seq<Point>, k: int)
    requires var f := Filter(df, Positive); 0 <= k < |f| && FirstOfDate(f, k)
    ensures Filter(df, Positive)[k] in Deduplicated(df)
  {
    var d := Dedupe(Filter(df, Positive));
    var x := Filter(df, Positive)[k];
    assert x in multiset(d);
  }

  lemma {:induction false} FilterIncreasing(ps: seq<Point>, f: Point -> bool)
    requires StrictlyIncreasingDates(ps)
    ensures StrictlyIncreasingDates(Filter(ps, f))
  {
    if ps != [] {
      var init := ps[..|ps| - 1];
      FilterIncreasing(init, f);
      forall x | x in Filter(init, f)
        ensures x.date < ps[|ps| - 1].date
      {
        var i :| 0 <= i < |init| && init[i] == x;
      }
    }
  }

  // ---------------------------------------------------------------- validate_data_integrity

  /** An element of the price list: a float or int, a bool (an int subclass), or anything else. */
  datatype PriceItem = Number(x: Price) | Flag(b: bool) | NotNumber

  /** `isinstance(p, (int, float)) and p > 0`. */
  predicate ValidPrice(p: PriceItem)
  {
    match p
    case Number(x) => x.Val? && x.v > 0.0
    case Flag(b) => b
    case NotNumber => false
  }

  /** The text is accepted by `strptime` with `%d.%m.%Y` or with `%Y-%m-%d`. */
  predicate DateParses(t: string)
  {
    ParseDate(t).Some?
  }

  /**
    At least 80% of `n` items: Python tests `valid < n * 0.8`; for the list
    lengths that occur the rounding of `n * 0.8` never crosses an integer, so
    the test is the exact `5 * valid < 4 * n`.
   */
  predicate MostlyValid(valid: nat, n: nat)
  {
    5 * valid >= 4 * n
  }

  /** `validate_data_integrity`. */
  method ValidateDataIntegrity(prices: seq<PriceItem>, dates: seq<string>) returns (ok: bool)
    ensures ok <==>
      prices != [] && dates != [] && |prices| == |dates| &&
      MostlyValid(|Filter(prices, ValidPrice)|, |prices|) &&
      MostlyValid(|Filter(dates, DateParses)|, |dates|)
  {
    if prices == [] || dates == [] {
      return false;
    }
    if |prices| != |dates| {
      return false;
    }
    var validPrices := Filter(prices, ValidPrice);
    if !MostlyValid(|validPrices|, |prices|) {
      return false;
    }
    var validDates := 0;
    var k := 0;
    while k < |dates|
      invariant 0 <= k <= |dates|
      invariant validDates == |Filter(dates[..k], DateParses)|
    {
      assert dates[..k + 1] == dates[..k] + [dates[k]];
      FilterConcat(dates[..k], [dates[k]], DateParses);
      if ParseDate(dates[k]).Some? {
        validDates := validDates + 1;
      }
      k := k + 1;
    }
    assert dates[..k] == dates;
    if !MostlyValid(validDates, |dates|) {
      return false;
    }
    return true;
  }

  /** Positive prices with dates written as `dd.mm.yyyy` always pass the check. */
  lemma IntegrityOfFormatted(prices: seq<PriceItem>, days: seq<Date>)
    requires prices != [] && |prices| == |days|
    requires forall p :: p in prices ==> ValidPrice(p)
    requires forall d :: d in days ==> ValidDate(d)
    ensures var dates := seq(|days|, i requires 0 <= i < |days| => FormatDayFirst(days[i]));
      MostlyValid(|Filter(prices, ValidPrice)|, |prices|) &&
      MostlyValid(|Filter(dates, DateParses)|, |dates|)
  {
    var dates := seq(|days|, i requires 0 <= i < |days| => FormatDayFirst(days[i]));
    FilterAll(prices, ValidPrice);
    forall t | t in dates
      ensures DateParses(t)
    {
      var i :| 0 <= i < |dates| && dates[i] == t;
      assert days[i] in days;
      ParseFormatted(days[i]);
    }
    FilterAll(dates, DateParses);
  }

  /** One unparseable date in five is tolerated; two in five are not. */
  lemma IntegrityThreshold()
    ensures MostlyValid(4, 5) && !MostlyValid(3, 5)
    ensures forall v: nat, n: nat :: v <= n ==> (MostlyValid(v, n) <==> n - v <= n / 5)
  {
  }

  // ---------------------------------------------------------------- JavaScript blocks

  const PieIdent := "chartMainContent_PieChartFonDagilim"
  const ColumnIdent := "chartMainContent_ColumnChartMatch"

  /** The `{...}` assigned to `ident`, or the "block not found" error. */
  function FindBlock(ident: string, js: string): (r: Py<string>)
    ensures r.Ok? <==> Search(Block(ident), js).Some?
    ensures r.Err? ==> r.error.cls == ValueError
  {
    match Search(Block(ident), js)
    case Some(g) => Ok(g)
    case None => Err(Error(ValueError, ident + " block not found in JavaScript"))
  }

  /** `json.loads`, with `decode` standing for the JSON parser. */
  function Decode(decode: string -> Option<Json>, text: string): (r: Py<Json>)
    ensures r.Ok? <==> decode(text).Some?
    ensures r.Err? ==> r.error.cls == JsonDecodeError
  {
    match decode(text)
    case Some(v) => Ok(v)
    case None => Err(Error(JsonDecodeError, "invalid JSON"))
  }

  /**
    The two `except` clauses of the block parsers: a JSON error and any other
    exception both leave as `ValueError`, under different message prefixes.
   */
  function Reraise(e: Error, context: string): (r: Error)
    ensures r.cls == ValueError
  {
    if e.cls == JsonDecodeError then Error(ValueError, "Failed to parse JSON data: " + e.msg)
    else Error(ValueError, context + e.msg)
  }

  // ---------------------------------------------------------------- parse_asset_allocation

  /** The guards down to `pie_data['series'][0]['data']`, then its items. */
  function AssetData(pie: Json): Py<seq<Json>>
  {
    var hasSeries :- Contains(pie, "series");
    if !hasSeries then Err(Error(ValueError, "Series data not found in pie chart data"))
    else
      var series :- GetKey(pie, "series");
      var n :- Len(series);
      if n == 0 then Err(Error(ValueError, "Series data not found in pie chart data"))
      else
        var first :- At(series, 0);
        var hasData :- Contains(first, "data");
        if !hasData then Err(Error(ValueError, "Asset data not found in pie chart series"))
        else
          var data :- GetKey(first, "data");
          Items(data)
  }

  /**
    One iteration of the asset loop: a `{name, y}` dict or a `[name, y, ...]`
    list gives one entry; any other item is skipped.
   */
  function AssetEntry(asset: Json, show: Json -> string): (r: Py<seq<(string, real)>>)
    ensures r.Ok? ==> |r.value| <= 1
    ensures !asset.JObject? && !(asset.JArray? && |asset.items| >= 2) ==> r == Ok([])
  {
    match asset
    case JObject(m) =>
      if "name" in m && "y" in m then
        var name := m["name"];
        if !name.JStr? then Err(Error(AttributeError, "object has no attribute 'strip'"))
        else
          var y :- ToFloat(m["y"]);
          Ok([(Strip(name.s), y)])
      else Ok([])
    case JArray(xs) =>
      if |xs| >= 2 then
        var y :- ToFloat(xs[1]);
        Ok([(Strip(ToStr(xs[0], show)), y)])
      else Ok([])
    case _ => Ok([])
  }

  function AssetStep(show: Json -> string): (nat, Json) -> Py<seq<(string, real)>>
  {
    (i: nat, asset: Json) => AssetEntry(asset, show)
  }

  /** The assignments `allocation[name] = percentage` the loop makes, in order. */
  function AssetEntries(assets: seq<Json>, show: Json -> string): Py<seq<(string, real)>>
  {
    Collect(assets, AssetStep(show))
  }

  /** Everything `parse_asset_allocation` computes before building its dict. */
  function AllocationEntries(js: string, decode: string -> Option<Json>, show: Json -> string): (r: Py<seq<(string, real)>>)
    ensures r.Ok? ==> r.value != []
  {
    var g :- FindBlock(PieIdent, js);
    var pie :- Decode(decode, g);
    var assets :- AssetData(pie);
    var entries :- AssetEntries(assets, show);
    if entries == [] then Err(Error(ValueError, "No valid asset allocation data found")) else Ok(entries)
  }

  /** The asset loop: fills the dict and the running total. */
  method BuildAllocation(assets: seq<Json>, show: Json -> string) returns (r: Py<(map<string, real>, real)>)
    ensures AssetEntries(assets, show).Err? ==> r == Err(AssetEntries(assets, show).error)
    ensures AssetEntries(assets, show).Ok? ==>
      var es := AssetEntries(assets, show).value;
      r == Ok((PairsToMap(es), Sum(Values(es))))
  {
    var step := AssetStep(show);
    var allocation: map<string, real> := map[];
    var total := 0.0;
    var k := 0;
    while k < |assets|
      invariant 0 <= k <= |assets|
      invariant Collect(assets[..k], step).Ok?
      invariant allocation == PairsToMap(Collect(assets[..k], step).value)
      invariant total == Sum(Values(Collect(assets[..k], step).value))
    {
      var before := Collect(assets[..k], step).value;
      var entry := AssetEntry(assets[k], show);
      assert entry == step(k, assets[k]);
      CollectNext(assets, k, step);
      if entry.Err? {
        return Err(entry.error);
      }
      PairsToMapAppend(before, entry.value);
      SumValuesAppend(before, entry.value);
      allocation := ApplyWrites(allocation, entry.value);
      total := total + Sum(Values(entry.value));
      k := k + 1;
    }
    assert assets[..k] == assets;
    r := Ok((allocation, total));
  }

  lemma PairsToMapSnoc<K, V>(ps: seq<(K, V)>, p: (K, V))
    ensures PairsToMap(ps + [p]) == PairsToMap(ps)[p.0 := p.1]
  {
    assert (ps + [p])[..|ps|] == ps;
  }

  lemma SumValuesAppend<K>(ps: seq<(K, real)>, ws: seq<(K, real)>)
    requires |ws| <= 1
    ensures Sum(Values(ps + ws)) == Sum(Values(ps)) + Sum(Values(ws))
  {
    if ws == [] {
      assert ps + ws == ps;
    } else {
      assert ws == [ws[0]];
      SumValuesSnoc(ps, ws[0]);
    }
  }

  /** Applies the at most one write an iteration produces. */
  function ApplyWrites<K, V>(m: map<K, V>, ws: seq<(K, V)>): (r: map<K, V>)
    requires |ws| <= 1
    ensures ws == [] ==> r == m
    ensures ws != [] ==> ws[0].0 in r && r[ws[0].0] == ws[0].1
  {
    if ws == [] then m else m[ws[0].0 := ws[0].1]
  }

  lemma PairsToMapAppend<K, V>(ps: seq<(K, V)>, ws: seq<(K, V)>)
    requires |ws| <= 1
    ensures PairsToMap(ps + ws) == ApplyWrites(PairsToMap(ps), ws)
  {
    if ws == [] {
      assert ps + ws == ps;
    } else {
      assert ws == [ws[0]];
      PairsToMapSnoc(ps, ws[0]);
    }
  }

  lemma PairsToMapExtend<K, V>(done: seq<(K, V)>, before: seq<(K, V)>, ws: seq<(K, V)>)
    requires |ws| <= 1
    ensures PairsToMap(done + (before + ws)) == ApplyWrites(PairsToMap(done + before), ws)
  {
    assert done + (before + ws) == (done + before) + ws;
    PairsToMapAppend(done + before, ws);
  }

  /** One pass of a loop that builds a dict from the writes `Collect` gathers. */
  lemma DictNext<A, K, V>(xs: seq<A>, j: nat, step: (nat, A) -> Py<seq<(K, V)>>, w: Py<map<K, V>>)
    requires j < |xs| && Collect(xs[..j], step).Ok?
    requires step(j, xs[j]).Err? ==> w == Err(step(j, xs[j]).error)
    requires step(j, xs[j]).Ok? ==>
      w == Ok(PairsToMap(Collect(xs[..j], step).value + step(j, xs[j]).value))
    ensures w.Err? ==> Collect(xs, step) == Err(w.error)
    ensures w.Ok? ==> Collect(xs[..j + 1], step).Ok? && w.value == PairsToMap(Collect(xs[..j + 1], step).value)
  {
    CollectNext(xs, j, step);
  }

  lemma SumValuesSnoc<K>(ps: seq<(K, real)>, p: (K, real))
    ensures Sum(Values(ps + [p])) == Sum(Values(ps)) + p.1
  {
    assert Values(ps + [p])[..|ps|] == Values(ps);
  }

  /** `parse_asset_allocation`; `warned` says whether the percentage warning is logged. */
  method ParseAssetAllocation(js: string, decode: string -> Option<Json>, show: Json -> string)
    returns (r: Py<map<string, real>>, warned: bool)
    ensures var spec := AllocationEntries(js, decode, show);
      && (spec.Err? ==> r == Err(Reraise(spec.error, "Error parsing asset allocation: ")) && !warned)
      && (spec.Ok? ==>
            r == Ok(PairsToMap(spec.value)) && (warned <==> !(90.0 <= Sum(Values(spec.value)) <= 110.0)))
  {
    warned := false;
    var context := "Error parsing asset allocation: ";
    var found := FindBlock(PieIdent, js);
    if found.Err? {
      return Err(Reraise(found.error, context)), false;
    }
    var pie := Decode(decode, found.value);
    if pie.Err? {
      return Err(Reraise(pie.error, context)), false;
    }
    var assets := AssetData(pie.value);
    if assets.Err? {
      return Err(Reraise(assets.error, context)), false;
    }
    var built := BuildAllocation(assets.value, show);
    if built.Err? {
      return Err(Reraise(built.error, context)), false;
    }
    var (allocation, total) := built.value;
    var es := AssetEntries(assets.value, show).value;
    PairsToMapEmpty(es);
    if allocation == map[] {
      return Err(Reraise(Error(ValueError, "No valid asset allocation data found"), context)), false;
    }
    assert es != [];
    warned := !(90.0 <= total && total <= 110.0);
    r := Ok(allocation);
  }

  /** A skipped item (neither a dict nor a list of two or more) leaves the loop's result as it was. */
  lemma AssetSkipped(assets: seq<Json>, show: Json -> string, x: Json)
    requires !x.JObject? && !(x.JArray? && |x.items| >= 2)
    ensures AssetEntries(assets + [x], show) == AssetEntries(assets, show)
  {
    CollectSnoc(assets, x, AssetStep(show));
    if AssetEntries(assets, show).Ok? {
      assert AssetEntries(assets, show).value + [] == AssetEntries(assets, show).value;
    }
  }

  /**
    Both item shapes yield the stripped name and the converted percentage;
    items of a list past the first two are ignored.
   */
  lemma AssetShapes(name: string, y: real, rest: seq<Json>, show: Json -> string)
    ensures AssetEntry(JObject(map["name" := JStr(name), "y" := JNum(y)]), show) == Ok([(Strip(name), y)])
    ensures AssetEntry(JArray([JStr(name), JNum(y)] + rest), show) == Ok([(Strip(name), y)])
  {
    var m := map["name" := JStr(name), "y" := JNum(y)];
    assert "name" in m && "y" in m && m["name"] == JStr(name) && m["y"] == JNum(y);
  }

  /** A later item with the same name overwrites the percentage of an earlier one. */
  lemma AllocationLastWins(js: string, decode: string -> Option<Json>, show: Json -> string, i: int)
    requires AllocationEntries(js, decode, show).Ok?
    requires var es := AllocationEntries(js, decode, show).value;
      0 <= i < |es| && forall j :: i < j < |es| ==> es[j].0 != es[i].0
    ensures var es := AllocationEntries(js, decode, show).value;
      es[i].0 in PairsToMap(es) && PairsToMap(es)[es[i].0] == es[i].1
  {
    PairsToMapLastWins(AllocationEntries(js, decode, show).value, i);
  }

  // ---------------------------------------------------------------- parse_benchmark_returns

  const NoCategories := "xAxis categories not found in benchmark data"
  const NoSeries := "Series data not found in benchmark data"
  const NoReturns := "No valid benchmark return data found"

  /**
    The dict key of one return: `f"{category}_{series name}"` when there are
    several series, otherwise the category itself, which must be hashable.
   */
  function ReturnKey(category: Json, seriesName: Json, multi: bool, show: Json -> string): (r: Py<string>)
    ensures r.Err? <==> !multi && !Hashable(category)
    ensures multi ==> r == Ok(ToStr(category, show) + "_" + ToStr(seriesName, show))
    ensures !multi && Hashable(category) ==> r == Ok(ToStr(category, show))
  {
    if multi then Ok(ToStr(category, show) + "_" + ToStr(seriesName, show))
    else if Hashable(category) then Ok(ToStr(category, show))
    else TypeFail("unhashable type")
  }

  /**
    Iteration `i` of the inner loop over a series' data: only indices below
    `len(categories)` are looked at, and `None` values are skipped.
   */
  function ValueWrite(names: Json, seriesName: Json, multi: bool, show: Json -> string, i: nat, v: Json)
    : (r: Py<seq<(string, real)>>)
    ensures Len(names).Ok? && i >= Len(names).value ==> r == Ok([])
    ensures v.JNull? && r.Ok? ==> r.value == []
    ensures r.Ok? && r.value != [] ==>
      |r.value| == 1 && At(names, i).Ok? && ToFloat(v) == Ok(r.value[0].1) &&
      ReturnKey(At(names, i).value, seriesName, multi, show) == Ok(r.value[0].0)
    ensures (Len(names).Ok? && i < Len(names).value && At(names, i).Ok? && !v.JNull? && ToFloat(v).Ok? &&
             ReturnKey(At(names, i).value, seriesName, multi, show).Ok?) ==> r.Ok? && |r.value| == 1
  {
    var count :- Len(names);
    if i >= count then Ok([])
    else
      var category :- At(names, i);
      if v.JNull? then Ok([])
      else
        var x :- ToFloat(v);
        var key :- ReturnKey(category, seriesName, multi, show);
        Ok([(key, x)])
  }

  function ValueStep(names: Json, seriesName: Json, multi: bool, show: Json -> string): (nat, Json) -> Py<seq<(string, real)>>
  {
    (i: nat, v: Json) => ValueWrite(names, seriesName, multi, show, i, v)
  }

  /**
    One iteration of the loop over the series: a series without `data` or
    `name` is skipped, and one with both contributes the writes of its data.
   */
  function SeriesWrites(names: Json, series: Json, multi: bool, show: Json -> string): (r: Py<seq<(string, real)>>)
    ensures series.JObject? && ("data" !in series.fields || "name" !in series.fields) ==> r == Ok([])
    ensures r.Ok? && r.value != [] ==> series.JObject? && "data" in series.fields && "name" in series.fields
  {
    var hasData :- Contains(series, "data");
    if !hasData then Ok([])
    else
      var hasName := Contains(series, "name").value;
      if !hasName then Ok([])
      else if !series.JObject? then TypeFail("indices must be integers")
      else
        var values :- Items(series.fields["data"]);
        Collect(values, ValueStep(names, series.fields["name"], multi, show))
  }

  function SeriesStep(names: Json, multi: bool, show: Json -> string): (nat, Json) -> Py<seq<(string, real)>>
  {
    (i: nat, series: Json) => SeriesWrites(names, series, multi, show)
  }

  /** A series dict with both keys writes its data's values under the categories, in order. */
  lemma SeriesWritesData(names: Json, series: map<string, Json>, multi: bool, show: Json -> string)
    requires "data" in series && "name" in series && Items(series["data"]).Ok?
    ensures SeriesWrites(names, JObject(series), multi, show) ==
      Collect(Items(series["data"]).value, ValueStep(names, series["name"], multi, show))
  {
  }

  /** Iteration `i` of the fallback loop; the category is read only for a value that is kept. */
  function FallbackValue(names: Json, show: Json -> string, i: nat, v: Json): (r: Py<seq<(string, real)>>)
    ensures v.JNull? && r.Ok? ==> r.value == []
  {
    var count :- Len(names);
    if i >= count || v.JNull? then Ok([])
    else
      var x :- ToFloat(v);
      var category :- At(names, i);
      var key :- ReturnKey(category, JNull, false, show);
      Ok([(key, x)])
  }

  function FallbackStep(names: Json, show: Json -> string): (nat, Json) -> Py<seq<(string, real)>>
  {
    (i: nat, v: Json) => FallbackValue(names, show, i, v)
  }

  /**
    What a fallback iteration writes: `float(value)` under the bare category
    `str(names[i])`, which must be hashable; an in-range value that is not
    `None` and converts, under a hashable category, makes exactly one write.
   */
  lemma FallbackValueWrite(names: Json, show: Json -> string, i: nat, v: Json)
    ensures var r := FallbackValue(names, show, i, v);
      r.Ok? && r.value != [] ==>
        |r.value| == 1 && At(names, i).Ok? && Hashable(At(names, i).value) && ToFloat(v) == Ok(r.value[0].1) &&
        r.value[0].0 == ToStr(At(names, i).value, show)
    ensures (Len(names).Ok? && i < Len(names).value && At(names, i).Ok? && !v.JNull? && ToFloat(v).Ok? &&
             Hashable(At(names, i).value)) ==> FallbackValue(names, show, i, v).Ok? && |FallbackValue(names, show, i, v).value| == 1
  {
  }

  /**
    The fallback: the first series' data under the bare categories. (Its
    re-test of `'series' in column_data` always holds at that point.)
   */
  function FallbackWrites(seriesValue: Json, names: Json, show: Json -> string): (r: Py<seq<(string, real)>>)
    ensures Len(names) == Ok(0) ==> r == Ok([])
    ensures r.Ok? && r.value != [] ==>
      At(seriesValue, 0).Ok? && At(seriesValue, 0).value.JObject? && "data" in At(seriesValue, 0).value.fields
    ensures (seriesValue.JArray? && seriesValue.items != [] && seriesValue.items[0].JObject? &&
             "data" in seriesValue.items[0].fields && Items(seriesValue.items[0].fields["data"]).Ok? &&
             Len(names).Ok? && Len(names).value > 0) ==>
      r == Collect(Items(seriesValue.items[0].fields["data"]).value, FallbackStep(names, show))
  {
    var count :- Len(names);
    if count == 0 then Ok([])
    else
      var first :- At(seriesValue, 0);
      var hasData :- Contains(first, "data");
      if !hasData then Ok([])
      else
        var data :- GetKey(first, "data");
        var values :- Items(data);
        Collect(values, FallbackStep(names, show))
  }

  /** The categories, the series value and the series items, after the guard ladder. */
  datatype ColumnChart = ColumnChart(names: Json, seriesValue: Json, series: seq<Json>)

  function ColumnData(js: string, decode: string -> Option<Json>): (r: Py<ColumnChart>)
    ensures r.Ok? ==> r.value.series != []
  {
    var g :- FindBlock(ColumnIdent, js);
    var data :- Decode(decode, g);
    var hasAxis :- Contains(data, "xAxis");
    if !hasAxis then Err(Error(ValueError, NoCategories))
    else
      var axis :- GetKey(data, "xAxis");
      var hasCategories :- Contains(axis, "categories");
      if !hasCategories then Err(Error(ValueError, NoCategories))
      else
        var names :- GetKey(axis, "categories");
        var hasSeries := Contains(data, "series").value;
        if !hasSeries then Err(Error(ValueError, NoSeries))
        else
          var seriesValue := GetKey(data, "series").value;
          var n :- Len(seriesValue);
          if n == 0 then Err(Error(ValueError, NoSeries))
          else
            var series :- Items(seriesValue);
            assert seriesValue.JStr? || seriesValue.JArray?;
            Ok(ColumnChart(names, seriesValue, series))
  }

  /** Everything `parse_benchmark_returns` computes before building its dict. */
  function BenchmarkWrites(js: string, decode: string -> Option<Json>, show: Json -> string): (r: Py<seq<(string, real)>>)
    ensures r.Ok? ==> r.value != []
  {
    var chart :- ColumnData(js, decode);
    ChartWrites(chart, show)
  }

  /** The writes of the series loop, or of the fallback loop when the first makes none. */
  function ChartWrites(chart: ColumnChart, show: Json -> string): (r: Py<seq<(string, real)>>)
    ensures r.Ok? ==> r.value != []
  {
    var writes :- Collect(chart.series, SeriesStep(chart.names, |chart.series| > 1, show));
    if writes != [] then Ok(writes)
    else
      var fallback :- FallbackWrites(chart.seriesValue, chart.names, show);
      if fallback == [] then Err(Error(ValueError, NoReturns)) else Ok(fallback)
  }

  /**
    One pass of the inner loop's body: the write it makes (none for an index
    past the categories or a `None` value), or the exception it raises.
   */
  method ValueIteration(names: Json, seriesName: Json, multi: bool, show: Json -> string, i: nat, v: Json)
    returns (w: Py<seq<(string, real)>>)
    ensures w == ValueWrite(names, seriesName, multi, show, i, v)
    ensures w.Ok? ==> |w.value| <= 1
  {
    var count := Len(names);
    if count.Err? {
      return Err(count.error);
    }
    if i >= count.value {
      return Ok([]);
    }
    var category := At(names, i);
    if category.Err? {
      return Err(category.error);
    }
    if v.JNull? {
      return Ok([]);
    }
    var x := ToFloat(v);
    if x.Err? {
      return Err(x.error);
    }
    var key := ReturnKey(category.value, seriesName, multi, show);
    if key.Err? {
      return Err(key.error);
    }
    return Ok([(key.value, x.value)]);
  }

  /** One pass of the fallback loop's body: its write, if any, or the exception it raises. */
  method FallbackIteration(names: Json, show: Json -> string, i: nat, v: Json) returns (w: Py<seq<(string, real)>>)
    ensures w == FallbackValue(names, show, i, v)
    ensures w.Ok? ==> |w.value| <= 1
  {
    var count := Len(names);
    if count.Err? {
      return Err(count.error);
    }
    if i >= count.value || v.JNull? {
      return Ok([]);
    }
    var x := ToFloat(v);
    if x.Err? {
      return Err(x.error);
    }
    var category := At(names, i);
    if category.Err? {
      return Err(category.error);
    }
    var key := ReturnKey(category.value, JNull, false, show);
    if key.Err? {
      return Err(key.error);
    }
    return Ok([(key.value, x.value)]);
  }

  /**
    The inner `for i, return_value in enumerate(series_data)` loop, writing
    into a dict that already holds the assignments `done`.
   */
  method WriteValues(done: seq<(string, real)>, dict: map<string, real>, values: seq<Json>,
                     names: Json, seriesName: Json, multi: bool, show: Json -> string)
    returns (r: Py<map<string, real>>)
    requires dict == PairsToMap(done)
    ensures var spec := Collect(values, ValueStep(names, seriesName, multi, show));
      && (spec.Err? ==> r == Err(spec.error))
      && (spec.Ok? ==> r == Ok(PairsToMap(done + spec.value)))
  {
    var step := ValueStep(names, seriesName, multi, show);
    var out := dict;
    var j := 0;
    assert done + Collect(values[..0], step).value == done;
    while j < |values|
      invariant 0 <= j <= |values|
      invariant Collect(values[..j], step).Ok?
      invariant out == PairsToMap(done + Collect(values[..j], step).value)
    {
      var before := Collect(values[..j], step).value;
      var w := ValueIteration(names, seriesName, multi, show, j, values[j]);
      assert w == step(j, values[j]);
      CollectNext(values, j, step);
      if w.Err? {
        return Err(w.error);
      }
      PairsToMapExtend(done, before, w.value);
      out := ApplyWrites(out, w.value);
      j := j + 1;
    }
    assert values[..j] == values;
    r := Ok(out);
  }

  /** One pass of the outer loop: the writes of one series applied to the dict built so far. */
  method SeriesIteration(done: seq<(string, real)>, dict: map<string, real>, current: Json,
                         names: Json, multi: bool, show: Json -> string)
    returns (r: Py<map<string, real>>)
    requires dict == PairsToMap(done)
    ensures var spec := SeriesWrites(names, current, multi, show);
      && (spec.Err? ==> r == Err(spec.error))
      && (spec.Ok? ==> r == Ok(PairsToMap(done + spec.value)))
  {
    var hasData := Contains(current, "data");
    if hasData.Err? {
      return Err(hasData.error);
    }
    var hasName := hasData.value && Contains(current, "name").value;
    if !hasName {
      assert done + [] == done;
      return Ok(dict);
    }
    var seriesName := GetKey(current, "name");
    if seriesName.Err? {
      return Err(seriesName.error);
    }
    var data := GetKey(current, "data").value;
    var values := Items(data);
    if values.Err? {
      return Err(values.error);
    }
    r := WriteValues(done, dict, values.value, names, seriesName.value, multi, show);
  }

  /** The outer loop over the series of the column chart. */
  method WriteAllSeries(series: seq<Json>, names: Json, multi: bool, show: Json -> string)
    returns (r: Py<map<string, real>>)
    ensures var spec := Collect(series, SeriesStep(names, multi, show));
      && (spec.Err? ==> r == Err(spec.error))
      && (spec.Ok? ==> r == Ok(PairsToMap(spec.value)))
  {
    var step := SeriesStep(names, multi, show);
    var dict: map<string, real> := map[];
    var k := 0;
    while k < |series|
      invariant 0 <= k <= |series|
      invariant Collect(series[..k], step).Ok?
      invariant dict == PairsToMap(Collect(series[..k], step).value)
    {
      var done := Collect(series[..k], step).value;
      var w := SeriesIteration(done, dict, series[k], names, multi, show);
      assert SeriesWrites(names, series[k], multi, show) == step(k, series[k]);
      DictNext(series, k, step, w);
      if w.Err? {
        return Err(w.error);
      }
      dict := w.value;
      k := k + 1;
    }
    assert series[..k] == series;
    r := Ok(dict);
  }

  /** The fallback loop over the first series' data. */
  method WriteFallback(seriesValue: Json, names: Json, show: Json -> string) returns (r: Py<map<string, real>>)
    ensures var spec := FallbackWrites(seriesValue, names, show);
      && (spec.Err? ==> r == Err(spec.error))
      && (spec.Ok? ==> r == Ok(PairsToMap(spec.value)))
  {
    var count := Len(names);
    if count.Err? {
      return Err(count.error);
    }
    if count.value == 0 {
      return Ok(map[]);
    }
    var first := At(seriesValue, 0);
    if first.Err? {
      return Err(first.error);
    }
    var hasData := Contains(first.value, "data");
    if hasData.Err? {
      return Err(hasData.error);
    }
    if !hasData.value {
      return Ok(map[]);
    }
    var data := GetKey(first.value, "data");
    if data.Err? {
      return Err(data.error);
    }
    var values := Items(data.value);
    if values.Err? {
      return Err(values.error);
    }
    r := WriteFallbackValues(values.value, names, show);
  }

  method WriteFallbackValues(values: seq<Json>, names: Json, show: Json -> string) returns (r: Py<map<string, real>>)
    ensures var spec := Collect(values, FallbackStep(names, show));
      && (spec.Err? ==> r == Err(spec.error))
      && (spec.Ok? ==> r == Ok(PairsToMap(spec.value)))
  {
    var step := FallbackStep(names, show);
    var dict: map<string, real> := map[];
    var j := 0;
    while j < |values|
      invariant 0 <= j <= |values|
      invariant Collect(values[..j], step).Ok?
      invariant dict == PairsToMap(Collect(values[..j], step).value)
    {
      var before := Collect(values[..j], step).value;
      var w := FallbackIteration(names, show, j, values[j]);
      assert w == step(j, values[j]);
      CollectNext(values, j, step);
      if w.Err? {
        return Err(w.error);
      }
      PairsToMapAppend(before, w.value);
      dict := ApplyWrites(dict, w.value);
      j := j + 1;
    }
    assert values[..j] == values;
    r := Ok(dict);
  }

  const BenchmarkContext := "Error parsing benchmark returns: "

  /** `parse_benchmark_returns`. */
  method ParseBenchmarkReturns(js: string, decode: string -> Option<Json>, show: Json -> string)
    returns (r: Py<map<string, real>>)
    ensures var spec := BenchmarkWrites(js, decode, show);
      && (spec.Err? ==> r == Err(Reraise(spec.error, BenchmarkContext)))
      && (spec.Ok? ==> r == Ok(PairsToMap(spec.value)))
  {
    var chart := ColumnData(js, decode);
    if chart.Err? {
      return Err(Reraise(chart.error, BenchmarkContext));
    }
    var c := chart.value;
    var written := WriteAllSeries(c.series, c.names, |c.series| > 1, show);
    if written.Err? {
      return Err(Reraise(written.error, BenchmarkContext));
    }
    PairsToMapEmpty(Collect(c.series, SeriesStep(c.names, |c.series| > 1, show)).value);
    if written.value == map[] {
      var fallback := WriteFallback(c.seriesValue, c.names, show);
      if fallback.Err? {
        return Err(Reraise(fallback.error, BenchmarkContext));
      }
      PairsToMapEmpty(FallbackWrites(c.seriesValue, c.names, show).value);
      if fallback.value == map[] {
        return Err(Reraise(Error(ValueError, NoReturns), BenchmarkContext));
      }
      return Ok(fallback.value);
    }
    r := Ok(written.value);
  }

  function JNums(xs: seq<real>): (vs: seq<Json>)
    ensures |vs| == |xs| && forall i :: 0 <= i < |xs| ==> vs[i] == JNum(xs[i])
  {
    seq(|xs|, i requires 0 <= i < |xs| => JNum(xs[i]))
  }

  function JStrs(ts: seq<string>): (vs: seq<Json>)
    ensures |vs| == |ts| && forall i :: 0 <= i < |ts| ==> vs[i] == JStr(ts[i])
  {
    seq(|ts|, i requires 0 <= i < |ts| => JStr(ts[i]))
  }

  /** The key a numeric return gets under a string category. */
  function CategoryKey(category: string, seriesName: Json, multi: bool, show: Json -> string): string
  {
    if multi then category + "_" + ToStr(seriesName, show) else category
  }

  /** The assignments expected for numeric returns `xs` under categories `cats`. */
  function KeyedReturns(cats: seq<string>, xs: seq<real>, seriesName: Json, multi: bool, show: Json -> string)
    : (ws: seq<(string, real)>)
    requires |xs| <= |cats|
    ensures |ws| == |xs|
    ensures forall i :: 0 <= i < |xs| ==> ws[i] == (CategoryKey(cats[i], seriesName, multi, show), xs[i])
  {
    if xs == [] then []
    else
      var n := |xs| - 1;
      KeyedReturns(cats, xs[..n], seriesName, multi, show) + [(CategoryKey(cats[n], seriesName, multi, show), xs[n])]
  }

  lemma ValueWriteNumber(cats: seq<string>, i: nat, x: real, seriesName: Json, multi: bool, show: Json -> string)
    requires i < |cats|
    ensures ValueWrite(JArray(JStrs(cats)), seriesName, multi, show, i, JNum(x)) ==
      Ok([(CategoryKey(cats[i], seriesName, multi, show), x)])
  {
    var names := JArray(JStrs(cats));
    assert Len(names) == Ok(|cats|);
    assert At(names, i) == Ok(JStr(cats[i]));
  }

  /**
    Numeric returns under string categories: the `i`-th return is written
    under the `i`-th category, suffixed with the series name when there are
    several series.
   */
  lemma NumbersUnderCategories(cats: seq<string>, xs: seq<real>, seriesName: Json, multi: bool, show: Json -> string)
    requires |xs| <= |cats|
    ensures Collect(JNums(xs), ValueStep(JArray(JStrs(cats)), seriesName, multi, show)) ==
      Ok(KeyedReturns(cats, xs, seriesName, multi, show))
  {
    var step := ValueStep(JArray(JStrs(cats)), seriesName, multi, show);
    var vs, ws := JNums(xs), KeyedReturns(cats, xs, seriesName, multi, show);
    forall i | 0 <= i < |vs|
      ensures step(i, vs[i]) == Ok([ws[i]])
    {
      ValueWriteNumber(cats, i, xs[i], seriesName, multi, show);
    }
    CollectSingles(vs, ws, step);
  }

  /**
    Over a list or a string of categories, an iteration of the fallback loop
    writes what an iteration of the single-series main loop writes.
   */
  lemma FallbackIsSingleSeriesWrite(names: Json, seriesName: Json, show: Json -> string, i: nat, v: Json)
    requires !names.JObject?
    ensures FallbackValue(names, show, i, v) == ValueWrite(names, seriesName, false, show, i, v)
  {
  }

  /** The guard ladder of a decoded column chart whose categories and series are present. */
  lemma ColumnDataOf(js: string, decode: string -> Option<Json>, m: map<string, Json>)
    requires FindBlock(ColumnIdent, js).Ok? && decode(FindBlock(ColumnIdent, js).value) == Some(JObject(m))
    requires "xAxis" in m && m["xAxis"].JObject? && "categories" in m["xAxis"].fields
    requires "series" in m && m["series"].JArray? && m["series"].items != []
    ensures ColumnData(js, decode) ==
      Ok(ColumnChart(m["xAxis"].fields["categories"], m["series"], m["series"].items))
  {
  }

  /** A decoded chart without `xAxis`, or whose `xAxis` lacks `categories`, raises the categories error. */
  lemma BenchmarkNeedsCategories(js: string, decode: string -> Option<Json>, show: Json -> string, m: map<string, Json>)
    requires FindBlock(ColumnIdent, js).Ok? && decode(FindBlock(ColumnIdent, js).value) == Some(JObject(m))
    requires "xAxis" !in m || (m["xAxis"].JObject? && "categories" !in m["xAxis"].fields)
    ensures BenchmarkWrites(js, decode, show) == Err(Error(ValueError, NoCategories))
    ensures Reraise(BenchmarkWrites(js, decode, show).error, BenchmarkContext) ==
      Error(ValueError, BenchmarkContext + NoCategories)
  {
  }

  /** With its categories present, a chart without `series`, or with an empty one, raises the series error. */
  lemma BenchmarkNeedsSeries(js: string, decode: string -> Option<Json>, show: Json -> string, m: map<string, Json>)
    requires FindBlock(ColumnIdent, js).Ok? && decode(FindBlock(ColumnIdent, js).value) == Some(JObject(m))
    requires "xAxis" in m && m["xAxis"].JObject? && "categories" in m["xAxis"].fields
    requires "series" !in m || Len(m["series"]) == Ok(0)
    ensures BenchmarkWrites(js, decode, show) == Err(Error(ValueError, NoSeries))
    ensures Reraise(BenchmarkWrites(js, decode, show).error, BenchmarkContext) ==
      Error(ValueError, BenchmarkContext + NoSeries)
  {
  }

  /** The writes of a single named series of numbers, as the main loop makes them. */
  lemma OneSeriesWrites(cats: seq<string>, xs: seq<real>, s: map<string, Json>, show: Json -> string)
    requires |xs| <= |cats|
    requires "name" in s && "data" in s && s["data"] == JArray(JNums(xs))
    ensures Collect([JObject(s)], SeriesStep(JArray(JStrs(cats)), false, show)) ==
      Ok(KeyedReturns(cats, xs, s["name"], false, show))
  {
    var names := JArray(JStrs(cats));
    var step := SeriesStep(names, false, show);
    NumbersUnderCategories(cats, xs, s["name"], false, show);
    assert Items(s["data"]) == Ok(JNums(xs));
    SeriesWritesData(names, s, false, show);
    assert SeriesWrites(names, JObject(s), false, show) == Ok(KeyedReturns(cats, xs, s["name"], false, show));
    assert step(0, JObject(s)) == SeriesWrites(names, JObject(s), false, show);
    CollectOne(JObject(s), step);
  }

  /**
    A single named series of numbers: its `i`-th return is written under the
    `i`-th category itself; with no number at all, nothing valid is found.
   */
  lemma SingleSeriesUnderCategories(js: string, decode: string -> Option<Json>, show: Json -> string,
                                    m: map<string, Json>, cats: seq<string>, xs: seq<real>, s: map<string, Json>)
    requires FindBlock(ColumnIdent, js).Ok? && decode(FindBlock(ColumnIdent, js).value) == Some(JObject(m))
    requires "xAxis" in m && m["xAxis"].JObject? && "categories" in m["xAxis"].fields
    requires m["xAxis"].fields["categories"] == JArray(JStrs(cats)) && |xs| <= |cats|
    requires "series" in m && m["series"] == JArray([JObject(s)])
    requires "name" in s && "data" in s && s["data"] == JArray(JNums(xs))
    ensures xs != [] ==> BenchmarkWrites(js, decode, show) == Ok(KeyedReturns(cats, xs, s["name"], false, show))
    ensures xs == [] ==> BenchmarkWrites(js, decode, show) == Err(Error(ValueError, NoReturns))
  {
    ColumnDataOf(js, decode, m);
    var names := JArray(JStrs(cats));
    OneSeriesWrites(cats, xs, s, show);
    if xs == [] {
      assert Items(s["data"]) == Ok([]);
      assert FallbackWrites(JArray([JObject(s)]), names, show) == Ok([]);
    }
  }

  /**
    The fallback: when no series has a name, the main loop writes nothing, and
    the numeric returns of the first series are written under the bare
    categories; with no number at all, nothing valid is found.
   */
  lemma FallbackUnderCategories(js: string, decode: string -> Option<Json>, show: Json -> string,
                                m: map<string, Json>, cats: seq<string>, xs: seq<real>, series: seq<Json>)
    requires FindBlock(ColumnIdent, js).Ok? && decode(FindBlock(ColumnIdent, js).value) == Some(JObject(m))
    requires "xAxis" in m && m["xAxis"].JObject? && "categories" in m["xAxis"].fields
    requires m["xAxis"].fields["categories"] == JArray(JStrs(cats)) && cats != [] && |xs| <= |cats|
    requires "series" in m && m["series"] == JArray(series) && series != []
    requires forall k :: 0 <= k < |series| ==> series[k].JObject? && "name" !in series[k].fields
    requires "data" in series[0].fields && series[0].fields["data"] == JArray(JNums(xs))
    ensures xs != [] ==> BenchmarkWrites(js, decode, show) == Ok(KeyedReturns(cats, xs, JNull, false, show))
    ensures xs == [] ==> BenchmarkWrites(js, decode, show) == Err(Error(ValueError, NoReturns))
  {
    ColumnDataOf(js, decode, m);
    var names := JArray(JStrs(cats));
    var main := SeriesStep(names, |series| > 1, show);
    forall k | 0 <= k < |series|
      ensures main(k, series[k]) == Ok([])
    {
    }
    CollectNothing(series, main);
    var values := JNums(xs);
    assert Items(series[0].fields["data"]) == Ok(values);
    assert FallbackWrites(JArray(series), names, show) == Collect(values, FallbackStep(names, show));
    forall i | 0 <= i < |values|
      ensures FallbackStep(names, show)(i, values[i]) == ValueStep(names, JNull, false, show)(i, values[i])
    {
      FallbackIsSingleSeriesWrite(names, JNull, show, i, values[i]);
    }
    CollectSameSteps(values, FallbackStep(names, show), ValueStep(names, JNull, false, show));
    NumbersUnderCategories(cats, xs, JNull, false, show);
  }
}
