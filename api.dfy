/**
  The public entry points of `tefas_analyzer/api.py`: `download`, which
  validates the code, fetches the price frame and normalises it, and
  `get_statistics`, which checks its frame and delegates to the analytics.
 */
module Api {
  import opened Base
  import opened Seqs
  import opened Text
  import opened Utils
  import opened Json
  import opened Frames
  import Scraper
  import Analytics

  /** A fetched `Tarih` cell: a day number, or text that `pd.to_datetime` cannot read. */
  datatype Row = Row(tarih: Option<int>, fiyat: Price)

  /** The frame `get_tefas_data` hands to `download`: its column names and its rows. */
  datatype Fetched = Fetched(columns: set<string>, rows: seq<Row>)

  const NonEmptyCode := "Fund code must be a non-empty string"
  const NoData := "No data found for fund"
  const UnexpectedColumns := "Downloaded data has unexpected column structure"
  const UnreadableDate := "Unknown datetime string format"
  const DownloadFailed := "Failed to download data for "

  /** `pd.to_datetime(df['Tarih'])`: every date is read, or the whole column fails. */
  function ToDatetime(rows: seq<Row>): (r: Py<seq<Point>>)
    ensures r.Ok? <==> forall i :: 0 <= i < |rows| ==> rows[i].tarih.Some?
    ensures r.Err? ==> r.error.cls == ValueError
    ensures r.Ok? ==> |r.value| == |rows|
    ensures r.Ok? ==> forall i :: 0 <= i < |rows| ==> r.value[i] == Point(rows[i].tarih.value, rows[i].fiyat)
  {
    if rows == [] then Ok([])
    else
      var init := rows[..|rows| - 1];
      var last := rows[|rows| - 1];
      match ToDatetime(init)
      case Err(e) => Err(e)
      case Ok(ps) =>
        if last.tarih.None? then Err(Error(ValueError, UnreadableDate))
        else Ok(ps + [Point(last.tarih.value, last.fiyat)])
  }

  /** The row test of the `start`/`end` masks, both bounds inclusive and each optional. */
  predicate InWindow(date: int, start: Option<int>, end: Option<int>)
  {
    (start.None? || start.value <= date) && (end.None? || date <= end.value)
  }

  /** A row `download` keeps: its price is a number and its date lies in the window. */
  predicate Kept(p: Point, start: Option<int>, end: Option<int>)
  {
    p.price.Val? && InWindow(p.date, start, end)
  }

  predicate HasPrice(p: Point)
  {
    p.price.Val?
  }

  /** The mask `df['Tarih'] >= start_dt`. */
  function StartMask(start: int): Point -> bool
  {
    (p: Point) => start <= p.date
  }

  /** The mask `df['Tarih'] <= end_dt`. */
  function EndMask(end: int): Point -> bool
  {
    (p: Point) => p.date <= end
  }

  /** Rows with a price that the `start` mask, when given, keeps. */
  function LateMask(start: Option<int>): Point -> bool
  {
    (p: Point) => p.price.Val? && (start.None? || start.value <= p.date)
  }

  function KeptMask(start: Option<int>, end: Option<int>): Point -> bool
  {
    (p: Point) => Kept(p, start, end)
  }

  /** `dropna(subset=['Price'])`, `sort_values('Tarih')` and the `start` mask. */
  function Late(ps: seq<Point>, start: Option<int>): seq<Point>
  {
    var priced := SortByDate(Filter(ps, HasPrice));
    if start.Some? then Filter(priced, StartMask(start.value)) else priced
  }

  /** The rows `download` returns: `Late`, then the `end` mask. */
  function Normalised(ps: seq<Point>, start: Option<int>, end: Option<int>): seq<Point>
  {
    var late := Late(ps, start);
    if end.Some? then Filter(late, EndMask(end.value)) else late
  }

  /** The normalised rows are ascending by date. */
  lemma NormalisedSorted(ps: seq<Point>, start: Option<int>, end: Option<int>)
    ensures SortedByDate(Normalised(ps, start, end))
  {
    var priced := SortByDate(Filter(ps, HasPrice));
    assert SortedBy(priced, DateKey);
    var late := Late(ps, start);
    if start.Some? {
      FilterSorted(priced, StartMask(start.value), DateKey);
    }
    if end.Some? {
      FilterSorted(late, EndMask(end.value), DateKey);
    }
    assert SortedBy(Normalised(ps, start, end), DateKey);
  }

  /** One more mask over a permutation of a filtered sequence filters the original by both. */
  lemma MaskStep(a: seq<Point>, b: seq<Point>, f: Point -> bool, g: Point -> bool, h: Point -> bool)
    requires multiset(a) == multiset(Filter(b, f))
    requires forall x :: h(x) == (f(x) && g(x))
    ensures multiset(Filter(a, g)) == multiset(Filter(b, h))
  {
    FilterPermutation(a, Filter(b, f), g);
    FilterFilter(b, f, g, h);
  }

  /** Two masks that agree everywhere filter alike. */
  lemma SameMask(s: seq<Point>, f: Point -> bool, g: Point -> bool)
    requires forall x :: f(x) == g(x)
    ensures Filter(s, f) == Filter(s, g)
  {
    var all := (x: Point) => true;
    FilterFilter(s, all, f, g);
    FilterAll(s, all);
  }

  lemma LateRows(ps: seq<Point>, start: Option<int>)
    ensures multiset(Late(ps, start)) == multiset(Filter(ps, LateMask(start)))
  {
    var priced := SortByDate(Filter(ps, HasPrice));
    if start.Some? {
      MaskStep(priced, ps, HasPrice, StartMask(start.value), LateMask(start));
    } else {
      SameMask(ps, HasPrice, LateMask(start));
    }
  }

  /** The normalised rows are exactly the kept rows, each as often as it was fetched. */
  lemma NormalisedRows(ps: seq<Point>, start: Option<int>, end: Option<int>)
    ensures multiset(Normalised(ps, start, end)) == multiset(Filter(ps, KeptMask(start, end)))
  {
    LateRows(ps, start);
    if end.Some? {
      MaskStep(Late(ps, start), ps, LateMask(start), EndMask(end.value), KeptMask(start, end));
    } else {
      SameMask(ps, LateMask(start), KeptMask(start, end));
    }
  }

  /** A code `download` lets through to the fetch: a non-empty string whose cleaned form is valid. */
  predicate Accepted(code: Arg)
  {
    code.Str? && code.s != [] && ValidateFundCode(Str(CleanFundCode(code)))
  }

  /** A code is accepted exactly when it is a string whose cleaned form has 2 to 5 characters. */
  lemma AcceptedLength(code: Arg)
    ensures Accepted(code) <==> code.Str? && 2 <= |CleanFundCode(code)| <= 5
  {
    if code.Str? && code.s != [] {
      ValidateCleaned(code);
    }
  }

  /**
    The code is accepted, and the fetch returns a non-empty frame with
    `Tarih` and `Fiyat` columns whose dates can all be read.
   */
  predicate Downloadable(code: Arg, getData: string -> Py<Fetched>)
  {
    && Accepted(code)
    && getData(CleanFundCode(code)).Ok?
    && var df := getData(CleanFundCode(code)).value;
    && df.rows != [] && "Tarih" in df.columns && "Fiyat" in df.columns
    && forall i :: 0 <= i < |df.rows| ==> df.rows[i].tarih.Some?
  }

  /** The fetched rows with their dates read. */
  function FetchedPoints(code: Arg, getData: string -> Py<Fetched>): seq<Point>
    requires Downloadable(code, getData)
  {
    ToDatetime(getData(CleanFundCode(code)).value.rows).value
  }

  /** The fetch-and-normalise part of `download`, before its `except` clauses. */
  function DownloadSteps(code: Arg, getData: string -> Py<Fetched>, start: Option<int>, end: Option<int>)
    : (r: Py<seq<Point>>)
    ensures r.Ok? <==> Downloadable(code, getData)
    ensures r.Ok? ==> r.value == Normalised(FetchedPoints(code, getData), start, end)
    ensures !Accepted(code) ==> r.Err? && r.error.cls == ValueError
    ensures Accepted(code) && getData(CleanFundCode(code)).Err? ==> r == Err(getData(CleanFundCode(code)).error)
    ensures Accepted(code) && getData(CleanFundCode(code)).Ok? ==>
      var df := getData(CleanFundCode(code)).value;
      && (df.rows == [] || df.columns == {} ==> r == Err(Error(ScrapingError, NoData + ": " + CleanFundCode(code))))
      && (df.rows != [] && df.columns != {} && ("Tarih" !in df.columns || "Fiyat" !in df.columns) ==>
            r == Err(Error(ScrapingError, UnexpectedColumns)))
  {
    if code.NonStr? || code.s == [] then Err(Error(ValueError, NonEmptyCode))
    else
      var c := CleanFundCode(code);
      if !ValidateFundCode(Str(c)) then Err(Error(ValueError, "Invalid fund code format: " + c))
      else
        var df :- getData(c);
        if df.rows == [] || df.columns == {} then Err(Error(ScrapingError, NoData + ": " + c))
        else if "Tarih" !in df.columns || "Fiyat" !in df.columns then Err(Error(ScrapingError, UnexpectedColumns))
        else
          var ps :- ToDatetime(df.rows);
          Ok(Normalised(ps, start, end))
  }

  /**
    How the wrapped message of `download` names the code: the argument as
    given until it has been cleaned, the cleaned code afterwards.
   */
  function CodeShown(code: Arg): string
  {
    match code
    case NonStr(shown) => shown
    case Str(s) => if s == [] then s else CleanFundCode(code)
  }

  /** The message of an unexpected exception wrapped by `download`. */
  function Wrapped(code: Arg, e: Error): (w: Error)
    ensures w.cls == ScrapingError
    ensures w.msg == DownloadFailed + CodeShown(code) + ": " + e.msg
  {
    Error(ScrapingError, DownloadFailed + CodeShown(code) + ": " + e.msg)
  }

  /**
    `download`: the normalised price rows, or an error of the `TefasError`
    family; a `ScrapingError` or `TefasError` passes unchanged and any other
    exception is wrapped as `ScrapingError`.
   */
  function Download(code: Arg, getData: string -> Py<Fetched>, start: Option<int>, end: Option<int>)
    : (r: Py<seq<Point>>)
    ensures r.Err? ==> InTefasFamily(r.error.cls)
    ensures !Accepted(code) ==> r.Err? && r.error.cls == ScrapingError
    ensures Accepted(code) && getData(CleanFundCode(code)).Err? ==>
      var e := getData(CleanFundCode(code)).error;
      r == if InTefasFamily(e.cls) then Err(e) else Err(Wrapped(code, e))
    ensures (Accepted(code) && getData(CleanFundCode(code)).Ok? &&
             (getData(CleanFundCode(code)).value.rows == [] || "Tarih" !in getData(CleanFundCode(code)).value.columns ||
              "Fiyat" !in getData(CleanFundCode(code)).value.columns)) ==> r.Err? && r.error.cls == ScrapingError
    ensures r.Ok? <==> Downloadable(code, getData)
    ensures r.Ok? ==> SortedByDate(r.value) && forall p :: p in r.value ==> Kept(p, start, end)
    ensures r.Ok? ==> multiset(r.value) == multiset(Filter(FetchedPoints(code, getData), KeptMask(start, end)))
  {
    match DownloadSteps(code, getData, start, end)
    case Ok(rows) =>
      var ps := FetchedPoints(code, getData);
      NormalisedSorted(ps, start, end);
      NormalisedRows(ps, start, end);
      assert forall p :: p in rows ==> p in Filter(ps, KeptMask(start, end)) by {
        forall p | p in rows ensures p in Filter(ps, KeptMask(start, end)) {
          assert p in multiset(rows);
        }
      }
      Ok(rows)
    case Err(e) =>
      if InTefasFamily(e.cls) then Err(e) else Err(Wrapped(code, e))
  }

  /** The frame `get_tefas_data` builds from a page: the scraped rows under `Tarih` and `Fiyat`. */
  function Scraped(fetch: string -> Py<string>): string -> Py<Fetched>
  {
    c => match Scraper.GetTefasData(c, fetch)
      case Err(e) => Err(e)
      case Ok(ps) => Ok(FrameOf(ps))
  }

  /** A frame holding the given rows under `Tarih` and `Fiyat`. */
  function FrameOf(ps: seq<Point>): Fetched
  {
    Fetched({"Tarih", "Fiyat"}, seq(|ps|, i requires 0 <= i < |ps| => Row(Some(ps[i].date), ps[i].price)))
  }

  /** The frame built from scraped rows reads back as those rows. */
  lemma ScrapedFrame(fetch: string -> Py<string>, c: string)
    requires Scraper.GetTefasData(c, fetch).Ok?
    ensures var ps := Scraper.GetTefasData(c, fetch).value;
      && Scraped(fetch)(c).Ok?
      && var df := Scraped(fetch)(c).value;
      && df.rows != [] && "Tarih" in df.columns && "Fiyat" in df.columns
      && (forall i :: 0 <= i < |df.rows| ==> df.rows[i].tarih.Some?)
      && ToDatetime(df.rows) == Ok(ps)
  {
    var ps := Scraper.GetTefasData(c, fetch).value;
    assert Scraped(fetch)(c) == Ok(FrameOf(ps));
    FrameOfReadsBack(ps);
  }

  /** The frame of some rows has readable dates and reads back as those rows. */
  lemma FrameOfReadsBack(ps: seq<Point>)
    ensures var df := FrameOf(ps);
      && |df.rows| == |ps|
      && (forall i :: 0 <= i < |df.rows| ==> df.rows[i].tarih.Some?)
      && ToDatetime(df.rows) == Ok(ps)
  {
    var df := FrameOf(ps);
    var qs := ToDatetime(df.rows).value;
    assert qs == ps;
  }

  /**
    `download` over the scraper: for an accepted code it fails exactly when
    scraping fails, with the scraper's own `ScrapingError`.
   */
  lemma DownloadOfScrapedFails(code: Arg, fetch: string -> Py<string>, start: Option<int>, end: Option<int>)
    requires Accepted(code)
    ensures var scraped := Scraper.GetTefasData(CleanFundCode(code), fetch);
      scraped.Err? ==>
        && scraped.error.cls == ScrapingError
        && Download(code, Scraped(fetch), start, end) == Err(scraped.error)
  {
    ScrapeOfAcceptedCode(code, fetch);
    var scraped := Scraper.GetTefasData(CleanFundCode(code), fetch);
    if scraped.Err? {
      assert Scraped(fetch)(CleanFundCode(code)) == Err(scraped.error);
    }
  }

  /** An accepted code passes the scraper's own length check, so any scraping failure is a `ScrapingError`. */
  lemma ScrapeOfAcceptedCode(code: Arg, fetch: string -> Py<string>)
    requires Accepted(code)
    ensures Scraper.GetTefasData(CleanFundCode(code), fetch).Err? ==>
      Scraper.GetTefasData(CleanFundCode(code), fetch).error.cls == ScrapingError
  {
    var c := CleanFundCode(code);
    StripOfUpperAlnum(c);
    UpperOfUpperAlnum(c);
    assert Upper(Strip(c)) == c;
    AcceptedLength(code);
    assert 2 <= |Upper(Strip(c))| <= 5;
    var r := Scraper.GetTefasData(c, fetch);
    assert r.Err? ==> r.error.cls in {ValueError, ScrapingError} && r.error.cls != ValueError;
  }

  /**
    `download` over the scraper, when scraping succeeds: the scraped rows
    inside the window, ascending and all positive.
   */
  lemma DownloadOfScrapedSucceeds(code: Arg, fetch: string -> Py<string>, start: Option<int>, end: Option<int>)
    requires Accepted(code)
    requires Scraper.GetTefasData(CleanFundCode(code), fetch).Ok?
    ensures var scraped := Scraper.GetTefasData(CleanFundCode(code), fetch).value;
      var r := Download(code, Scraped(fetch), start, end);
      && r.Ok?
      && multiset(r.value) == multiset(Filter(scraped, KeptMask(start, end)))
      && forall p :: p in r.value ==> Positive(p)
  {
    var c := CleanFundCode(code);
    ScrapedFrame(fetch, c);
    var scraped := Scraper.GetTefasData(c, fetch).value;
    assert Downloadable(code, Scraped(fetch));
    assert FetchedPoints(code, Scraped(fetch)) == scraped;
    var r := Download(code, Scraped(fetch), start, end).value;
    forall p | p in r ensures Positive(p) {
      assert p in multiset(r);
      assert p in Filter(scraped, KeptMask(start, end));
    }
  }

  /** What `get_statistics` receives: something that is not a frame, or a frame with a date index. */
  datatype StatsInput = NotAFrame | Frame(columns: set<string>, rows: seq<Point>)

  /** The record `get_statistics` returns, and whether it carries `benchmark_comparison` (always None). */
  datatype Report = Report(stats: Analytics.FundStats, benchmarkComparison: bool)

  const StatisticsFailed := "Failed to calculate statistics: "

  /** `get_statistics`: every failure, its own checks' or the analytics', becomes `ValueError`. */
  function GetStatistics(input: StatsInput, code: string, benchmark: bool, num: Analytics.Numerics)
    : (r: Py<Report>)
    ensures r.Err? ==> r.error.cls == ValueError && StatisticsFailed <= r.error.msg
    ensures (input.Frame? && input.rows != [] && input.columns != {} && "Price" in input.columns &&
             Analytics.FundStatistics(code, Analytics.Series(input.rows, true), num).Err?) ==>
      r == Err(Error(ValueError, StatisticsFailed + Analytics.FundStatistics(code, Analytics.Series(input.rows, true), num).error.msg))
    ensures r.Ok? <==> input.Frame? && input.rows != [] && input.columns != {} && "Price" in input.columns
    ensures r.Ok? ==> r.value.benchmarkComparison == benchmark
    ensures r.Ok? ==> r.value.stats == Analytics.FundStatistics(code, Analytics.Series(input.rows, true), num).value
    ensures r.Ok? ==> r.value.stats.fonKodu == code && r.value.stats.veriSayisi == |input.rows|
    ensures r.Ok? ==> forall k ::
      Analytics.MetricOf(r.value.stats, k) == Analytics.Outcome(Analytics.Metric(k, Analytics.Series(input.rows, true), num))
  {
    if input.NotAFrame? then Err(Error(ValueError, StatisticsFailed + "price_df must be a pandas DataFrame"))
    else if input.rows == [] || input.columns == {} then Err(Error(ValueError, StatisticsFailed + "price_df cannot be empty"))
    else if "Price" !in input.columns then Err(Error(ValueError, StatisticsFailed + "price_df must contain column: 'Price'"))
    else
      match Analytics.FundStatistics(code, Analytics.Series(input.rows, true), num)
      case Err(e) => Err(Error(ValueError, StatisticsFailed + e.msg))
      case Ok(stats) =>
        Analytics.StatisticsMetrics(code, Analytics.Series(input.rows, true), num);
        Ok(Report(stats, benchmark))
  }

  /** Passing a benchmark frame changes nothing but the added `benchmark_comparison` key. */
  lemma BenchmarkOnlyAddsKey(input: StatsInput, code: string, num: Analytics.Numerics)
    ensures GetStatistics(input, code, true, num).Ok? == GetStatistics(input, code, false, num).Ok?
    ensures GetStatistics(input, code, true, num).Ok? ==>
      GetStatistics(input, code, true, num).value.stats == GetStatistics(input, code, false, num).value.stats
  {
  }

  /**
    Statistics of a non-empty downloaded frame always succeed, and as every
    downloaded price is a number, its least, mean and greatest price are
    numbers in that order.
   */
  lemma StatisticsOfDownload(rows: seq<Point>, start: Option<int>, end: Option<int>, code: string, benchmark: bool, num: Analytics.Numerics)
    requires rows != [] && forall p :: p in rows ==> Kept(p, start, end)
    ensures var r := GetStatistics(Frame({"Price"}, rows), code, benchmark, num);
      && r.Ok?
      && r.value.stats.minFiyat.Val? && r.value.stats.ortalamaFiyat.Val? && r.value.stats.maxFiyat.Val?
      && r.value.stats.minFiyat.v <= r.value.stats.ortalamaFiyat.v <= r.value.stats.maxFiyat.v
  {
    var s := Analytics.Series(rows, true);
    assert rows[0] in rows;
    Analytics.StatisticsAnchorOrder(code, s, num);
  }
}
