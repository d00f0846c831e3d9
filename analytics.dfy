/**
  Financial metrics over a fund's price series
  (`tefas_analyzer/core/analytics.py`): the validation ladder in front of
  every metric, the total-return formula, and the two aggregators that
  collect the metrics into a record.

  Logarithms, exponentials, square roots, fractional powers and the
  statistical reductions are not modelled: they are the fields of a
  `Numerics` value the metrics receive. What the model does keep is where
  a float result can be NaN or infinite, because the source tests for it.
 */
module Analytics {
  import opened Base
  import opened Seqs
  import opened Utils
  import opened Json
  import opened Frames
  import opened Text

  const TradingDaysPerYear: real := 252.0
  const MinDataPoints: nat := 30
  const DefaultRiskFreeRate: real := 0.15

  /** A `pd.Series` of prices: its rows, and whether its index is a `DatetimeIndex`. */
  datatype Series = Series(points: seq<Point>, datetimeIndex: bool)

  /** An IEEE double as far as the guards look at it: finite, NaN, or an infinity. */
  datatype Flt = Fin(x: real) | NotANumber | Inf(negative: bool)

  /**
    The float primitives the metrics call: `np.log`, `np.exp`, `np.sqrt`,
    `**`, `Series.mean`, `Series.std` (ddof 1), `np.cov(...)[0, 1]` and
    `np.var` (ddof 0).
   */
  datatype Numerics = Numerics(
    ln: real -> real,
    exp: real -> Flt,
    sqrt: real -> real,
    pow: (real, real) -> Flt,
    mean: seq<real> -> real,
    std: seq<real> -> Flt,
    cov: (seq<real>, seq<real>) -> Flt,
    variance: seq<real> -> Flt)

  /** `a * c` in floating point. */
  function Times(a: Flt, c: real): (r: Flt)
    ensures a.Fin? ==> r == Fin(a.x * c)
    ensures a.NotANumber? ==> r.NotANumber?
  {
    if a.Fin? then Fin(a.x * c)
    else if a.NotANumber? then NotANumber
    else if c > 0.0 then a
    else if c < 0.0 then Inf(!a.negative)
    else NotANumber
  }

  /** `a - c` in floating point. */
  function Minus(a: Flt, c: real): (r: Flt)
    ensures a.Fin? <==> r.Fin?
    ensures a.Fin? ==> r.x == a.x - c
  {
    match a
    case Fin(x) => Fin(x - c)
    case _ => a
  }

  /** `a / b` in floating point, including division by zero and by an infinity. */
  function Divide(a: Flt, b: Flt): (r: Flt)
    ensures a.Fin? && b.Fin? && b.x != 0.0 ==> r == Fin(a.x / b.x)
    ensures a.NotANumber? || b.NotANumber? ==> r.NotANumber?
  {
    match (a, b)
    case (NotANumber, _) => NotANumber
    case (_, NotANumber) => NotANumber
    case (Fin(x), Fin(y)) =>
      if y != 0.0 then Fin(x / y)
      else if x == 0.0 then NotANumber
      else Inf(x < 0.0)
    case (Fin(_), Inf(_)) => Fin(0.0)
    case (Inf(_), Inf(_)) => NotANumber
    case (Inf(neg), Fin(y)) => if y < 0.0 then Inf(!neg) else Inf(neg)
  }

  const TooFewPoints := "price_series must contain at least 2 data points"
  const TooFewForVolatility := "price_series must contain at least 30 data points for reliable volatility calculation"
  const TooFewForSharpe := "price_series must contain at least 30 data points for reliable Sharpe ratio calculation"
  const TooFewForBeta := "Both series must contain at least 30 data points for reliable beta calculation"
  const NeedsDatetimeIndex := "price_series must have a DatetimeIndex"
  const BothNeedDatetimeIndex := "Both series must have DatetimeIndex"
  const ContainsNaN := "price_series contains NaN values"
  const NonPositive := "price_series contains non-positive values"
  const SeriesContainNaN := "Series contain NaN values"
  const SeriesNonPositive := "Series contain non-positive values"
  const InvalidVolatility := "Cannot calculate volatility due to invalid returns"
  const EndNotAfterStart := "End date must be after start date"
  const InvalidCagr := "Cannot calculate CAGR due to invalid price data"
  const RateOutOfRange := "risk_free_rate should be between 0 and 1 (e.g., 0.15 for 15%)"
  const InvalidDateRange := "Invalid date range"
  const ZeroVolatility := "Cannot calculate Sharpe ratio: volatility is zero"
  const InvalidSharpeInputs := "Cannot calculate Sharpe ratio due to invalid returns or volatility"
  const InvalidSharpe := "Cannot calculate Sharpe ratio due to invalid calculations"
  /** The message of the overlap check, with the number of common dates. */
  function TooFewCommonDates(n: nat): string
  {
    "Insufficient overlapping data points: " + NatText(n) + " (minimum 30 required)"
  }
  const ZeroVariance := "Cannot calculate beta: benchmark has zero variance"
  const InvalidBetaInputs := "Cannot calculate beta due to invalid covariance or variance"
  const InvalidBeta := "Cannot calculate beta due to invalid calculations"

  predicate NoNaN(ps: seq<Point>)
  {
    forall p :: p in ps ==> p.price.Val?
  }

  predicate AllPositive(ps: seq<Point>)
  {
    forall p :: p in ps ==> Positive(p)
  }

  /**
    The two value checks every metric makes, in the source's order: a NaN
    is reported before a non-positive price (a NaN is not `<= 0`).
   */
  function ValueCheck(ps: seq<Point>, nanMsg: string, nonPositiveMsg: string): (e: Option<Error>)
    ensures e.None? <==> AllPositive(ps)
    ensures e.Some? ==> e.value.cls == ValueError
    ensures e.Some? && !NoNaN(ps) ==> e.value.msg == nanMsg
    ensures e.Some? && NoNaN(ps) ==> e.value.msg == nonPositiveMsg
  {
    if !NoNaN(ps) then Some(Error(ValueError, nanMsg))
    else if !AllPositive(ps) then Some(Error(ValueError, nonPositiveMsg))
    else None
  }

  /** Every row of a series has the same price as every other row with its date. */
  predicate OnePricePerDate(ps: seq<Point>)
  {
    forall p, q :: p in ps && q in ps && p.date == q.date ==> p == q
  }

  /**
    Two date-sorted orderings of the same rows coincide once no date carries
    two different prices: `sort_index` then fixes the whole series.
   */
  lemma {:induction false} SortedDetermined(a: seq<Point>, b: seq<Point>)
    requires SortedByDate(a) && SortedByDate(b)
    requires multiset(a) == multiset(b)
    requires OnePricePerDate(a)
    ensures a == b
    decreases |a|
  {
    if a == [] {
      assert |b| == |multiset(b)| == 0;
    } else {
      SameFirstRow(a, b);
      MultisetTail(a, b);
      OnePricePerDateTail(a);
      SortedTail(a);
      SortedTail(b);
      SortedDetermined(a[1..], b[1..]);
      ConsEqual(a, b);
    }
  }

  lemma ConsEqual(a: seq<Point>, b: seq<Point>)
    requires a != [] && b != [] && a[0] == b[0] && a[1..] == b[1..]
    ensures a == b
  {
    assert a == [a[0]] + a[1..];
    assert b == [b[0]] + b[1..];
  }

  /** The earliest row of two sortings of the same rows is the same row. */
  lemma SameFirstRow(a: seq<Point>, b: seq<Point>)
    requires SortedByDate(a) && SortedByDate(b)
    requires multiset(a) == multiset(b)
    requires OnePricePerDate(a)
    requires a != []
    ensures b != [] && a[0] == b[0]
  {
    assert |b| == |multiset(b)| == |multiset(a)| == |a|;
    assert a[0] in multiset(b);
    assert b[0] in multiset(a);
    var k :| 0 <= k < |b| && b[k] == a[0];
    var m :| 0 <= m < |a| && a[m] == b[0];
    assert b[0].date <= b[k].date;
    assert a[0].date <= a[m].date;
    assert a[0] in a && b[0] in a;
  }

  lemma SortedTail(a: seq<Point>)
    requires a != [] && SortedByDate(a)
    ensures SortedByDate(a[1..])
  {
    forall i, j | 0 <= i < j < |a| - 1
      ensures a[1..][i].date <= a[1..][j].date
    {
      assert a[1..][i] == a[i + 1] && a[1..][j] == a[j + 1];
    }
  }

  lemma OnePricePerDateTail(a: seq<Point>)
    requires a != [] && OnePricePerDate(a)
    ensures OnePricePerDate(a[1..])
  {
    forall p, q | p in a[1..] && q in a[1..] && p.date == q.date
      ensures p == q
    {
      assert p in a && q in a;
    }
  }

  /** A row's price as a float, 0 standing in for NaN. */
  function Amount(p: Point): real
  {
    if p.price.Val? then p.price.v else 0.0
  }

  /** The price column of the series sorted by date. */
  function SortedPrices(ps: seq<Point>): (xs: seq<real>)
    requires AllPositive(ps)
    ensures |xs| == |ps|
    ensures forall i :: 0 <= i < |xs| ==> xs[i] == Amount(SortByDate(ps)[i]) && xs[i] > 0.0
  {
    var s := SortByDate(ps);
    forall i | 0 <= i < |s|
      ensures Positive(s[i])
    {
      assert s[i] in multiset(s);
    }
    seq(|s|, i requires 0 <= i < |s| => Amount(s[i]))
  }

  /** The first and the last row once the series is sorted by date. */
  function Ends(ps: seq<Point>): (e: (Point, Point))
    requires ps != []
    ensures e.0 in ps && e.1 in ps
    ensures forall p :: p in ps ==> e.0.date <= p.date <= e.1.date
  {
    var s := SortByDate(ps);
    SortedEnds(ps, s);
    (s[0], s[|s| - 1])
  }

  lemma SortedEnds(ps: seq<Point>, s: seq<Point>)
    requires SortedByDate(s) && multiset(s) == multiset(ps) && s != []
    ensures s[0] in ps && s[|s| - 1] in ps
    ensures forall p :: p in ps ==> s[0].date <= p.date <= s[|s| - 1].date
  {
    assert s[0] in multiset(ps) && s[|s| - 1] in multiset(ps);
    forall p | p in ps
      ensures s[0].date <= p.date <= s[|s| - 1].date
    {
      assert p in multiset(s);
    }
  }

  /** `np.log(p / p.shift(1)).dropna()` over positive prices: one return per consecutive pair. */
  function LogReturns(xs: seq<real>, ln: real -> real): (rs: seq<real>)
    requires forall i :: 0 <= i < |xs| ==> xs[i] > 0.0
    ensures |rs| == if xs == [] then 0 else |xs| - 1
    ensures forall i :: 0 <= i < |rs| ==> rs[i] == ln(xs[i + 1] / xs[i])
  {
    if xs == [] then []
    else seq(|xs| - 1, i requires 0 <= i < |xs| - 1 => Ratio(xs, i, ln))
  }

  function Ratio(xs: seq<real>, i: nat, ln: real -> real): real
    requires i + 1 < |xs| && xs[i] > 0.0
  {
    ln(xs[i + 1] / xs[i])
  }

  /** The percentage change from `first` to `last`. */
  function Growth(first: real, last: real): real
    requires first > 0.0
  {
    (last - first) / first * 100.0
  }

  lemma GrowthBounds(first: real, last: real)
    requires first > 0.0 && last > 0.0
    ensures Growth(first, last) > -100.0
    ensures Growth(first, last) > 0.0 <==> last > first
    ensures Growth(first, last) == 0.0 <==> last == first
  {
    var g := (last - first) / first;
    assert g * first == last - first;
    assert (g + 1.0) * first == last;
    PositiveFactor(g + 1.0, first);
    if g > 0.0 {
      assert g * first > 0.0;
    }
    if last > first {
      assert g > 0.0;
    }
  }

  lemma PositiveFactor(a: real, b: real)
    requires b > 0.0 && a * b > 0.0
    ensures a > 0.0
  {
  }

  /** `calculate_total_return`. */
  function TotalReturn(s: Series): (r: Py<real>)
    ensures |s.points| < 2 ==> r == Err(Error(ValueError, TooFewPoints))
    ensures r.Ok? <==> |s.points| >= 2 && AllPositive(s.points)
    ensures r.Err? ==> r.error.cls == ValueError
    ensures r.Ok? ==> r.value > -100.0
    ensures r.Ok? ==> r.value == Growth(Ends(s.points).0.price.v, Ends(s.points).1.price.v)
  {
    var ps := s.points;
    if |ps| < 2 then Err(Error(ValueError, TooFewPoints))
    else
      match ValueCheck(ps, ContainsNaN, NonPositive)
      case Some(e) => Err(e)
      case None =>
        var (first, last) := Ends(ps);
        GrowthBounds(first.price.v, last.price.v);
        Ok(Growth(first.price.v, last.price.v))
  }

  /** On a series already in date order the total return compares the first row with the last. */
  lemma TotalReturnOfSorted(s: Series)
    requires |s.points| >= 2 && SortedByDate(s.points) && OnePricePerDate(s.points)
    requires forall i :: 0 <= i < |s.points| ==> Positive(s.points[i])
    ensures Positive(s.points[0]) && Positive(s.points[|s.points| - 1])
    ensures TotalReturn(s) == Ok(Growth(s.points[0].price.v, s.points[|s.points| - 1].price.v))
  {
    IndexedPositive(s.points);
    EndsOfSorted(s.points);
  }

  lemma IndexedPositive(ps: seq<Point>)
    requires forall i :: 0 <= i < |ps| ==> Positive(ps[i])
    ensures AllPositive(ps)
  {
    forall p | p in ps
      ensures Positive(p)
    {
      var i :| 0 <= i < |ps| && ps[i] == p;
    }
  }

  /** On a date-sorted series with one price per date, the ends are the first and the last row. */
  lemma EndsOfSorted(ps: seq<Point>)
    requires ps != [] && SortedByDate(ps) && OnePricePerDate(ps)
    ensures Ends(ps) == (ps[0], ps[|ps| - 1])
  {
    var sorted := SortByDate(ps);
    SortedDetermined(ps, sorted);
    assert sorted == ps;
  }

  /** The example of the source's documentation: 100, 110, 125 on three days is a 25% return. */
  lemma TotalReturnExample()
    ensures TotalReturn(Series([Point(0, Val(100.0)), Point(1, Val(110.0)), Point(2, Val(125.0))], true)) == Ok(25.0)
  {
    var ps := [Point(0, Val(100.0)), Point(1, Val(110.0)), Point(2, Val(125.0))];
    TotalReturnOfSorted(Series(ps, true));
    assert Growth(100.0, 125.0) == 25.0;
  }

  /** The log returns of the date-sorted prices. */
  function SortedReturns(ps: seq<Point>, ln: real -> real): (rs: seq<real>)
    requires AllPositive(ps)
    ensures |rs| == if ps == [] then 0 else |ps| - 1
  {
    LogReturns(SortedPrices(ps), ln)
  }

  /** `calculate_annualized_volatility`, in percent. */
  function Volatility(s: Series, num: Numerics): (r: Py<real>)
    ensures |s.points| < MinDataPoints ==> r == Err(Error(ValueError, TooFewForVolatility))
    ensures r.Err? ==> r.error.cls == ValueError
    ensures r.Ok? <==>
      |s.points| >= MinDataPoints && AllPositive(s.points) && num.std(SortedReturns(s.points, num.ln)).Fin?
    ensures r.Ok? ==> r.value == num.std(SortedReturns(s.points, num.ln)).x * num.sqrt(TradingDaysPerYear) * 100.0
  {
    var ps := s.points;
    if |ps| < MinDataPoints then Err(Error(ValueError, TooFewForVolatility))
    else
      match ValueCheck(ps, ContainsNaN, NonPositive)
      case Some(e) => Err(e)
      case None =>
        match num.std(SortedReturns(ps, num.ln))
        case Fin(daily) => Ok(daily * num.sqrt(TradingDaysPerYear) * 100.0)
        case _ => Err(Error(ValueError, InvalidVolatility))
  }

  /** `calculate_cagr`, in percent. */
  function Cagr(s: Series, num: Numerics): (r: Py<real>)
    ensures |s.points| < 2 ==> r == Err(Error(ValueError, TooFewPoints))
    ensures |s.points| >= 2 && !s.datetimeIndex ==> r == Err(Error(ValueError, NeedsDatetimeIndex))
    ensures r.Err? ==> r.error.cls == ValueError
    ensures r.Ok? ==> |s.points| >= 2 && s.datetimeIndex && AllPositive(s.points)
    ensures r.Ok? ==> Ends(s.points).1.date - Ends(s.points).0.date >= 1
  {
    var ps := s.points;
    if |ps| < 2 then Err(Error(ValueError, TooFewPoints))
    else if !s.datetimeIndex then Err(Error(ValueError, NeedsDatetimeIndex))
    else
      match ValueCheck(ps, ContainsNaN, NonPositive)
      case Some(e) => Err(e)
      case None =>
        var (first, last) := Ends(ps);
        var days := last.date - first.date;
        if days <= 0 then Err(Error(ValueError, EndNotAfterStart))
        else
          var years := days as real / 365.25;
          var cagr := Times(Minus(num.pow(last.price.v / first.price.v, 1.0 / years), 1.0), 100.0);
          if cagr.Fin? then Ok(cagr.x) else Err(Error(ValueError, InvalidCagr))
  }

  /** A series whose rows all fall on one day has no CAGR, whatever its prices. */
  lemma CagrNeedsTwoDays(s: Series, num: Numerics)
    requires |s.points| >= 2 && s.datetimeIndex && AllPositive(s.points)
    requires forall p :: p in s.points ==> p.date == s.points[0].date
    ensures Cagr(s, num) == Err(Error(ValueError, EndNotAfterStart))
  {
    assert s.points[0] in s.points;
  }

  /** `calculate_sharpe_ratio`. */
  function Sharpe(s: Series, rf: real, num: Numerics): (r: Py<real>)
    ensures |s.points| < MinDataPoints ==> r == Err(Error(ValueError, TooFewForSharpe))
    ensures r.Err? ==> r.error.cls == ValueError
    ensures r.Ok? ==> |s.points| >= MinDataPoints && s.datetimeIndex && AllPositive(s.points)
    ensures r.Ok? ==> 0.0 <= rf <= 1.0
    ensures |s.points| >= MinDataPoints && s.datetimeIndex && AllPositive(s.points) && !(0.0 <= rf <= 1.0) ==>
      r == Err(Error(ValueError, RateOutOfRange))
    ensures r.Ok? ==> Times(num.std(SortedReturns(s.points, num.ln)), num.sqrt(TradingDaysPerYear)) != Fin(0.0)
  {
    var ps := s.points;
    if |ps| < MinDataPoints then Err(Error(ValueError, TooFewForSharpe))
    else if !s.datetimeIndex then Err(Error(ValueError, NeedsDatetimeIndex))
    else
      match ValueCheck(ps, ContainsNaN, NonPositive)
      case Some(e) => Err(e)
      case None =>
        if rf < 0.0 || rf > 1.0 then Err(Error(ValueError, RateOutOfRange))
        else
          var logReturns := SortedReturns(ps, num.ln);
          var (first, last) := Ends(ps);
          if last.date - first.date <= 0 then Err(Error(ValueError, InvalidDateRange))
          else
            var annualReturn := Minus(num.exp(num.mean(logReturns) * TradingDaysPerYear), 1.0);
            var annualVolatility := Times(num.std(logReturns), num.sqrt(TradingDaysPerYear));
            if annualVolatility == Fin(0.0) then Err(Error(ValueError, ZeroVolatility))
            else if annualReturn.NotANumber? || annualVolatility.NotANumber? then
              Err(Error(ValueError, InvalidSharpeInputs))
            else
              var sharpe := Divide(Minus(annualReturn, rf), annualVolatility);
              if sharpe.Fin? then Ok(sharpe.x) else Err(Error(ValueError, InvalidSharpe))
  }

  function Zeros(n: nat): (z: seq<real>)
    ensures |z| == n && forall i :: 0 <= i < n ==> z[i] == 0.0
  {
    seq(n, _ => 0.0)
  }

  /**
    A constant series spanning at least a day has no Sharpe ratio: its log
    returns are all `ln 1 = 0`, their deviation is 0, and the zero
    volatility is an error rather than a ratio of 0 or infinity.
   */
  lemma SharpeOfConstantSeries(s: Series, rf: real, c: real, num: Numerics)
    requires num.ln(1.0) == 0.0
    requires forall n: nat :: n >= 2 ==> num.std(Zeros(n)) == Fin(0.0)
    requires |s.points| >= MinDataPoints && s.datetimeIndex && 0.0 <= rf <= 1.0 && c > 0.0
    requires forall p :: p in s.points ==> p.price == Val(c)
    requires exists p, q :: p in s.points && q in s.points && p.date < q.date
    ensures Sharpe(s, rf, num) == Err(Error(ValueError, ZeroVolatility))
  {
    var ps := s.points;
    assert AllPositive(ps);
    ConstantReturns(ps, c, num.ln);
    var p, q :| p in ps && q in ps && p.date < q.date;
    var e := Ends(ps);
    assert e.1.date - e.0.date > 0;
    assert Times(num.std(SortedReturns(ps, num.ln)), num.sqrt(TradingDaysPerYear)) == Fin(0.0);
  }

  /** Sorting a constant series leaves every price at the constant. */
  lemma SortedPricesConstant(ps: seq<Point>, c: real)
    requires AllPositive(ps)
    requires forall p :: p in ps ==> p.price == Val(c)
    ensures forall i :: 0 <= i < |SortedPrices(ps)| ==> SortedPrices(ps)[i] == c
  {
    var sorted := SortByDate(ps);
    forall i | 0 <= i < |sorted|
      ensures Amount(sorted[i]) == c
    {
      assert sorted[i] in multiset(ps);
    }
  }

  /** The log returns of a constant positive sequence are all `ln 1`. */
  lemma ConstantLogReturns(xs: seq<real>, c: real, ln: real -> real)
    requires ln(1.0) == 0.0 && c > 0.0
    requires forall i :: 0 <= i < |xs| ==> xs[i] == c
    ensures LogReturns(xs, ln) == Zeros(if xs == [] then 0 else |xs| - 1)
  {
    var rs := LogReturns(xs, ln);
    forall i | 0 <= i < |rs|
      ensures rs[i] == 0.0
    {
      assert xs[i + 1] == c && xs[i] == c;
      SelfRatio(c);
    }
  }

  lemma SelfRatio(c: real)
    requires c > 0.0
    ensures c / c == 1.0
  {
  }

  /** A constant series has nothing but zero log returns. */
  lemma ConstantReturns(ps: seq<Point>, c: real, ln: real -> real)
    requires ln(1.0) == 0.0 && c > 0.0
    requires forall p :: p in ps ==> p.price == Val(c)
    requires AllPositive(ps)
    ensures SortedReturns(ps, ln) == Zeros(if ps == [] then 0 else |ps| - 1)
  {
    SortedPricesConstant(ps, c);
    ConstantLogReturns(SortedPrices(ps), c, ln);
  }

  /** The rows of a sorted series whose dates are in `dates`: `.loc[common_dates]`. */
  function OnDates(dates: set<int>): Point -> bool
  {
    (p: Point) => p.date in dates
  }

  /** The dates both series have: `index.intersection`. */
  function CommonDates(a: seq<Point>, b: seq<Point>): (ds: set<int>)
    ensures forall d :: d in ds <==> d in DateSet(a) && d in DateSet(b)
  {
    DateSet(a) * DateSet(b)
  }

  /**
    The fund and benchmark log returns over the common dates, both cut to
    the trailing `min(len)` elements so they pair up day by day.
   */
  function AlignedReturns(fund: seq<Point>, bench: seq<Point>, ln: real -> real): (rs: (seq<real>, seq<real>))
    requires AllPositive(fund) && AllPositive(bench)
    ensures |rs.0| == |rs.1|
    ensures var common := CommonDates(fund, bench);
      var fr := ReturnsOn(fund, common, ln);
      var br := ReturnsOn(bench, common, ln);
      && |rs.0| == (if |fr| < |br| then |fr| else |br|)
      && rs.0 == fr[|fr| - |rs.0|..]
      && rs.1 == br[|br| - |rs.1|..]
  {
    var common := CommonDates(fund, bench);
    LastCommon(ReturnsOn(fund, common, ln), ReturnsOn(bench, common, ln))
  }

  /** Both sequences cut to the length of the shorter one, each keeping its last entries (`iloc[-n:]`). */
  function LastCommon<T>(a: seq<T>, b: seq<T>): (rs: (seq<T>, seq<T>))
    ensures |rs.0| == |rs.1| == (if |a| < |b| then |a| else |b|)
    ensures rs.0 == a[|a| - |rs.0|..] && rs.1 == b[|b| - |rs.1|..]
  {
    var n := if |a| < |b| then |a| else |b|;
    (a[|a| - n..], b[|b| - n..])
  }

  /** The log returns of a series restricted to some dates: `np.log(s.loc[dates] / ...shift(1)).dropna()`. */
  function ReturnsOn(ps: seq<Point>, dates: set<int>, ln: real -> real): (rs: seq<real>)
    requires AllPositive(ps)
    ensures var kept := Filter(SortByDate(ps), OnDates(dates));
      && (forall i :: 0 <= i < |kept| ==> Positive(kept[i]))
      && |rs| == (if kept == [] then 0 else |kept| - 1)
      && forall i :: 0 <= i < |rs| ==> rs[i] == ln(kept[i + 1].price.v / kept[i].price.v)
  {
    var kept := Filter(SortByDate(ps), OnDates(dates));
    KeptPositive(ps, dates);
    LogReturns(Prices(kept), ln)
  }

  lemma KeptPositive(ps: seq<Point>, dates: set<int>)
    requires AllPositive(ps)
    ensures AllPositive(Filter(SortByDate(ps), OnDates(dates)))
    ensures forall i :: 0 <= i < |Prices(Filter(SortByDate(ps), OnDates(dates)))| ==>
      Prices(Filter(SortByDate(ps), OnDates(dates)))[i] > 0.0
  {
    var sorted := SortByDate(ps);
    var kept := Filter(sorted, OnDates(dates));
    forall p | p in kept
      ensures Positive(p)
    {
      FilterKeeps(sorted, OnDates(dates), p);
      assert p in multiset(sorted);
    }
    assert forall i :: 0 <= i < |kept| ==> kept[i] in kept;
  }

  /** `calculate_beta`. */
  function Beta(fund: Series, bench: Series, num: Numerics): (r: Py<real>)
    ensures |fund.points| < MinDataPoints || |bench.points| < MinDataPoints ==>
      r == Err(Error(ValueError, TooFewForBeta))
    ensures r.Err? ==> r.error.cls == ValueError
    ensures r.Ok? ==> AllPositive(fund.points) && AllPositive(bench.points) && fund.datetimeIndex && bench.datetimeIndex
    ensures r.Ok? ==> |CommonDates(fund.points, bench.points)| >= MinDataPoints
    ensures r.Ok? ==>
      var rs := AlignedReturns(fund.points, bench.points, num.ln);
      num.variance(rs.1) != Fin(0.0) && !num.variance(rs.1).NotANumber? && num.cov(rs.0, rs.1).Fin?
  {
    if |fund.points| < MinDataPoints || |bench.points| < MinDataPoints then Err(Error(ValueError, TooFewForBeta))
    else if !fund.datetimeIndex || !bench.datetimeIndex then Err(Error(ValueError, BothNeedDatetimeIndex))
    else if !NoNaN(fund.points) || !NoNaN(bench.points) then Err(Error(ValueError, SeriesContainNaN))
    else if !AllPositive(fund.points) || !AllPositive(bench.points) then Err(Error(ValueError, SeriesNonPositive))
    else if |CommonDates(fund.points, bench.points)| < MinDataPoints then Err(Error(ValueError, TooFewCommonDates(|CommonDates(fund.points, bench.points)|)))
    else
      var (fr, br) := AlignedReturns(fund.points, bench.points, num.ln);
      var covariance := num.cov(fr, br);
      var variance := num.variance(br);
      if variance == Fin(0.0) then Err(Error(ValueError, ZeroVariance))
      else if covariance.NotANumber? || variance.NotANumber? then Err(Error(ValueError, InvalidBetaInputs))
      else
        var beta := Divide(covariance, variance);
        if beta.Fin? then Ok(beta.x) else Err(Error(ValueError, InvalidBeta))
  }

  /**
    None of the metrics depends on the order the rows arrive in, as long as
    no date carries two different prices: each sorts by date first.
   */
  lemma MetricsIgnoreRowOrder(a: Series, b: Series, rf: real, num: Numerics)
    requires multiset(a.points) == multiset(b.points) && a.datetimeIndex == b.datetimeIndex
    requires OnePricePerDate(a.points)
    ensures TotalReturn(a) == TotalReturn(b)
    ensures Volatility(a, num) == Volatility(b, num)
    ensures Cagr(a, num) == Cagr(b, num)
    ensures Sharpe(a, rf, num) == Sharpe(b, rf, num)
  {
    SameRows(a.points, b.points);
    SameSortedSameMetrics(a, b, rf, num);
  }

  lemma SameSortedSameMetrics(a: Series, b: Series, rf: real, num: Numerics)
    requires |a.points| == |b.points| && a.datetimeIndex == b.datetimeIndex
    requires NoNaN(a.points) == NoNaN(b.points) && AllPositive(a.points) == AllPositive(b.points)
    requires SortByDate(a.points) == SortByDate(b.points)
    ensures TotalReturn(a) == TotalReturn(b)
    ensures Volatility(a, num) == Volatility(b, num)
    ensures Cagr(a, num) == Cagr(b, num)
    ensures Sharpe(a, rf, num) == Sharpe(b, rf, num)
  {
    if AllPositive(a.points) {
      SameSortedSameReturns(a.points, b.points, num.ln);
    }
    SameReturnsSameVolatility(a, b, num);
    if |a.points| > 0 {
      assert Ends(a.points) == Ends(b.points);
      SameEndsSameTotalReturn(a, b);
      SameEndsSameCagr(a, b, num);
      SameEndsSameSharpe(a, b, rf, num);
    }
  }

  lemma SameSortedSameReturns(a: seq<Point>, b: seq<Point>, ln: real -> real)
    requires AllPositive(a) && AllPositive(b) && SortByDate(a) == SortByDate(b)
    ensures SortedReturns(a, ln) == SortedReturns(b, ln)
  {
    assert SortedPrices(a) == SortedPrices(b);
  }

  lemma SameReturnsSameVolatility(a: Series, b: Series, num: Numerics)
    requires |a.points| == |b.points|
    requires NoNaN(a.points) == NoNaN(b.points) && AllPositive(a.points) == AllPositive(b.points)
    requires AllPositive(a.points) ==> SortedReturns(a.points, num.ln) == SortedReturns(b.points, num.ln)
    ensures Volatility(a, num) == Volatility(b, num)
  {
    if |a.points| >= MinDataPoints {
      if !AllPositive(a.points) {
        assert ValueCheck(a.points, ContainsNaN, NonPositive) == ValueCheck(b.points, ContainsNaN, NonPositive);
      } else {
        var ra := SortedReturns(a.points, num.ln);
        var rb := SortedReturns(b.points, num.ln);
        assert ra == rb;
        assert num.std(ra) == num.std(rb);
        if !num.std(ra).Fin? {
          assert Volatility(a, num) == Err(Error(ValueError, InvalidVolatility));
        } else {
          assert Volatility(a, num).Ok? && Volatility(b, num).Ok?;
          assert Volatility(a, num).value == num.std(ra).x * num.sqrt(TradingDaysPerYear) * 100.0;
          assert Volatility(b, num).value == num.std(rb).x * num.sqrt(TradingDaysPerYear) * 100.0;
          assert num.std(ra).x == num.std(rb).x;
          assert Volatility(a, num).value == Volatility(b, num).value;
        }
      }
    }
  }

  lemma SameEndsSameTotalReturn(a: Series, b: Series)
    requires |a.points| == |b.points| > 0
    requires NoNaN(a.points) == NoNaN(b.points) && AllPositive(a.points) == AllPositive(b.points)
    requires Ends(a.points) == Ends(b.points)
    ensures TotalReturn(a) == TotalReturn(b)
  {
  }

  lemma SameEndsSameCagr(a: Series, b: Series, num: Numerics)
    requires |a.points| == |b.points| > 0 && a.datetimeIndex == b.datetimeIndex
    requires NoNaN(a.points) == NoNaN(b.points) && AllPositive(a.points) == AllPositive(b.points)
    requires Ends(a.points) == Ends(b.points)
    ensures Cagr(a, num) == Cagr(b, num)
  {
  }

  lemma SameEndsSameSharpe(a: Series, b: Series, rf: real, num: Numerics)
    requires |a.points| == |b.points| > 0 && a.datetimeIndex == b.datetimeIndex
    requires NoNaN(a.points) == NoNaN(b.points) && AllPositive(a.points) == AllPositive(b.points)
    requires Ends(a.points) == Ends(b.points)
    requires AllPositive(a.points) ==> SortedReturns(a.points, num.ln) == SortedReturns(b.points, num.ln)
    ensures Sharpe(a, rf, num) == Sharpe(b, rf, num)
  {
  }

  /** Two orderings of the same rows pass the same checks and sort to the same series. */
  lemma SameRows(a: seq<Point>, b: seq<Point>)
    requires multiset(a) == multiset(b) && OnePricePerDate(a)
    ensures |a| == |b|
    ensures NoNaN(a) == NoNaN(b) && AllPositive(a) == AllPositive(b)
    ensures SortByDate(a) == SortByDate(b)
  {
    assert |a| == |multiset(a)| == |b|;
    assert forall p :: p in a <==> p in multiset(b);
    var sa := SortByDate(a);
    forall p, q | p in sa && q in sa && p.date == q.date
      ensures p == q
    {
      assert p in multiset(a) && q in multiset(a);
    }
    SortedDetermined(sa, SortByDate(b));
  }

  /** The four metrics, in the order `calculate_financial_metrics` computes them. */
  datatype MetricKey = TotalReturnKey | VolatilityKey | CagrKey | SharpeRatioKey

  /** Position of a metric in that order. */
  function Position(k: MetricKey): nat
  {
    match k
    case TotalReturnKey => 0
    case VolatilityKey => 1
    case CagrKey => 2
    case SharpeRatioKey => 3
  }

  /** The key a metric has in the `calculate_financial_metrics` dict. */
  function MetricName(k: MetricKey): string
  {
    match k
    case TotalReturnKey => "total_return"
    case VolatilityKey => "volatility"
    case CagrKey => "cagr"
    case SharpeRatioKey => "sharpe_ratio"
  }

  /** A metric of a series, with the default risk-free rate for the Sharpe ratio. */
  function Metric(k: MetricKey, s: Series, num: Numerics): Py<real>
  {
    match k
    case TotalReturnKey => TotalReturn(s)
    case VolatilityKey => Volatility(s, num)
    case CagrKey => Cagr(s, num)
    case SharpeRatioKey => Sharpe(s, DefaultRiskFreeRate, num)
  }

  /**
    The record `get_fund_statistics` returns. Its keys are fixed, so it is a
    datatype with one field per key; a metric that raised holds `None`.
   */
  datatype FundStats = FundStats(
    fonKodu: string,
    ilkFiyat: Price,
    sonFiyat: Price,
    minFiyat: Price,
    maxFiyat: Price,
    ortalamaFiyat: Price,
    veriSayisi: nat,
    ilkTarih: int,
    sonTarih: int,
    toplamGetiri: Option<real>,
    volatilite: Option<real>,
    cagr: Option<real>,
    sharpeRatio: Option<real>)

  /** The field of the record that holds a metric. */
  function MetricOf(st: FundStats, k: MetricKey): Option<real>
  {
    match k
    case TotalReturnKey => st.toplamGetiri
    case VolatilityKey => st.volatilite
    case CagrKey => st.cagr
    case SharpeRatioKey => st.sharpeRatio
  }

  /** A metric's field: its value, or None when it raised. */
  function Outcome(m: Py<real>): Option<real>
  {
    if m.Ok? then Some(m.value) else None
  }

  /** The prices of a column that are numbers, in order: what `min`, `max` and `mean` look at. */
  function Numbers(ps: seq<Point>): (xs: seq<real>)
    ensures xs == [] <==> forall p :: p in ps ==> !p.price.Val?
  {
    if ps == [] then []
    else
      var init := Numbers(ps[..|ps| - 1]);
      assert forall p :: p in ps <==> p in ps[..|ps| - 1] || p == ps[|ps| - 1];
      if ps[|ps| - 1].price.Val? then init + [ps[|ps| - 1].price.v] else init
  }

  /** `min`, `max` and `mean` of a price column skip NaN and give NaN when nothing is left. */
  function MinPrice(ps: seq<Point>): Price
  {
    var xs := Numbers(ps);
    if xs == [] then NaN else Val(MinOf(xs))
  }

  function MaxPrice(ps: seq<Point>): Price
  {
    var xs := Numbers(ps);
    if xs == [] then NaN else Val(MaxOf(xs))
  }

  function MeanPrice(ps: seq<Point>): Price
  {
    var xs := Numbers(ps);
    if xs == [] then NaN else Val(Sum(xs) / |xs| as real)
  }

  const EmptySeries := "Price series is empty"
  const IndexNotDatetime := "Index must be datetime"

  /**
    The record `get_fund_statistics` returns: the descriptive fields always,
    then each metric, or None for a metric that raised.
   */
  function FundStatistics(code: string, s: Series, num: Numerics): (r: Py<FundStats>)
    ensures r.Ok? <==> s.points != [] && s.datetimeIndex
    ensures s.points == [] ==> r == Err(Error(ValueError, EmptySeries))
    ensures r.Err? ==> r.error.cls == ValueError
    ensures r.Ok? ==> r.value.fonKodu == code && r.value.veriSayisi == |s.points|
    ensures r.Ok? ==>
      && r.value.ilkFiyat == s.points[0].price
      && r.value.sonFiyat == s.points[|s.points| - 1].price
      && r.value.ilkTarih == s.points[0].date
      && r.value.sonTarih == s.points[|s.points| - 1].date
  {
    var ps := s.points;
    if ps == [] then Err(Error(ValueError, EmptySeries))
    else if !s.datetimeIndex then Err(Error(ValueError, IndexNotDatetime))
    else
      Ok(Descriptive(code, ps).(
        toplamGetiri := Outcome(TotalReturn(s)), volatilite := Outcome(Volatility(s, num)),
        cagr := Outcome(Cagr(s, num)), sharpeRatio := Outcome(Sharpe(s, DefaultRiskFreeRate, num))))
  }

  /** The record's descriptive fields, before any metric is filled in. */
  function Descriptive(code: string, ps: seq<Point>): FundStats
    requires ps != []
  {
    FundStats(
      code, ps[0].price, ps[|ps| - 1].price, MinPrice(ps), MaxPrice(ps), MeanPrice(ps),
      |ps|, ps[0].date, ps[|ps| - 1].date, None, None, None, None)
  }

  /** Each metric field of the record is that metric's value, or None when the metric raised. */
  lemma StatisticsMetrics(code: string, s: Series, num: Numerics)
    requires s.points != [] && s.datetimeIndex
    ensures forall k :: MetricOf(FundStatistics(code, s, num).value, k) == Outcome(Metric(k, s, num))
  {
  }

  /**
    The record's least, mean and greatest price are in order whenever one
    price is a number, and are all NaN when none is.
   */
  lemma StatisticsAnchorOrder(code: string, s: Series, num: Numerics)
    requires s.points != [] && s.datetimeIndex
    ensures var st := FundStatistics(code, s, num).value;
      ((exists p :: p in s.points && p.price.Val?) ==>
        && st.minFiyat.Val? && st.ortalamaFiyat.Val? && st.maxFiyat.Val?
        && st.minFiyat.v <= st.ortalamaFiyat.v <= st.maxFiyat.v) &&
      ((forall p :: p in s.points ==> !p.price.Val?) ==>
        st.minFiyat == NaN && st.ortalamaFiyat == NaN && st.maxFiyat == NaN)
  {
    var xs := Numbers(s.points);
    if xs != [] {
      MeanBetween(xs);
    }
  }

  /**
    `get_fund_statistics`, filling the record key by key; each metric runs
    in its own `try` and a `ValueError` sets only that metric's field to None.
   */
  method GetFundStatistics(code: string, s: Series, num: Numerics) returns (r: Py<FundStats>)
    ensures r == FundStatistics(code, s, num)
  {
    var ps := s.points;
    if ps == [] {
      return Err(Error(ValueError, EmptySeries));
    }
    if !s.datetimeIndex {
      return Err(Error(ValueError, IndexNotDatetime));
    }
    var stats := Descriptive(code, ps);
    var total := TotalReturn(s);
    if total.Ok? {
      stats := stats.(toplamGetiri := Some(total.value));
    }
    var volatility := Volatility(s, num);
    if volatility.Ok? {
      stats := stats.(volatilite := Some(volatility.value));
    }
    var cagr := Cagr(s, num);
    if cagr.Ok? {
      stats := stats.(cagr := Some(cagr.value));
    }
    var sharpe := Sharpe(s, DefaultRiskFreeRate, num);
    if sharpe.Ok? {
      stats := stats.(sharpeRatio := Some(sharpe.value));
    }
    assert stats == Descriptive(code, ps).(
      toplamGetiri := Outcome(total), volatilite := Outcome(volatility),
      cagr := Outcome(cagr), sharpeRatio := Outcome(sharpe));
    return Ok(stats);
  }

  /** A frame with a date index: its column names and its rows. */
  datatype PriceTable = PriceTable(columns: set<string>, rows: seq<Point>)

  /** `DataFrame.empty`: no rows or no columns. */
  predicate Empty(t: PriceTable)
  {
    t.rows == [] || t.columns == {}
  }

  const MissingPrice := "DataFrame must contain column: 'Price'"

  /** A metric is reported when it and every metric computed before it succeeded. */
  predicate Reached(k: MetricKey, s: Series, num: Numerics)
  {
    forall j: MetricKey :: Position(j) <= Position(k) ==> Metric(j, s, num).Ok?
  }

  /** The metric at `k` among four outcomes given in the order the source computes them. */
  function Pick(k: MetricKey, a: Py<real>, b: Py<real>, c: Py<real>, d: Py<real>): Py<real>
  {
    match k
    case TotalReturnKey => a
    case VolatilityKey => b
    case CagrKey => c
    case SharpeRatioKey => d
  }

  /** The outcomes written before the first failure among four, in order. */
  function UntilFailure(a: Py<real>, b: Py<real>, c: Py<real>, d: Py<real>): map<MetricKey, real>
  {
    if a.Err? then map[]
    else if b.Err? then map[TotalReturnKey := a.value]
    else if c.Err? then map[TotalReturnKey := a.value, VolatilityKey := b.value]
    else if d.Err? then map[TotalReturnKey := a.value, VolatilityKey := b.value, CagrKey := c.value]
    else map[TotalReturnKey := a.value, VolatilityKey := b.value, CagrKey := c.value, SharpeRatioKey := d.value]
  }

  /** A key is written exactly when it and every key before it succeed. */
  lemma UntilFailureReached(a: Py<real>, b: Py<real>, c: Py<real>, d: Py<real>)
    ensures forall k :: k in UntilFailure(a, b, c, d) <==>
      forall j :: Position(j) <= Position(k) ==> Pick(j, a, b, c, d).Ok?
    ensures forall k :: k in UntilFailure(a, b, c, d) ==> UntilFailure(a, b, c, d)[k] == Pick(k, a, b, c, d).value
  {
    var m := UntilFailure(a, b, c, d);
    forall k ensures k in m <==> forall j :: Position(j) <= Position(k) ==> Pick(j, a, b, c, d).Ok? {
      if k !in m {
        var j := if a.Err? then TotalReturnKey else if b.Err? then VolatilityKey
          else if c.Err? then CagrKey else SharpeRatioKey;
        assert Position(j) <= Position(k) && Pick(j, a, b, c, d).Err?;
      }
    }
  }

  /** The metrics computed before the first one that raises. */
  function MetricsUntilFailure(s: Series, num: Numerics): map<MetricKey, real>
  {
    UntilFailure(Metric(TotalReturnKey, s, num), Metric(VolatilityKey, s, num),
                 Metric(CagrKey, s, num), Metric(SharpeRatioKey, s, num))
  }

  /** The metrics reported are exactly those reached, each with its own value. */
  lemma MetricsUntilFailureReached(s: Series, num: Numerics)
    ensures forall k :: k in MetricsUntilFailure(s, num) <==> Reached(k, s, num)
    ensures forall k :: k in MetricsUntilFailure(s, num) ==> MetricsUntilFailure(s, num)[k] == Metric(k, s, num).value
  {
    var a, b, c, d := Metric(TotalReturnKey, s, num), Metric(VolatilityKey, s, num),
                      Metric(CagrKey, s, num), Metric(SharpeRatioKey, s, num);
    UntilFailureReached(a, b, c, d);
    forall j ensures Pick(j, a, b, c, d) == Metric(j, s, num) {
      match j
      case TotalReturnKey =>
      case VolatilityKey =>
      case CagrKey =>
      case SharpeRatioKey =>
    }
  }

  /** `calculate_financial_metrics`. */
  function FinancialMetrics(t: PriceTable, num: Numerics): (r: Py<map<MetricKey, real>>)
    ensures Empty(t) ==> r == Ok(map[])
    ensures r.Err? <==> !Empty(t) && "Price" !in t.columns
    ensures r.Err? ==> r.error == Error(ValueError, MissingPrice)
    ensures r.Ok? && !Empty(t) ==> forall k ::
      k in r.value <==> forall j :: Position(j) <= Position(k) ==> Metric(j, Series(t.rows, true), num).Ok?
    ensures r.Ok? ==> forall k :: k in r.value ==> r.value[k] == Metric(k, Series(t.rows, true), num).value
    ensures r.Ok? ==> forall j, k :: k in r.value && Position(j) <= Position(k) ==> j in r.value
  {
    if Empty(t) then Ok(map[])
    else if "Price" !in t.columns then Err(Error(ValueError, MissingPrice))
    else
      MetricsUntilFailureReached(Series(t.rows, true), num);
      Ok(MetricsUntilFailure(Series(t.rows, true), num))
  }

  /**
    `calculate_financial_metrics`, writing each metric as it is computed;
    the first `ValueError` ends the single `try` and the metrics so far are returned.
   */
  method CalculateFinancialMetrics(t: PriceTable, num: Numerics) returns (r: Py<map<MetricKey, real>>)
    ensures r == FinancialMetrics(t, num)
  {
    if Empty(t) {
      return Ok(map[]);
    }
    if "Price" !in t.columns {
      return Err(Error(ValueError, MissingPrice));
    }
    var s := Series(t.rows, true);
    var metrics: map<MetricKey, real> := map[];
    var total := TotalReturn(s);
    if total.Err? {
      return Ok(metrics);
    }
    metrics := metrics[TotalReturnKey := total.value];
    var volatility := Volatility(s, num);
    if volatility.Err? {
      return Ok(metrics);
    }
    metrics := metrics[VolatilityKey := volatility.value];
    var cagr := Cagr(s, num);
    if cagr.Err? {
      return Ok(metrics);
    }
    metrics := metrics[CagrKey := cagr.value];
    var sharpe := Sharpe(s, DefaultRiskFreeRate, num);
    if sharpe.Err? {
      return Ok(metrics);
    }
    metrics := metrics[SharpeRatioKey := sharpe.value];
    return Ok(metrics);
  }
}
