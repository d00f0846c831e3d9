/**
  Price series as the core keeps them in `Tarih`/`Fiyat` frames: one row per
  day, the date as a day number and the price as a real or NaN.
 */
module Frames {
  import opened Seqs

  datatype Price = Val(v: real) | NaN

  datatype Point = Point(date: int, price: Price)

  /** The row test `Fiyat > 0` (false for NaN). */
  predicate Positive(p: Point)
  {
    p.price.Val? && p.price.v > 0.0
  }

  function DateKey(p: Point): real
  {
    p.date as real
  }

  predicate SortedByDate(ps: seq<Point>)
  {
    forall i, j :: 0 <= i < j < |ps| ==> ps[i].date <= ps[j].date
  }

  predicate StrictlyIncreasingDates(ps: seq<Point>)
  {
    forall i, j :: 0 <= i < j < |ps| ==> ps[i].date < ps[j].date
  }

  function DateSet(ps: seq<Point>): set<int>
  {
    set i | 0 <= i < |ps| :: ps[i].date
  }

  lemma DateSetAppend(ps: seq<Point>, p: Point)
    ensures DateSet(ps + [p]) == DateSet(ps) + {p.date}
  {
    var q := ps + [p];
    forall x | x in DateSet(q)
      ensures x in DateSet(ps) + {p.date}
    {
      var i :| 0 <= i < |q| && q[i].date == x;
      if i < |ps| {
        assert ps[i] == q[i];
      }
    }
    forall x | x in DateSet(ps)
      ensures x in DateSet(q)
    {
      var i :| 0 <= i < |ps| && ps[i].date == x;
      assert q[i] == ps[i];
    }
    assert q[|ps|] == p;
  }

  /** `sort_values('Tarih')`: ascending by date, same rows. */
  function SortByDate(ps: seq<Point>): (r: seq<Point>)
    ensures SortedByDate(r)
    ensures multiset(r) == multiset(ps) && |r| == |ps|
  {
    var r := SortBy(ps, DateKey);
    assert forall i, j :: 0 <= i < j < |r| ==> DateKey(r[i]) <= DateKey(r[j]);
    r
  }

  /** The prices of rows that all carry a number. */
  function Prices(ps: seq<Point>): (xs: seq<real>)
    requires forall p :: p in ps ==> p.price.Val?
    ensures |xs| == |ps| && forall i :: 0 <= i < |ps| ==> xs[i] == ps[i].price.v
  {
    seq(|ps|, i requires 0 <= i < |ps| => assert ps[i] in ps; ps[i].price.v)
  }
}
