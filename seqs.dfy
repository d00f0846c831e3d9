/**
  Sequence helpers behind the pandas operations the model uses:
  boolean-mask filtering, sorting by a key, and building a dict from
  key/value assignments made in order.
 */
module Seqs {

  /** `s[mask]`: the elements satisfying `f`, in their original order. */
  function Filter<T>(s: seq<T>, f: T -> bool): (r: seq<T>)
    ensures |r| <= |s|
    ensures forall x :: x in r ==> x in s && f(x)
  {
    if s == [] then []
    else Filter(s[..|s| - 1], f) + (if f(s[|s| - 1]) then [s[|s| - 1]] else [])
  }

  /** Filtering keeps every qualifying occurrence and drops every other. */
  lemma {:induction false} FilterCount<T>(s: seq<T>, f: T -> bool, x: T)
    ensures multiset(Filter(s, f))[x] == if f(x) then multiset(s)[x] else 0
  {
    if s != [] {
      var init := s[..|s| - 1];
      FilterCount(init, f, x);
      assert s == init + [s[|s| - 1]];
    }
  }

  /** Every element that passes the test is kept. */
  lemma FilterKeeps<T>(s: seq<T>, f: T -> bool, x: T)
    requires x in s && f(x)
    ensures x in Filter(s, f)
  {
    FilterCount(s, f, x);
    assert x in multiset(s);
  }

  /** Filtering distributes over concatenation. */
  lemma {:induction false} FilterConcat<T>(a: seq<T>, b: seq<T>, f: T -> bool)
    ensures Filter(a + b, f) == Filter(a, f) + Filter(b, f)
  {
    if b != [] {
      var init := b[..|b| - 1];
      assert (a + b)[..|a + b| - 1] == a + init;
      FilterConcat(a, init, f);
    } else {
      assert a + b == a;
    }
  }

  /** Filtering keeps the sequence exactly when every element passes. */
  lemma {:induction false} FilterIdentity<T>(s: seq<T>, f: T -> bool)
    ensures Filter(s, f) == s <==> forall x :: x in s ==> f(x)
  {
    if forall x :: x in s ==> f(x) {
      FilterAll(s, f);
    }
  }

  lemma {:induction false} FilterAll<T>(s: seq<T>, f: T -> bool)
    requires forall x :: x in s ==> f(x)
    ensures Filter(s, f) == s
  {
    if s != [] {
      var init, last := s[..|s| - 1], s[|s| - 1];
      assert s == init + [last];
      FilterAll(init, f);
    }
  }

  lemma {:induction false} FilterPermutation<T>(a: seq<T>, b: seq<T>, f: T -> bool)
    requires multiset(a) == multiset(b)
    ensures multiset(Filter(a, f)) == multiset(Filter(b, f))
  {
    var fa, fb := multiset(Filter(a, f)), multiset(Filter(b, f));
    forall x
      ensures fa[x] == fb[x]
    {
      FilterCount(a, f, x);
      FilterCount(b, f, x);
    }
    MultisetExt(fa, fb);
  }

  lemma MultisetExt<T>(a: multiset<T>, b: multiset<T>)
    requires forall x :: a[x] == b[x]
    ensures a == b
  {
  }

  /** Two sequences with the same elements and the same head have the same elements after it. */
  lemma MultisetTail<T>(a: seq<T>, b: seq<T>)
    requires a != [] && b != [] && a[0] == b[0]
    requires multiset(a) == multiset(b)
    ensures multiset(a[1..]) == multiset(b[1..])
  {
    assert a == [a[0]] + a[1..];
    assert b == [b[0]] + b[1..];
    assert multiset(a) == multiset{a[0]} + multiset(a[1..]);
    assert multiset(b) == multiset{b[0]} + multiset(b[1..]);
    assert multiset(a[1..]) == multiset(a) - multiset{a[0]};
    assert multiset(b[1..]) == multiset(b) - multiset{b[0]};
  }

  /** Filtering with a stronger predicate after a weaker one. */
  lemma {:induction false} FilterFilter<T>(s: seq<T>, f: T -> bool, g: T -> bool, h: T -> bool)
    requires forall x :: h(x) == (f(x) && g(x))
    ensures Filter(Filter(s, f), g) == Filter(s, h)
  {
    if s != [] {
      var init := s[..|s| - 1];
      var last := s[|s| - 1];
      FilterFilter(init, f, g, h);
      var fi := Filter(init, f);
      if f(last) {
        assert Filter(s, f) == fi + [last];
        assert (fi + [last])[..|fi|] == fi;
      } else {
        assert Filter(s, f) == fi;
      }
    }
  }

  /** In a sequence holding every value at most once, different positions hold different values. */
  lemma CountOneDistinct<T>(s: seq<T>, i: int, j: int)
    requires forall x :: multiset(s)[x] <= 1
    requires 0 <= i < j < |s|
    ensures s[i] != s[j]
  {
    assert s == s[..j] + s[j..];
    assert s[..j][i] == s[i];
    assert s[i] in multiset(s[..j]);
    assert s[j..][0] == s[j];
    assert s[j] in multiset(s[j..]);
    assert multiset(s) == multiset(s[..j]) + multiset(s[j..]);
    assert multiset(s)[s[i]] <= 1;
    assert multiset(s)[s[i]] == multiset(s[..j])[s[i]] + multiset(s[j..])[s[i]];
  }

  ghost predicate SortedBy<T>(s: seq<T>, key: T -> real)
  {
    forall i, j :: 0 <= i < j < |s| ==> key(s[i]) <= key(s[j])
  }

  /** Every element of a filtered sequence comes from the original, so order is kept. */
  lemma {:induction false} FilterSorted<T>(s: seq<T>, f: T -> bool, key: T -> real)
    requires SortedBy(s, key)
    ensures SortedBy(Filter(s, f), key)
  {
    if s != [] {
      var init := s[..|s| - 1];
      var last := s[|s| - 1];
      FilterSorted(init, f, key);
      forall x | x in Filter(init, f)
        ensures key(x) <= key(last)
      {
        var i :| 0 <= i < |init| && init[i] == x;
      }
    }
  }

  lemma ConsSorted<T>(h: T, t: seq<T>, key: T -> real)
    requires SortedBy(t, key)
    requires forall y :: y in t ==> key(h) <= key(y)
    ensures SortedBy([h] + t, key)
  {
    forall i, j | 0 <= i < j < |t| + 1
      ensures key(([h] + t)[i]) <= key(([h] + t)[j])
    {
      assert ([h] + t)[j] == t[j - 1];
      if i > 0 {
        assert ([h] + t)[i] == t[i - 1];
      }
    }
  }

  function Insert<T>(x: T, s: seq<T>, key: T -> real): (r: seq<T>)
    requires SortedBy(s, key)
    ensures SortedBy(r, key)
    ensures multiset(r) == multiset(s) + multiset{x}
  {
    if s == [] then [x]
    else if key(x) <= key(s[0]) then
      ConsSorted(x, s, key);
      [x] + s
    else
      var rest := Insert(x, s[1..], key);
      assert s == [s[0]] + s[1..];
      InsertBound(x, s, rest, key);
      ConsSorted(s[0], rest, key);
      [s[0]] + rest
  }

  lemma InsertBound<T>(x: T, s: seq<T>, rest: seq<T>, key: T -> real)
    requires s != [] && SortedBy(s, key) && key(s[0]) < key(x)
    requires multiset(rest) == multiset(s[1..]) + multiset{x}
    ensures forall y :: y in rest ==> key(s[0]) <= key(y)
  {
    forall y | y in rest
      ensures key(s[0]) <= key(y)
    {
      assert y in multiset(rest);
      if y != x {
        assert y in multiset(s[1..]);
        var j :| 0 <= j < |s[1..]| && s[1..][j] == y;
        assert s[j + 1] == y;
      }
    }
  }

  /** `sort_values` on one key: a sorted rearrangement of the input. */
  function SortBy<T>(s: seq<T>, key: T -> real): (r: seq<T>)
    ensures SortedBy(r, key)
    ensures multiset(r) == multiset(s)
    ensures |r| == |s|
  {
    if s == [] then []
    else
      assert s == [s[0]] + s[1..];
      var r := Insert(s[0], SortBy(s[1..], key), key);
      assert |r| == |multiset(r)|;
      r
  }

  /** The dict produced by executing `d[k] = v` for each pair, in order. */
  function PairsToMap<K, V>(ps: seq<(K, V)>): (m: map<K, V>)
    ensures m.Keys == set i | 0 <= i < |ps| :: ps[i].0
  {
    if ps == [] then map[]
    else
      var init := ps[..|ps| - 1];
      var rest := PairsToMap(init);
      assert (set i | 0 <= i < |ps| :: ps[i].0) == (set i | 0 <= i < |init| :: init[i].0) + {ps[|ps| - 1].0};
      rest[ps[|ps| - 1].0 := ps[|ps| - 1].1]
  }

  /** The dict is empty exactly when no assignment was made. */
  lemma PairsToMapEmpty<K, V>(ps: seq<(K, V)>)
    ensures PairsToMap(ps) == map[] <==> ps == []
  {
    if ps != [] {
      assert ps[0].0 in PairsToMap(ps);
    }
  }

  /** A later assignment to the same key overwrites an earlier one. */
  lemma {:induction false} PairsToMapLastWins<K, V>(ps: seq<(K, V)>, i: int)
    requires 0 <= i < |ps|
    requires forall j :: i < j < |ps| ==> ps[j].0 != ps[i].0
    ensures ps[i].0 in PairsToMap(ps) && PairsToMap(ps)[ps[i].0] == ps[i].1
  {
    if i < |ps| - 1 {
      var init := ps[..|ps| - 1];
      PairsToMapLastWins(init, i);
    }
  }

  /** Three assignments to distinct keys give the dict of all three. */
  lemma PairsToMapOfThree<K, V>(k0: K, v0: V, k1: K, v1: V, k2: K, v2: V)
    requires k0 != k1 && k0 != k2 && k1 != k2
    ensures PairsToMap([(k0, v0), (k1, v1), (k2, v2)]) == map[k0 := v0, k1 := v1, k2 := v2]
  {
    var one, two := [(k0, v0)], [(k0, v0), (k1, v1)];
    assert PairsToMap(one) == map[k0 := v0] by {
      assert one[..0] == [];
    }
    assert PairsToMap(two) == map[k0 := v0, k1 := v1] by {
      assert two[..1] == one;
    }
    assert [(k0, v0), (k1, v1), (k2, v2)][..2] == two;
  }

  function Sum(xs: seq<real>): real
  {
    if xs == [] then 0.0 else Sum(xs[..|xs| - 1]) + xs[|xs| - 1]
  }

  function Values<K, V>(ps: seq<(K, V)>): (vs: seq<V>)
    ensures |vs| == |ps|
    ensures forall i :: 0 <= i < |ps| ==> vs[i] == ps[i].1
  {
    seq(|ps|, i requires 0 <= i < |ps| => ps[i].1)
  }

  function Identity(x: real): real
  {
    x
  }

  /** `Series.median()` of a non-empty column: lies between its least and greatest value. */
  function Median(xs: seq<real>): (m: real)
    requires xs != []
    ensures exists i :: 0 <= i < |xs| && xs[i] <= m
    ensures exists j :: 0 <= j < |xs| && m <= xs[j]
  {
    var s := SortBy(xs, Identity);
    var h := |s| / 2;
    assert s[h] in multiset(xs);
    if |s| % 2 == 1 then
      s[h]
    else
      assert s[h - 1] in multiset(xs);
      assert Identity(s[h - 1]) <= Identity(s[h]);
      (s[h - 1] + s[h]) / 2.0
  }

  /** `min` of a non-empty column. */
  function MinOf(xs: seq<real>): (m: real)
    requires xs != []
    ensures forall i :: 0 <= i < |xs| ==> m <= xs[i]
    ensures m in xs
  {
    if |xs| == 1 then xs[0]
    else
      var m := MinOf(xs[..|xs| - 1]);
      assert forall i :: 0 <= i < |xs| - 1 ==> xs[..|xs| - 1][i] == xs[i];
      if xs[|xs| - 1] < m then xs[|xs| - 1] else m
  }

  /** `max` of a non-empty column. */
  function MaxOf(xs: seq<real>): (m: real)
    requires xs != []
    ensures forall i :: 0 <= i < |xs| ==> xs[i] <= m
    ensures m in xs
  {
    if |xs| == 1 then xs[0]
    else
      var m := MaxOf(xs[..|xs| - 1]);
      assert forall i :: 0 <= i < |xs| - 1 ==> xs[..|xs| - 1][i] == xs[i];
      if xs[|xs| - 1] > m then xs[|xs| - 1] else m
  }

  lemma ScaleMonotone(n: real, a: real, b: real)
    requires n >= 0.0 && a <= b
    ensures n * a <= n * b
  {
    assert n * b - n * a == n * (b - a);
  }

  /** A column whose values are all at least `lo` sums to at least its count times `lo`. */
  lemma {:induction false} SumAtLeast(xs: seq<real>, lo: real)
    requires forall i :: 0 <= i < |xs| ==> lo <= xs[i]
    ensures |xs| as real * lo <= Sum(xs)
  {
    if xs != [] {
      var init := xs[..|xs| - 1];
      SumAtLeast(init, lo);
      assert |xs| as real * lo == |init| as real * lo + lo;
    }
  }

  lemma {:induction false} SumAtMost(xs: seq<real>, hi: real)
    requires forall i :: 0 <= i < |xs| ==> xs[i] <= hi
    ensures Sum(xs) <= |xs| as real * hi
  {
    if xs != [] {
      var init := xs[..|xs| - 1];
      SumAtMost(init, hi);
      assert |xs| as real * hi == |init| as real * hi + hi;
    }
  }

  lemma QuotientBetween(sum: real, n: real, lo: real, hi: real)
    requires n > 0.0 && n * lo <= sum <= n * hi
    ensures lo <= sum / n <= hi
  {
    var mean := sum / n;
    assert mean * n == sum;
    if mean < lo {
      ScaleMonotone(n, mean, lo);
    }
    if hi < mean {
      ScaleMonotone(n, hi, mean);
    }
  }

  /** The mean of a non-empty column lies between any lower and upper bounds of its values. */
  lemma MeanWithin(xs: seq<real>, lo: real, hi: real)
    requires xs != []
    requires forall i :: 0 <= i < |xs| ==> lo <= xs[i] <= hi
    ensures lo <= Sum(xs) / |xs| as real <= hi
  {
    var n, sum := |xs| as real, Sum(xs);
    assert n >= 1.0;
    SumAtLeast(xs, lo);
    SumAtMost(xs, hi);
    assert n * lo <= sum;
    assert sum <= n * hi;
    QuotientBetween(sum, n, lo, hi);
  }

  /** `mean` of a non-empty column lies between its `min` and its `max`. */
  lemma MeanBetween(xs: seq<real>)
    requires xs != []
    ensures MinOf(xs) <= Sum(xs) / |xs| as real <= MaxOf(xs)
  {
    MeanWithin(xs, MinOf(xs), MaxOf(xs));
  }
}
