/**
  The fixed regular expressions of the core, each as a matcher at one
  position plus the leftmost search `re.search` performs.

  - Array patterns: `KEY\[([\d.,\s]+)\]` for price data and
    `KEY\[(.*?)\]` (with `re.DOTALL`) for date categories, where KEY is
    `"data":`, `data:` or `"data":\s*` (and likewise with `categories`).
  - Block pattern: `IDENT\s*=\s*({.*?});` with `re.DOTALL`.

  Digits and whitespace are the ASCII digits and the `str.isspace` set.
 */
module Regex {
  import opened Base
  import opened Text

  /** The class `[\d.,\s]`. */
  predicate IsNumberChar(c: char)
  {
    IsDigit(c) || c == '.' || c == ',' || IsSpace(c)
  }

  predicate NotCloseBracket(c: char)
  {
    c != ']'
  }

  /** `text` holds `w` at position `i`. */
  predicate HasAt(text: string, i: nat, w: string)
  {
    i + |w| <= |text| && text[i..i + |w|] == w
  }

  /** The end of the longest run of `f`-characters starting at `j`. */
  function RunEnd(text: string, j: nat, f: char -> bool): (k: nat)
    requires j <= |text|
    ensures j <= k <= |text|
    ensures forall t :: j <= t < k ==> f(text[t])
    ensures k < |text| ==> !f(text[k])
    decreases |text| - j
  {
    if j < |text| && f(text[j]) then RunEnd(text, j + 1, f) else j
  }

  lemma RunEndUnique(text: string, j: nat, f: char -> bool, m: nat)
    requires j <= m <= |text|
    requires forall t :: j <= t < m ==> f(text[t])
    requires m < |text| ==> !f(text[m])
    ensures RunEnd(text, j, f) == m
  {
  }

  lemma RunEndOne(text: string, j: nat, f: char -> bool)
    requires j + 1 < |text| && f(text[j]) && !f(text[j + 1])
    ensures RunEnd(text, j, f) == j + 1
  {
  }

  // ---------------------------------------------------------------- array patterns

  /**
    `key` then `\[`, with `\s*` between when `spaced`; the group is
    `[\d.,\s]+` unless `lazy`, where it is `.*?`.
   */
  datatype ArrayPattern = ArrayPattern(key: string, spaced: bool, lazy: bool)

  const PricePatterns: seq<ArrayPattern> := [
    ArrayPattern("\"data\":", false, false),
    ArrayPattern("data:", false, false),
    ArrayPattern("\"data\":", true, false)
  ]

  const CategoryPatterns: seq<ArrayPattern> := [
    ArrayPattern("\"categories\":", false, true),
    ArrayPattern("categories:", false, true),
    ArrayPattern("\"categories\":", true, true)
  ]

  function BodyClass(p: ArrayPattern): char -> bool
  {
    if p.lazy then NotCloseBracket else IsNumberChar
  }

  /** The group the pattern captures when matched at `i`. */
  function ArrayAt(p: ArrayPattern, text: string, i: nat): Option<string>
  {
    if !HasAt(text, i, p.key) then None
    else
      var j := if p.spaced then RunEnd(text, i + |p.key|, IsSpace) else i + |p.key|;
      if !(j < |text| && text[j] == '[') then None
      else
        var k := RunEnd(text, j + 1, BodyClass(p));
        if k < |text| && text[k] == ']' && (p.lazy || k > j + 1) then Some(text[j + 1..k])
        else None
  }

  /** What the group may hold: the lazy group stops at the first `]`. */
  predicate BodyShaped(p: ArrayPattern, g: string)
  {
    (forall t :: 0 <= t < |g| ==> BodyClass(p)(g[t])) && (p.lazy || g != [])
  }

  predicate AllSpace(ws: string)
  {
    forall t :: 0 <= t < |ws| ==> IsSpace(ws[t])
  }

  /**
    The pattern matches at `i` with group `g` in the sense of the regex:
    some run of whitespace (none unless `spaced`) follows the key, then `[`,
    then a group of the body class, then `]`.
   */
  ghost predicate ArrayMatches(p: ArrayPattern, text: string, i: nat, g: string)
  {
    exists j: nat, k: nat :: ArrayMatchesAt(p, text, i, g, j, k)
  }

  ghost predicate ArrayMatchesAt(p: ArrayPattern, text: string, i: nat, g: string, j: nat, k: nat)
  {
    HasAt(text, i, p.key) && i + |p.key| <= j < k < |text| &&
    (p.spaced || j == i + |p.key|) &&
    (forall t :: i + |p.key| <= t < j ==> IsSpace(text[t])) &&
    text[j] == '[' && text[k] == ']' && g == text[j + 1..k] && BodyShaped(p, g)
  }

  /** The matcher finds exactly the regex's match at `i`. */
  lemma ArrayAtSpec(p: ArrayPattern, text: string, i: nat, g: string)
    ensures ArrayAt(p, text, i) == Some(g) <==> ArrayMatches(p, text, i, g)
  {
    if ArrayAt(p, text, i) == Some(g) {
      var j, k := ArrayBounds(p, text, i);
      assert ArrayMatchesAt(p, text, i, g, j, k) by {
        forall t | 0 <= t < |g|
          ensures BodyClass(p)(g[t])
        {
          assert g[t] == text[j + 1 + t];
        }
      }
    }
    if ArrayMatches(p, text, i, g) {
      var j: nat, k: nat :| ArrayMatchesAt(p, text, i, g, j, k);
      ArrayAtComplete(p, text, i, g, j, k);
    }
  }

  /** The positions of `[` and `]` in a successful match. */
  lemma ArrayBounds(p: ArrayPattern, text: string, i: nat) returns (j: nat, k: nat)
    requires ArrayAt(p, text, i).Some?
    ensures HasAt(text, i, p.key) && i + |p.key| <= j < k < |text|
    ensures p.spaced || j == i + |p.key|
    ensures forall t :: i + |p.key| <= t < j ==> IsSpace(text[t])
    ensures text[j] == '[' && text[k] == ']'
    ensures ArrayAt(p, text, i).value == text[j + 1..k]
    ensures forall t :: j + 1 <= t < k ==> BodyClass(p)(text[t])
    ensures p.lazy || k > j + 1
  {
    j := if p.spaced then RunEnd(text, i + |p.key|, IsSpace) else i + |p.key|;
    k := RunEnd(text, j + 1, BodyClass(p));
  }

  lemma ArrayAtComplete(p: ArrayPattern, text: string, i: nat, g: string, j: nat, k: nat)
    requires ArrayMatchesAt(p, text, i, g, j, k)
    ensures ArrayAt(p, text, i) == Some(g)
  {
    var a := i + |p.key|;
    if p.spaced {
      RunEndUnique(text, a, IsSpace, j);
    }
    assert forall t :: j + 1 <= t < k ==> BodyClass(p)(text[t]) by {
      forall t | j + 1 <= t < k
        ensures BodyClass(p)(text[t])
      {
        assert text[t] == g[t - j - 1];
      }
    }
    assert !BodyClass(p)(']');
    RunEndUnique(text, j + 1, BodyClass(p), k);
  }

  // ---------------------------------------------------------------- block pattern

  /** `}` immediately followed by `;` at position `t`. */
  predicate ClosesAt(text: string, t: int)
  {
    0 <= t && t + 1 < |text| && text[t] == '}' && text[t + 1] == ';'
  }

  /** The first `};` at or after `e`, or `|text|` if there is none. */
  function CloseFrom(text: string, e: nat): (r: nat)
    requires e <= |text|
    ensures e <= r <= |text|
    ensures r < |text| ==> ClosesAt(text, r)
    ensures forall t :: e <= t < r ==> !ClosesAt(text, t)
    decreases |text| - e
  {
    if e == |text| then e
    else if ClosesAt(text, e) then e
    else CloseFrom(text, e + 1)
  }

  /** The group of `IDENT\s*=\s*({.*?});` when matched at `i`. */
  function BlockAt(ident: string, text: string, i: nat): Option<string>
  {
    if !HasAt(text, i, ident) then None
    else
      var j := RunEnd(text, i + |ident|, IsSpace);
      if !(j < |text| && text[j] == '=') then None
      else
        var k := RunEnd(text, j + 1, IsSpace);
        if !(k < |text| && text[k] == '{') then None
        else
          var e := CloseFrom(text, k + 1);
          if e < |text| then Some(text[k..e + 1]) else None
  }

  /** A group of the block pattern: braces at both ends and no `};` before the last. */
  predicate BlockShaped(g: string)
  {
    |g| >= 2 && g[0] == '{' && g[|g| - 1] == '}' &&
    forall t :: 1 <= t < |g| - 1 ==> !(g[t] == '}' && g[t + 1] == ';')
  }

  lemma BlockAtShaped(ident: string, text: string, i: nat)
    requires BlockAt(ident, text, i).Some?
    ensures BlockShaped(BlockAt(ident, text, i).value)
  {
    var k, e := BlockBounds(ident, text, i);
    var g := text[k..e + 1];
    forall t | 1 <= t < |g| - 1
      ensures !(g[t] == '}' && g[t + 1] == ';')
    {
      assert g[t] == text[k + t] && g[t + 1] == text[k + t + 1];
      assert !ClosesAt(text, k + t);
    }
  }

  /** The positions of `{` and of the closing `}` in a successful block match. */
  lemma BlockBounds(ident: string, text: string, i: nat) returns (k: nat, e: nat)
    requires BlockAt(ident, text, i).Some?
    ensures k < e < |text| && text[k] == '{' && ClosesAt(text, e)
    ensures forall t :: k + 1 <= t < e ==> !ClosesAt(text, t)
    ensures BlockAt(ident, text, i).value == text[k..e + 1]
  {
    var j := RunEnd(text, i + |ident|, IsSpace);
    k := RunEnd(text, j + 1, IsSpace);
    e := CloseFrom(text, k + 1);
  }

  // ---------------------------------------------------------------- leftmost search

  datatype Pattern = Array(a: ArrayPattern) | Block(ident: string)

  function MatchAt(p: Pattern, text: string, i: nat): Option<string>
  {
    match p
    case Array(a) => ArrayAt(a, text, i)
    case Block(ident) => BlockAt(ident, text, i)
  }

  /** The first position in `i..n` where `m` yields a group, with that group. */
  function Leftmost(m: nat -> Option<string>, i: nat, n: nat): (r: Option<(nat, string)>)
    requires i <= n
    ensures r.Some? ==> i <= r.value.0 <= n && m(r.value.0) == Some(r.value.1)
    ensures r.Some? ==> forall t :: i <= t < r.value.0 ==> m(t).None?
    ensures r.None? ==> forall t :: i <= t <= n ==> m(t).None?
    decreases n - i
  {
    match m(i)
    case Some(g) => Some((i, g))
    case None => if i == n then None else Leftmost(m, i + 1, n)
  }

  /** `re.search(pattern, text)`: the leftmost match and its position. */
  function SearchAt(p: Pattern, text: string): Option<(nat, string)>
  {
    Leftmost((t: nat) => MatchAt(p, text, t), 0, |text|)
  }

  /** `re.search(pattern, text).group(1)`, or `None` when nothing matches. */
  function Search(p: Pattern, text: string): Option<string>
  {
    match SearchAt(p, text)
    case Some(r) => Some(r.1)
    case None => None
  }

  /** The leftmost-match rule, stated over every position of the text. */
  lemma SearchLeftmost(p: Pattern, text: string)
    ensures Search(p, text).Some? ==>
      exists i :: 0 <= i <= |text| && MatchAt(p, text, i) == Search(p, text) &&
        forall t :: 0 <= t < i ==> MatchAt(p, text, t).None?
    ensures Search(p, text).None? <==> forall t :: 0 <= t <= |text| ==> MatchAt(p, text, t).None?
  {
    var m := (t: nat) => MatchAt(p, text, t);
    assert forall t: nat :: m(t) == MatchAt(p, text, t);
    var r := Leftmost(m, 0, |text|);
    if r.Some? {
      var i := r.value.0;
      assert MatchAt(p, text, i) == Search(p, text);
      assert forall t :: 0 <= t < i ==> MatchAt(p, text, t).None?;
    } else {
      assert forall t :: 0 <= t <= |text| ==> MatchAt(p, text, t).None?;
    }
  }

  /** A match at `i` with none before it is what the search returns. */
  lemma SearchFindsFirst(p: Pattern, text: string, i: nat)
    requires i <= |text| && MatchAt(p, text, i).Some?
    requires forall t :: 0 <= t < i ==> MatchAt(p, text, t).None?
    ensures Search(p, text) == MatchAt(p, text, i)
  {
    var m := (t: nat) => MatchAt(p, text, t);
    var r := Leftmost(m, 0, |text|);
    assert m(i).Some?;
    assert r.Some? && r.value.0 == i;
  }

  /** The text `var IDENT = BLOCK;` the core builds around an extracted block. */
  function Wrap(ident: string, g: string): string
  {
    "var " + (ident + (" = " + (g + ";")))
  }

  lemma WrapLayout(ident: string, g: string)
    ensures |Wrap(ident, g)| == |ident| + |g| + 8
    ensures Wrap(ident, g)[..4] == "var "
    ensures Wrap(ident, g)[4..4 + |ident|] == ident
    ensures Wrap(ident, g)[4 + |ident|..7 + |ident|] == " = "
    ensures Wrap(ident, g)[7 + |ident|..7 + |ident| + |g|] == g
    ensures Wrap(ident, g)[7 + |ident| + |g|] == ';'
  {
    var w := Wrap(ident, g);
    var n := |ident|;
    assert w[4..] == ident + (" = " + (g + ";"));
    assert w[4 + n..] == " = " + (g + ";");
    assert w[7 + n..] == g + ";";
  }

  /** Nothing before position 4 of the wrapped text can start the identifier. */
  lemma WrapNoEarlyMatch(ident: string, g: string, t: nat)
    requires ident != [] && ident[0] !in "var "
    requires t < 4
    ensures BlockAt(ident, Wrap(ident, g), t).None?
  {
    var w := Wrap(ident, g);
    WrapLayout(ident, g);
    assert w[t] == w[..4][t];
    assert w[t] in "var ";
  }

  lemma WrapMatch(ident: string, g: string)
    requires BlockShaped(g)
    ensures BlockAt(ident, Wrap(ident, g), 4) == Some(g)
  {
    var w := Wrap(ident, g);
    var n := |ident|;
    WrapLayout(ident, g);
    WrapHeader(ident, g);
    WrapClose(ident, g);
  }

  lemma WrapHeader(ident: string, g: string)
    requires BlockShaped(g)
    ensures RunEnd(Wrap(ident, g), 4 + |ident|, IsSpace) == 5 + |ident|
    ensures Wrap(ident, g)[5 + |ident|] == '='
    ensures RunEnd(Wrap(ident, g), 6 + |ident|, IsSpace) == 7 + |ident|
    ensures Wrap(ident, g)[7 + |ident|] == '{'
  {
    WrapChars(ident, g);
    var w := Wrap(ident, g);
    var n := |ident|;
    assert !IsSpace('=') && !IsSpace('{') && IsSpace(' ');
    RunEndOne(w, 4 + n, IsSpace);
    RunEndOne(w, 6 + n, IsSpace);
  }

  lemma WrapChars(ident: string, g: string)
    requires BlockShaped(g)
    ensures |Wrap(ident, g)| == |ident| + |g| + 8
    ensures Wrap(ident, g)[4 + |ident|] == ' ' && Wrap(ident, g)[5 + |ident|] == '='
    ensures Wrap(ident, g)[6 + |ident|] == ' ' && Wrap(ident, g)[7 + |ident|] == '{'
  {
    var n := |ident|;
    var r := " = " + (g + ";");
    assert (ident + r)[n] == r[0] && (ident + r)[n + 1] == r[1];
    assert (ident + r)[n + 2] == r[2] && (ident + r)[n + 3] == r[3];
  }

  /** Inside the wrapped text, the block sits at offset `7 + |ident|`. */
  lemma WrapBody(ident: string, g: string)
    ensures |Wrap(ident, g)| == |ident| + |g| + 8
    ensures forall t :: 7 + |ident| <= t < 7 + |ident| + |g| ==> Wrap(ident, g)[t] == g[t - (7 + |ident|)]
    ensures Wrap(ident, g)[7 + |ident| + |g|] == ';'
  {
    var w := Wrap(ident, g);
    var k := 7 + |ident|;
    WrapLayout(ident, g);
    forall t | k <= t < k + |g|
      ensures w[t] == g[t - k]
    {
      assert w[t] == w[k..k + |g|][t - k];
    }
  }

  lemma WrapClose(ident: string, g: string)
    requires BlockShaped(g)
    ensures CloseFrom(Wrap(ident, g), 8 + |ident|) == 6 + |ident| + |g|
  {
    var w := Wrap(ident, g);
    var k := 7 + |ident|;
    var e := k + |g| - 1;
    WrapBody(ident, g);
    forall t | k + 1 <= t < e
      ensures !ClosesAt(w, t)
    {
      var j := t - k;
      assert w[t] == g[j] && w[t + 1] == g[j + 1];
      assert !(g[j] == '}' && g[j + 1] == ';');
    }
    assert w[e] == g[|g| - 1] == '}';
    assert ClosesAt(w, e);
    CloseFromFirst(w, k + 1, e);
  }

  lemma CloseFromFirst(text: string, e: nat, m: nat)
    requires e <= m < |text| && ClosesAt(text, m)
    requires forall t :: e <= t < m ==> !ClosesAt(text, t)
    ensures CloseFrom(text, e) == m
  {
  }

  /**
    Searching `var IDENT = BLOCK;` finds BLOCK again, for every text the
    block pattern can capture (and every identifier not starting with one
    of the characters of `var `).
   */
  lemma BlockRoundTrip(ident: string, g: string)
    requires ident != [] && ident[0] !in "var "
    requires BlockShaped(g)
    ensures Search(Block(ident), Wrap(ident, g)) == Some(g)
  {
    var w := Wrap(ident, g);
    WrapLayout(ident, g);
    forall t | 0 <= t < 4
      ensures MatchAt(Block(ident), w, t).None?
    {
      WrapNoEarlyMatch(ident, g, t);
    }
    WrapMatch(ident, g);
    SearchFindsFirst(Block(ident), w, 4);
  }

  /** Re-wrapping whatever the block pattern extracted lets the pattern find it again. */
  lemma ExtractRewrapRoundTrip(ident: string, text: string)
    requires ident != [] && ident[0] !in "var "
    requires Search(Block(ident), text).Some?
    ensures Search(Block(ident), Wrap(ident, Search(Block(ident), text).value)) == Search(Block(ident), text)
  {
    var r := SearchAt(Block(ident), text).value;
    BlockAtShaped(ident, text, r.0);
    BlockRoundTrip(ident, r.1);
  }

  /** Whatever the block pattern extracts runs from a `{` to a `}` and is never empty. */
  lemma SearchBlockShaped(ident: string, text: string)
    requires Search(Block(ident), text).Some?
    ensures BlockShaped(Search(Block(ident), text).value)
  {
    var r := SearchAt(Block(ident), text).value;
    BlockAtShaped(ident, text, r.0);
  }
}
