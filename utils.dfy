/**
  Fund-code normalisation and the package's exception hierarchy
  (`tefas_analyzer/utils.py`).
 */
module Utils {
  import opened Seqs
  import opened Text

  /**
    The exception classes the core raises or meets. `ScrapingError` is declared three
    times in the source; the last declaration is the one in force, and all
    three have `TefasError` as their base.
   */
  datatype ExcClass =
    | ValueError
    | TypeError
    | KeyError
    | IndexError
    | AttributeError
    | JsonDecodeError
    | TefasError
    | ScrapingError
    | DataParsingError
    | ValidationError

  /** `issubclass(c, d)` over the classes above. */
  predicate IsSubclass(c: ExcClass, d: ExcClass)
  {
    c == d
    || (d == TefasError && c in {ScrapingError, DataParsingError, ValidationError})
    || (d == ValueError && c == JsonDecodeError)
  }

  /** An `except (ScrapingError, TefasError)` clause catches exactly these. */
  predicate InTefasFamily(c: ExcClass)
  {
    IsSubclass(c, ScrapingError) || IsSubclass(c, TefasError)
  }

  /** A raised exception: its class and its message. */
  datatype Error = Error(cls: ExcClass, msg: string)

  /** A Python argument that may or may not be a `str`; for another value, `shown` is its `str()`. */
  datatype Arg = Str(s: string) | NonStr(shown: string)

  lemma ScrapingErrorIsTefasError()
    ensures IsSubclass(ScrapingError, TefasError)
    ensures !IsSubclass(TefasError, ScrapingError)
    ensures forall c :: InTefasFamily(c) <==> IsSubclass(c, TefasError)
  {
  }

  /** `validate_fund_code`. */
  function ValidateFundCode(a: Arg): bool
  {
    match a
    case NonStr(_) => false
    case Str(s) =>
      var cleaned := Upper(Strip(s));
      s != [] && 2 <= |cleaned| <= 5 && forall c :: c in cleaned ==> IsUpperAlnum(c)
  }

  /** `clean_fund_code`. */
  function CleanFundCode(a: Arg): (r: string)
    ensures forall c :: c in r ==> IsUpperAlnum(c)
    ensures a.NonStr? || a.s == [] ==> r == []
  {
    match a
    case NonStr(_) => ""
    case Str(s) => if s == [] then "" else Filter(Upper(Strip(s)), IsUpperAlnum)
  }

  /** Cleaning a cleaned code changes nothing. */
  lemma CleanIdempotent(a: Arg)
    ensures CleanFundCode(Str(CleanFundCode(a))) == CleanFundCode(a)
  {
    var r := CleanFundCode(a);
    if r != [] {
      StripOfUpperAlnum(r);
      UpperOfUpperAlnum(r);
      FilterAll(r, IsUpperAlnum);
    }
  }

  /**
    A code is valid exactly when it is a non-empty string, cleaning removes
    nothing beyond stripping and upper-casing, and the result has 2 to 5
    characters.
   */
  lemma ValidIffCleanKeepsAll(a: Arg)
    ensures ValidateFundCode(a) <==>
      a.Str? && a.s != [] && CleanFundCode(a) == Upper(Strip(a.s)) && 2 <= |CleanFundCode(a)| <= 5
  {
    if a.Str? && a.s != [] {
      FilterIdentity(Upper(Strip(a.s)), IsUpperAlnum);
    }
  }

  /** A cleaned code passes validation exactly when its length is 2 to 5. */
  lemma ValidateCleaned(a: Arg)
    ensures ValidateFundCode(Str(CleanFundCode(a))) <==> 2 <= |CleanFundCode(a)| <= 5
  {
    CleanIdempotent(a);
    ValidIffCleanKeepsAll(Str(CleanFundCode(a)));
    var r := CleanFundCode(a);
    StripOfUpperAlnum(r);
    UpperOfUpperAlnum(r);
  }

  /** A code already in `[A-Z0-9]` is valid exactly when its length is 2 to 5. */
  lemma ValidUpperAlnum(s: string)
    requires forall c :: c in s ==> IsUpperAlnum(c)
    ensures ValidateFundCode(Str(s)) <==> 2 <= |s| <= 5
    ensures CleanFundCode(Str(s)) == s
  {
    StripOfUpperAlnum(s);
    UpperOfUpperAlnum(s);
    assert Upper(Strip(s)) == s;
    FilterAll(s, IsUpperAlnum);
    if s != [] {
      assert CleanFundCode(Str(s)) == Filter(s, IsUpperAlnum);
    }
  }

  /**
    Stripping is redundant in `clean_fund_code`: the substitution removes
    surrounding whitespace anyway, so `' AAK '` and `'AAK'` clean alike.
   */
  lemma CleanIgnoresStrip(s: string)
    ensures CleanFundCode(Str(s)) == Filter(Upper(s), IsUpperAlnum)
  {
    if s != [] {
      var lead, trail := StripSplit(s, IsSpace);
      PaddingClean(lead, Strip(s), trail);
    }
  }

  lemma PaddingClean(lead: string, mid: string, trail: string)
    requires forall i :: 0 <= i < |lead| ==> IsSpace(lead[i])
    requires forall i :: 0 <= i < |trail| ==> IsSpace(trail[i])
    ensures Filter(Upper(lead + (mid + trail)), IsUpperAlnum) == Filter(Upper(mid), IsUpperAlnum)
  {
    SpacesClean(lead);
    SpacesClean(trail);
    var fm := Filter(Upper(mid), IsUpperAlnum);
    UpperConcat(lead, mid + trail);
    UpperConcat(mid, trail);
    FilterConcat(Upper(lead), Upper(mid) + Upper(trail), IsUpperAlnum);
    FilterConcat(Upper(mid), Upper(trail), IsUpperAlnum);
    assert [] + (fm + []) == fm;
  }

  /** Whitespace disappears under cleaning. */
  lemma {:induction false} SpacesClean(w: string)
    requires forall i :: 0 <= i < |w| ==> IsSpace(w[i])
    ensures Filter(Upper(w), IsUpperAlnum) == []
  {
    if w != [] {
      var init, last := w[..|w| - 1], w[|w| - 1];
      SpacesClean(init);
      UpperTextOfSpace(last);
      assert Upper(w) == Upper(init) + [last];
      FilterConcat(Upper(init), [last], IsUpperAlnum);
      assert Filter([last], IsUpperAlnum) == [];
    }
  }
}
