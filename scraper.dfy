/**
  Block extraction from a fund page and the per-block parsing of the extra
  fund data (`tefas_analyzer/core/scraper.py`). The browser is not modelled:
  the page text, or the exception the browser raised, is an input.
 */
module Scraper {
  import opened Base
  import opened Seqs
  import opened Text
  import opened Utils
  import opened Regex
  import opened Json
  import opened Frames
  import opened Parser

  const PriceIdent := "chartMainContent_FonFiyatGrafik"

  /** The `patterns` dict of `_extract_js_blocks`, in its iteration order: block name and identifier. */
  const BlockPatterns: seq<(string, string)> :=
    [("price", PriceIdent), ("allocation", PieIdent), ("benchmark", ColumnIdent)]

  const NoPriceBlock := "Critical error: Price data block not found for fund "

  /** What each pattern finds in the page, in pattern order. */
  function Lookups(specs: seq<(string, string)>, html: string): (ls: seq<(string, Option<string>)>)
    ensures |ls| == |specs|
    ensures forall i :: 0 <= i < |specs| ==> ls[i] == (specs[i].0, Search(Block(specs[i].1), html))
  {
    seq(|specs|, i requires 0 <= i < |specs| => (specs[i].0, Search(Block(specs[i].1), html)))
  }

  predicate Found(l: (string, Option<string>))
  {
    l.1.Some?
  }

  /**
    `_extract_js_blocks`: every pattern's group, or `None`, under its block
    name, and the number of blocks found; a missing price block is fatal.
   */
  method ExtractJsBlocks(html: string, code: string) returns (r: Py<map<string, Option<string>>>, found: nat)
    ensures var ls := Lookups(BlockPatterns, html);
      found == |Filter(ls, Found)| &&
      (Search(Block(PriceIdent), html).None? ==> r == Err(Error(ScrapingError, NoPriceBlock + code))) &&
      (Search(Block(PriceIdent), html).Some? ==> r == Ok(PairsToMap(ls)))
  {
    var blocks;
    blocks, found := LookupBlocks(html);
    PriceBlock(html);
    var price := blocks["price"];
    if price.None? || price.value == "" {
      r := Err(Error(ScrapingError, NoPriceBlock + code));
    } else {
      r := Ok(blocks);
    }
  }

  /** The loop of `_extract_js_blocks`: each pattern's group, or `None`, under its block name. */
  method LookupBlocks(html: string) returns (blocks: map<string, Option<string>>, found: nat)
    ensures blocks == PairsToMap(Lookups(BlockPatterns, html))
    ensures found == |Filter(Lookups(BlockPatterns, html), Found)|
  {
    var ls := Lookups(BlockPatterns, html);
    blocks := map[];
    found := 0;
    var k := 0;
    while k < |BlockPatterns|
      invariant 0 <= k <= |BlockPatterns|
      invariant blocks == PairsToMap(ls[..k])
      invariant found == |Filter(ls[..k], Found)|
    {
      LookupStep(ls, k);
      var (name, ident) := BlockPatterns[k];
      var m := Search(Block(ident), html);
      assert ls[k] == (name, m);
      if m.Some? {
        blocks := blocks[name := m];
        found := found + 1;
      } else {
        blocks := blocks[name := None];
      }
      k := k + 1;
    }
    assert ls[..k] == ls;
  }

  /** The price entry is the price pattern's group, never empty when found. */
  lemma PriceBlock(html: string)
    ensures "price" in PairsToMap(Lookups(BlockPatterns, html))
    ensures PairsToMap(Lookups(BlockPatterns, html))["price"] == Search(Block(PriceIdent), html)
    ensures Search(Block(PriceIdent), html).Some? ==> Search(Block(PriceIdent), html).value != ""
  {
    ExtractedKeys(html);
    if Search(Block(PriceIdent), html).Some? {
      SearchBlockShaped(PriceIdent, html);
    }
  }

  /** One pass of the block loop: one more assignment, and one more found block when the pattern matched. */
  lemma LookupStep(ls: seq<(string, Option<string>)>, k: nat)
    requires k < |ls|
    ensures PairsToMap(ls[..k + 1]) == PairsToMap(ls[..k])[ls[k].0 := ls[k].1]
    ensures |Filter(ls[..k + 1], Found)| == |Filter(ls[..k], Found)| + if Found(ls[k]) then 1 else 0
  {
    assert ls[..k + 1] == ls[..k] + [ls[k]];
    PairsToMapSnoc(ls[..k], ls[k]);
    FilterConcat(ls[..k], [ls[k]], Found);
  }

  /** The result always has exactly the three block names as keys, each holding its own pattern's group. */
  lemma ExtractedKeys(html: string)
    ensures PairsToMap(Lookups(BlockPatterns, html)) ==
      map["price" := Search(Block(PriceIdent), html), "allocation" := Search(Block(PieIdent), html),
          "benchmark" := Search(Block(ColumnIdent), html)]
  {
    var ls := Lookups(BlockPatterns, html);
    assert ls == [("price", Search(Block(PriceIdent), html)), ("allocation", Search(Block(PieIdent), html)),
                  ("benchmark", Search(Block(ColumnIdent), html))];
    PairsToMapOfThree("price", Search(Block(PriceIdent), html), "allocation", Search(Block(PieIdent), html),
                      "benchmark", Search(Block(ColumnIdent), html));
  }

  /**
    The fund-code check shared by `fetch_tefas_js_blocks` and
    `get_tefas_data`: strip, upper-case, 2 to 5 characters.
   */
  function CheckedCode(code: string): (r: Py<string>)
    ensures r.Ok? <==> 2 <= |Upper(Strip(code))| <= 5
    ensures r.Ok? ==> r.value == Upper(Strip(code))
    ensures r.Err? ==> r.error.cls == ValueError
  {
    var c := Upper(Strip(code));
    if |c| < 2 || |c| > 5 then Err(Error(ValueError, "Fund code must be 2-5 characters long")) else Ok(c)
  }

  /**
    The length test counts the characters of Python's upper case, which can
    be more than were typed: one `U+1FB3` upper-cases to two letters and
    passes, three of them to six and fail.
   */
  lemma CheckedCodeExpands()
    ensures CheckedCode("\U{1fb3}") == Ok("\U{391}\U{399}")
  {
    assert UpperText('\U{1fb3}') == "\U{391}\U{399}";
    StripByNoop("\U{1fb3}", IsSpace);
    UpperOne('\U{1fb3}');
    assert Upper(Strip("\U{1fb3}")) == "\U{391}\U{399}";
  }

  lemma CheckedCodeExpandsTooFar()
    ensures CheckedCode("\U{1fb3}\U{1fb3}\U{1fb3}") == Err(Error(ValueError, "Fund code must be 2-5 characters long"))
  {
    var code := "\U{1fb3}\U{1fb3}\U{1fb3}";
    assert code == "\U{1fb3}" + "\U{1fb3}" + "\U{1fb3}";
    assert UpperText('\U{1fb3}') == "\U{391}\U{399}";
    StripByNoop(code, IsSpace);
    UpperOne('\U{1fb3}');
    UpperConcat("\U{1fb3}", "\U{1fb3}");
    UpperConcat("\U{1fb3}" + "\U{1fb3}", "\U{1fb3}");
    assert Upper(Strip(code)) == "\U{391}\U{399}" + "\U{391}\U{399}" + "\U{391}\U{399}";
  }

  /** The code fetched is the upper case of the stripped code, Turkish letters included. */
  lemma CheckedCodeTurkish()
    ensures CheckedCode("\U{e7}pu") == Ok("\U{c7}PU")
  {
    var code := "\U{e7}pu";
    assert code == "\U{e7}" + "p" + "u";
    assert UpperText('\U{e7}') == "\U{c7}";
    StripByNoop(code, IsSpace);
    UpperOne('\U{e7}');
    UpperOne('p');
    UpperOne('u');
    UpperConcat("\U{e7}", "p");
    UpperConcat("\U{e7}" + "p", "u");
    assert Upper(Strip(code)) == "\U{c7}PU";
  }

  /**
    `fetch_tefas_js_blocks` with the browser replaced by `fetch`, which maps
    the cleaned code to the page text or to the exception the browser raised.
   */
  function FetchJsBlocks(code: Arg, fetch: string -> Py<string>): (r: Py<map<string, Option<string>>>)
    ensures r.Err? ==> r.error.cls in {ValueError, ScrapingError}
    ensures code.NonStr? || code.s == [] ==> r == Err(Error(ValueError, "Fund code must be a non-empty string"))
  {
    if code.NonStr? || code.s == [] then Err(Error(ValueError, "Fund code must be a non-empty string"))
    else
      var c :- CheckedCode(code.s);
      match fetch(c)
      case Err(e) => Err(Error(ScrapingError, "Unexpected error while scraping fund " + c + ": " + e.msg))
      case Ok(html) =>
        if Search(Block(PriceIdent), html).None? then
          Err(Error(ScrapingError, "Unexpected error while scraping fund " + c + ": " + NoPriceBlock + c))
        else Ok(PairsToMap(Lookups(BlockPatterns, html)))
  }

  /**
    `get_tefas_data` with the browser replaced by `fetch`: the code check,
    then the chart parse; every failure after the code check leaves as
    `ScrapingError`.
   */
  function GetTefasData(code: string, fetch: string -> Py<string>): (r: Py<seq<Point>>)
    ensures r.Err? ==> r.error.cls in {ValueError, ScrapingError}
    ensures r.Err? && r.error.cls == ValueError <==> !(2 <= |Upper(Strip(code))| <= 5)
    ensures r.Ok? ==> r.value != [] && SortedByDate(r.value) && forall p :: p in r.value ==> Positive(p)
  {
    var c :- CheckedCode(code);
    var inner :=
      match fetch(c)
      case Err(e) => Err(e)
      case Ok(html) => ChartData(c, Cascade(PricePatterns, html), Cascade(CategoryPatterns, html));
    match inner
    case Ok(rows) => Ok(rows)
    case Err(e) => Err(Error(ScrapingError, "Selenium error for fund " + c + ": " + e.msg))
  }

  /** The allocation map of a block, re-wrapped as the parser expects, or {} when parsing fails. */
  function AllocationOrEmpty(block: string, decode: string -> Option<Json>, show: Json -> string): map<string, real>
  {
    match AllocationEntries(Wrap(PieIdent, block), decode, show)
    case Ok(es) => PairsToMap(es)
    case Err(_) => map[]
  }

  /** The benchmark map of a block, re-wrapped as the parser expects, or {} when parsing fails. */
  function BenchmarkOrEmpty(block: string, decode: string -> Option<Json>, show: Json -> string): map<string, real>
  {
    match BenchmarkWrites(Wrap(ColumnIdent, block), decode, show)
    case Ok(ws) => PairsToMap(ws)
    case Err(_) => map[]
  }

  /** The text of a named block when it is present and non-empty. */
  function BlockText(blocks: map<string, Option<string>>, name: string): (t: Option<string>)
    ensures t.Some? <==> name in blocks && blocks[name].Some? && blocks[name].value != ""
    ensures t.Some? ==> t.value == blocks[name].value
  {
    if name in blocks && blocks[name].Some? && blocks[name].value != "" then blocks[name] else None
  }

  /**
    The dict `get_fund_additional_data` builds from the extracted blocks: an
    entry per present block, holding that block's parse or {}.
   */
  function AdditionalData(blocks: map<string, Option<string>>, decode: string -> Option<Json>, show: Json -> string)
    : (d: map<string, map<string, real>>)
    ensures d.Keys <= {"asset_allocation", "benchmark_returns"}
    ensures "asset_allocation" in d <==> BlockText(blocks, "allocation").Some?
    ensures "benchmark_returns" in d <==> BlockText(blocks, "benchmark").Some?
    ensures "asset_allocation" in d ==> d["asset_allocation"] == AllocationOrEmpty(BlockText(blocks, "allocation").value, decode, show)
    ensures "benchmark_returns" in d ==> d["benchmark_returns"] == BenchmarkOrEmpty(BlockText(blocks, "benchmark").value, decode, show)
  {
    var withAllocation :=
      match BlockText(blocks, "allocation")
      case Some(g) => map["asset_allocation" := AllocationOrEmpty(g, decode, show)]
      case None => map[];
    match BlockText(blocks, "benchmark")
    case Some(g) => withAllocation["benchmark_returns" := BenchmarkOrEmpty(g, decode, show)]
    case None => withAllocation
  }

  /** One block's failure does not touch the other block's entry. */
  lemma AdditionalDataIndependent(blocks: map<string, Option<string>>, broken: Option<string>,
                                  decode: string -> Option<Json>, show: Json -> string)
    ensures var d := AdditionalData(blocks, decode, show);
      var e := AdditionalData(blocks["benchmark" := broken], decode, show);
      ("asset_allocation" in d <==> "asset_allocation" in e) &&
      ("asset_allocation" in d ==> d["asset_allocation"] == e["asset_allocation"])
    ensures var d := AdditionalData(blocks, decode, show);
      var e := AdditionalData(blocks["allocation" := broken], decode, show);
      ("benchmark_returns" in d <==> "benchmark_returns" in e) &&
      ("benchmark_returns" in d ==> d["benchmark_returns"] == e["benchmark_returns"])
  {
    assert BlockText(blocks["benchmark" := broken], "allocation") == BlockText(blocks, "allocation");
    assert BlockText(blocks["allocation" := broken], "benchmark") == BlockText(blocks, "benchmark");
  }

  /** The allocation part of `get_fund_additional_data`: parse, or {} when the parser raises. */
  method AllocationOfBlock(block: string, decode: string -> Option<Json>, show: Json -> string)
    returns (m: map<string, real>)
    ensures m == AllocationOrEmpty(block, decode, show)
  {
    var allocation, _ := ParseAssetAllocation(Wrap(PieIdent, block), decode, show);
    m := if allocation.Ok? then allocation.value else map[];
  }

  /** The benchmark part of `get_fund_additional_data`: parse, or {} when the parser raises. */
  method BenchmarkOfBlock(block: string, decode: string -> Option<Json>, show: Json -> string)
    returns (m: map<string, real>)
    ensures m == BenchmarkOrEmpty(block, decode, show)
  {
    var benchmark := ParseBenchmarkReturns(Wrap(ColumnIdent, block), decode, show);
    m := if benchmark.Ok? then benchmark.value else map[];
  }

  /**
    `get_fund_additional_data`: each block present is parsed on its own and
    downgrades to {} when its parser raises; any failure of the fetch gives {}.
   */
  method GetFundAdditionalData(code: Arg, fetch: string -> Py<string>, decode: string -> Option<Json>, show: Json -> string)
    returns (data: map<string, map<string, real>>)
    ensures FetchJsBlocks(code, fetch).Err? ==> data == map[]
    ensures FetchJsBlocks(code, fetch).Ok? ==> data == AdditionalData(FetchJsBlocks(code, fetch).value, decode, show)
  {
    var fetched := FetchJsBlocks(code, fetch);
    if fetched.Err? {
      return map[];
    }
    data := AdditionalDataOf(fetched.value, decode, show);
  }

  /** The body of `get_fund_additional_data` once the blocks are extracted. */
  method AdditionalDataOf(blocks: map<string, Option<string>>, decode: string -> Option<Json>, show: Json -> string)
    returns (data: map<string, map<string, real>>)
    ensures data == AdditionalData(blocks, decode, show)
  {
    data := map[];
    var allocation := BlockText(blocks, "allocation");
    if allocation.Some? {
      var m := AllocationOfBlock(allocation.value, decode, show);
      data := data["asset_allocation" := m];
    }
    var benchmark := BlockText(blocks, "benchmark");
    if benchmark.Some? {
      var m := BenchmarkOfBlock(benchmark.value, decode, show);
      data := data["benchmark_returns" := m];
    }
  }

  /**
    A block taken from a page and re-wrapped as `var <identifier> = <block>;`
    is found again, unchanged, by the parser's pattern, so parsing the
    re-wrapped block gives what parsing the page itself would give.
   */
  lemma RewrappedBlockFound(html: string, ident: string, decode: string -> Option<Json>, show: Json -> string)
    requires ident in {PieIdent, ColumnIdent}
    requires Search(Block(ident), html).Some?
    ensures FindBlock(ident, Wrap(ident, Search(Block(ident), html).value)) == Ok(Search(Block(ident), html).value)
    ensures ident == PieIdent ==>
      AllocationEntries(Wrap(ident, Search(Block(ident), html).value), decode, show) == AllocationEntries(html, decode, show)
    ensures ident == ColumnIdent ==>
      BenchmarkWrites(Wrap(ident, Search(Block(ident), html).value), decode, show) == BenchmarkWrites(html, decode, show)
  {
    var g := Search(Block(ident), html).value;
    ExtractRewrapRoundTrip(ident, html);
    assert FindBlock(ident, Wrap(ident, g)) == FindBlock(ident, html);
    if ident == PieIdent {
      SameBlockSameAllocation(Wrap(ident, g), html, decode, show);
    } else {
      SameBlockSameBenchmark(Wrap(ident, g), html, decode, show);
    }
  }

  lemma SameBlockSameAllocation(js: string, other: string, decode: string -> Option<Json>, show: Json -> string)
    requires FindBlock(PieIdent, js) == FindBlock(PieIdent, other)
    ensures AllocationEntries(js, decode, show) == AllocationEntries(other, decode, show)
  {
  }

  lemma SameBlockSameBenchmark(js: string, other: string, decode: string -> Option<Json>, show: Json -> string)
    requires FindBlock(ColumnIdent, js) == FindBlock(ColumnIdent, other)
    ensures BenchmarkWrites(js, decode, show) == BenchmarkWrites(other, decode, show)
  {
    assert ColumnData(js, decode) == ColumnData(other, decode);
  }

  /** The fetched blocks are exactly the blocks the patterns find in the page. */
  lemma FetchedBlocks(code: string, c: string, fetch: string -> Py<string>)
    requires code != [] && CheckedCode(code) == Ok(c)
    requires fetch(c).Ok? && Search(Block(PriceIdent), fetch(c).value).Some?
    ensures FetchJsBlocks(Str(code), fetch) == Ok(PairsToMap(Lookups(BlockPatterns, fetch(c).value)))
  {
  }

  /**
    The code checks of `fetch_tefas_js_blocks` are exactly its `ValueError`
    cases: a non-string or empty code, or one whose `strip().upper()` is not 2
    to 5 characters long, which raises the length message.
   */
  lemma FetchCodeErrors(code: Arg, fetch: string -> Py<string>)
    ensures var r := FetchJsBlocks(code, fetch);
      r.Err? && r.error.cls == ValueError <==>
        code.NonStr? || code.s == [] || !(2 <= |Upper(Strip(code.s))| <= 5)
    ensures code.Str? && code.s != [] && !(2 <= |Upper(Strip(code.s))| <= 5) ==>
      FetchJsBlocks(code, fetch) == Err(Error(ValueError, "Fund code must be 2-5 characters long"))
  {
  }
}
