/**
  The Python string operations the core relies on: `str.isspace`,
  `str.strip`, `str.upper`, `str.split` and `float(str)`.
 */
module Text {
  import opened Base

  /** `str.isspace()` for one character (the Unicode whitespace set). */
  predicate IsSpace(c: char)
  {
    if c <= ' ' then '\t' <= c <= '\r' || '\U{1c}' <= c
    else if c < '\U{85}' then false
    else
      c == '\U{85}' || c == '\U{a0}' || c == '\U{1680}' || ('\U{2000}' <= c <= '\U{200a}')
      || c == '\U{2028}' || c == '\U{2029}' || c == '\U{202f}' || c == '\U{205f}' || c == '\U{3000}'
  }

  predicate IsDigit(c: char)
  {
    '0' <= c <= '9'
  }

  /** The regex class `[A-Z0-9]`. */
  predicate IsUpperAlnum(c: char)
  {
    'A' <= c <= 'Z' || IsDigit(c)
  }

  predicate AllDigits(s: string)
  {
    forall c :: c in s ==> IsDigit(c)
  }

  // ---------------------------------------------------------------- strip

  function TrimStart(s: string, f: char -> bool): (r: string)
    ensures |r| <= |s| && r == s[|s| - |r|..]
    ensures r != [] ==> !f(r[0])
    ensures forall i :: 0 <= i < |s| - |r| ==> f(s[i])
  {
    if s != [] && f(s[0]) then TrimStart(s[1..], f) else s
  }

  function TrimEnd(s: string, f: char -> bool): (r: string)
    ensures |r| <= |s| && r == s[..|r|]
    ensures r != [] ==> !f(r[|r| - 1])
    ensures forall i :: |r| <= i < |s| ==> f(s[i])
  {
    if s != [] && f(s[|s| - 1]) then TrimEnd(s[..|s| - 1], f) else s
  }

  /** `s.strip(chars)`: drop the leading and trailing characters selected by `f`. */
  function StripBy(s: string, f: char -> bool): string
  {
    TrimEnd(TrimStart(s, f), f)
  }

  /** `s.strip()`. */
  function Strip(s: string): string
  {
    StripBy(s, IsSpace)
  }

  predicate IsQuote(c: char)
  {
    c == '"'
  }

  /** The text is its strip with whitespace on either side. */
  lemma StripSplit(s: string, f: char -> bool) returns (lead: string, trail: string)
    ensures s == lead + (StripBy(s, f) + trail)
    ensures forall i :: 0 <= i < |lead| ==> f(lead[i])
    ensures forall i :: 0 <= i < |trail| ==> f(trail[i])
  {
    lead := TrimStartSplit(s, f);
    trail := TrimEndSplit(TrimStart(s, f), f);
  }

  lemma TrimStartSplit(s: string, f: char -> bool) returns (lead: string)
    ensures s == lead + TrimStart(s, f)
    ensures forall i :: 0 <= i < |lead| ==> f(lead[i])
  {
    var t := TrimStart(s, f);
    lead := s[..|s| - |t|];
    assert s == lead + s[|s| - |t|..];
  }

  lemma TrimEndSplit(t: string, f: char -> bool) returns (trail: string)
    ensures t == TrimEnd(t, f) + trail
    ensures forall i :: 0 <= i < |trail| ==> f(trail[i])
  {
    var u := TrimEnd(t, f);
    trail := t[|u|..];
    assert t == t[..|u|] + trail;
  }

  /** A string whose ends are not stripped is its own strip. */
  lemma StripByNoop(s: string, f: char -> bool)
    requires s == [] || (!f(s[0]) && !f(s[|s| - 1]))
    ensures StripBy(s, f) == s
  {
  }

  // ---------------------------------------------------------------- upper

  /**
    `str.upper()` on one character, with Python's full case mapping: ASCII
    letters are shifted, and every other character is looked up in
    `UpperTable`. For about a hundred characters (the sharp s, the
    ligatures, the Greek letters with iota subscript, ...) the upper case is
    two or three characters.
   */
  function UpperText(c: char): string
  {
    if c < '\U{80}' then
      if 'a' <= c <= 'z' then [(c as int - 32) as char] else [c]
    else Lookup(UpperTable, c)
  }

  /**
    One entry of the upper-case table: the characters `lo..hi` (every other
    one when `alternate`) move by `shift` code points, or the single
    character `at` becomes the two or three characters with the code points
    given.
   */
  datatype CaseEntry =
    | Run(lo: int, hi: int, alternate: bool, shift: int)
    | Expand2(at: int, first: int, second: int)
    | Expand3(at: int, first: int, second: int, third: int)

  /** The entries ordered by code point, as a search tree: `pivot` is the first code point of `above`. */
  datatype CaseTable = Leaf(entry: CaseEntry) | Node(pivot: int, below: CaseTable, above: CaseTable)

  predicate IsScalar(k: int)
  {
    0 <= k < 0xD800 || 0xE000 <= k < 0x11_0000
  }

  /** The upper case `e` gives `c`; a character the entry does not cover is kept. */
  function EntryUpper(e: CaseEntry, c: char): string
  {
    match e
    case Run(lo, hi, alternate, shift) =>
      var k := c as int + shift;
      if lo <= c as int <= hi && (!alternate || (c as int - lo) % 2 == 0) && IsScalar(k) then [k as char] else [c]
    case Expand2(at, a, b) =>
      if c as int == at && IsScalar(a) && IsScalar(b) then [a as char, b as char] else [c]
    case Expand3(at, a, b, d) =>
      if c as int == at && IsScalar(a) && IsScalar(b) && IsScalar(d) then [a as char, b as char, d as char] else [c]
  }

  function Lookup(t: CaseTable, c: char): string
  {
    match t
    case Leaf(e) => EntryUpper(e, c)
    case Node(p, below, above) => if c as int < p then Lookup(below, c) else Lookup(above, c)
  }

  /**
    The upper case of the characters outside ASCII, as Unicode 15.0 defines
    it: the simple mappings, and the unconditional expanding mappings of
    SpecialCasing.txt. A character in no entry is its own upper case.
   */
  const UpperTable: CaseTable :=
    Node(0x1f51,
      Node(0x280,
        Node(0x1ce,
          Node(0x195,
            Node(0x149,
              Node(0xff,
                Node(0xe0,
                  Node(0xdf,
                    Leaf(Run(0xb5, 0xb5, false, 743)),
                    Leaf(Expand2(0xdf, 0x53, 0x53))),
                  Node(0xf8,
                    Leaf(Run(0xe0, 0xf6, false, -32)),
                    Leaf(Run(0xf8, 0xfe, false, -32)))),
                Node(0x131,
                  Node(0x101,
                    Leaf(Run(0xff, 0xff, false, 121)),
                    Leaf(Run(0x101, 0x12f, true, -1))),
                  Node(0x133,
                    Leaf(Run(0x131, 0x131, false, -232)),
                    Node(0x13a,
                      Leaf(Run(0x133, 0x137, true, -1)),
                      Leaf(Run(0x13a, 0x148, true, -1)))))),
              Node(0x180,
                Node(0x17a,
                  Node(0x14b,
                    Leaf(Expand2(0x149, 0x2bc, 0x4e)),
                    Leaf(Run(0x14b, 0x177, true, -1))),
                  Node(0x17f,
                    Leaf(Run(0x17a, 0x17e, true, -1)),
                    Leaf(Run(0x17f, 0x17f, false, -300)))),
                Node(0x188,
                  Node(0x183,
                    Leaf(Run(0x180, 0x180, false, 195)),
                    Leaf(Run(0x183, 0x185, true, -1))),
                  Node(0x18c,
                    Leaf(Run(0x188, 0x188, false, -1)),
                    Node(0x192,
                      Leaf(Run(0x18c, 0x18c, false, -1)),
                      Leaf(Run(0x192, 0x192, false, -1))))))),
            Node(0x1b9,
              Node(0x1a1,
                Node(0x19a,
                  Node(0x199,
                    Leaf(Run(0x195, 0x195, false, 97)),
                    Leaf(Run(0x199, 0x199, false, -1))),
                  Node(0x19e,
                    Leaf(Run(0x19a, 0x19a, false, 163)),
                    Leaf(Run(0x19e, 0x19e, false, 130)))),
                Node(0x1ad,
                  Node(0x1a8,
                    Leaf(Run(0x1a1, 0x1a5, true, -1)),
                    Leaf(Run(0x1a8, 0x1a8, false, -1))),
                  Node(0x1b0,
                    Leaf(Run(0x1ad, 0x1ad, false, -1)),
                    Node(0x1b4,
                      Leaf(Run(0x1b0, 0x1b0, false, -1)),
                      Leaf(Run(0x1b4, 0x1b6, true, -1)))))),
              Node(0x1c6,
                Node(0x1bf,
                  Node(0x1bd,
                    Leaf(Run(0x1b9, 0x1b9, false, -1)),
                    Leaf(Run(0x1bd, 0x1bd, false, -1))),
                  Node(0x1c5,
                    Leaf(Run(0x1bf, 0x1bf, false, 56)),
                    Leaf(Run(0x1c5, 0x1c5, false, -1)))),
                Node(0x1c9,
                  Node(0x1c8,
                    Leaf(Run(0x1c6, 0x1c6, false, -2)),
                    Leaf(Run(0x1c8, 0x1c8, false, -1))),
                  Node(0x1cb,
                    Leaf(Run(0x1c9, 0x1c9, false, -2)),
                    Node(0x1cc,
                      Leaf(Run(0x1cb, 0x1cb, false, -1)),
                      Leaf(Run(0x1cc, 0x1cc, false, -2)))))))),
          Node(0x256,
            Node(0x23c,
              Node(0x1f2,
                Node(0x1df,
                  Node(0x1dd,
                    Leaf(Run(0x1ce, 0x1dc, true, -1)),
                    Leaf(Run(0x1dd, 0x1dd, false, -79))),
                  Node(0x1f0,
                    Leaf(Run(0x1df, 0x1ef, true, -1)),
                    Leaf(Expand2(0x1f0, 0x4a, 0x30c)))),
                Node(0x1f5,
                  Node(0x1f3,
                    Leaf(Run(0x1f2, 0x1f2, false, -1)),
                    Leaf(Run(0x1f3, 0x1f3, false, -2))),
                  Node(0x1f9,
                    Leaf(Run(0x1f5, 0x1f5, false, -1)),
                    Node(0x223,
                      Leaf(Run(0x1f9, 0x21f, true, -1)),
                      Leaf(Run(0x223, 0x233, true, -1)))))),
              Node(0x250,
                Node(0x242,
                  Node(0x23f,
                    Leaf(Run(0x23c, 0x23c, false, -1)),
                    Leaf(Run(0x23f, 0x240, false, 10815))),
                  Node(0x247,
                    Leaf(Run(0x242, 0x242, false, -1)),
                    Leaf(Run(0x247, 0x24f, true, -1)))),
                Node(0x252,
                  Node(0x251,
                    Leaf(Run(0x250, 0x250, false, 10783)),
                    Leaf(Run(0x251, 0x251, false, 10780))),
                  Node(0x253,
                    Leaf(Run(0x252, 0x252, false, 10782)),
                    Node(0x254,
                      Leaf(Run(0x253, 0x253, false, -210)),
                      Leaf(Run(0x254, 0x254, false, -206))))))),
            Node(0x268,
              Node(0x260,
                Node(0x25b,
                  Node(0x259,
                    Leaf(Run(0x256, 0x257, false, -205)),
                    Leaf(Run(0x259, 0x259, false, -202))),
                  Node(0x25c,
                    Leaf(Run(0x25b, 0x25b, false, -203)),
                    Leaf(Run(0x25c, 0x25c, false, 42319)))),
                Node(0x263,
                  Node(0x261,
                    Leaf(Run(0x260, 0x260, false, -205)),
                    Leaf(Run(0x261, 0x261, false, 42315))),
                  Node(0x265,
                    Leaf(Run(0x263, 0x263, false, -207)),
                    Node(0x266,
                      Leaf(Run(0x265, 0x265, false, 42280)),
                      Leaf(Run(0x266, 0x266, false, 42308)))))),
              Node(0x26f,
                Node(0x26a,
                  Node(0x269,
                    Leaf(Run(0x268, 0x268, false, -209)),
                    Leaf(Run(0x269, 0x269, false, -211))),
                  Node(0x26b,
                    Leaf(Run(0x26a, 0x26a, false, 42308)),
                    Node(0x26c,
                      Leaf(Run(0x26b, 0x26b, false, 10743)),
                      Leaf(Run(0x26c, 0x26c, false, 42305))))),
                Node(0x272,
                  Node(0x271,
                    Leaf(Run(0x26f, 0x26f, false, -211)),
                    Leaf(Run(0x271, 0x271, false, 10749))),
                  Node(0x275,
                    Leaf(Run(0x272, 0x272, false, -213)),
                    Node(0x27d,
                      Leaf(Run(0x275, 0x275, false, -214)),
                      Leaf(Run(0x27d, 0x27d, false, 10727))))))))),
        Node(0x430,
          Node(0x3b0,
            Node(0x29d,
              Node(0x288,
                Node(0x283,
                  Node(0x282,
                    Leaf(Run(0x280, 0x280, false, -218)),
                    Leaf(Run(0x282, 0x282, false, 42307))),
                  Node(0x287,
                    Leaf(Run(0x283, 0x283, false, -218)),
                    Leaf(Run(0x287, 0x287, false, 42282)))),
                Node(0x28a,
                  Node(0x289,
                    Leaf(Run(0x288, 0x288, false, -218)),
                    Leaf(Run(0x289, 0x289, false, -69))),
                  Node(0x28c,
                    Leaf(Run(0x28a, 0x28b, false, -217)),
                    Node(0x292,
                      Leaf(Run(0x28c, 0x28c, false, -71)),
                      Leaf(Run(0x292, 0x292, false, -219)))))),
              Node(0x377,
                Node(0x345,
                  Node(0x29e,
                    Leaf(Run(0x29d, 0x29d, false, 42261)),
                    Leaf(Run(0x29e, 0x29e, false, 42258))),
                  Node(0x371,
                    Leaf(Run(0x345, 0x345, false, 84)),
                    Leaf(Run(0x371, 0x373, true, -1)))),
                Node(0x390,
                  Node(0x37b,
                    Leaf(Run(0x377, 0x377, false, -1)),
                    Leaf(Run(0x37b, 0x37d, false, 130))),
                  Node(0x3ac,
                    Leaf(Expand3(0x390, 0x399, 0x308, 0x301)),
                    Node(0x3ad,
                      Leaf(Run(0x3ac, 0x3ac, false, -38)),
                      Leaf(Run(0x3ad, 0x3af, false, -37))))))),
            Node(0x3d6,
              Node(0x3cc,
                Node(0x3c2,
                  Node(0x3b1,
                    Leaf(Expand3(0x3b0, 0x3a5, 0x308, 0x301)),
                    Leaf(Run(0x3b1, 0x3c1, false, -32))),
                  Node(0x3c3,
                    Leaf(Run(0x3c2, 0x3c2, false, -31)),
                    Leaf(Run(0x3c3, 0x3cb, false, -32)))),
                Node(0x3d0,
                  Node(0x3cd,
                    Leaf(Run(0x3cc, 0x3cc, false, -64)),
                    Leaf(Run(0x3cd, 0x3ce, false, -63))),
                  Node(0x3d1,
                    Leaf(Run(0x3d0, 0x3d0, false, -62)),
                    Node(0x3d5,
                      Leaf(Run(0x3d1, 0x3d1, false, -57)),
                      Leaf(Run(0x3d5, 0x3d5, false, -47)))))),
              Node(0x3f2,
                Node(0x3d9,
                  Node(0x3d7,
                    Leaf(Run(0x3d6, 0x3d6, false, -54)),
                    Leaf(Run(0x3d7, 0x3d7, false, -8))),
                  Node(0x3f0,
                    Leaf(Run(0x3d9, 0x3ef, true, -1)),
                    Node(0x3f1,
                      Leaf(Run(0x3f0, 0x3f0, false, -86)),
                      Leaf(Run(0x3f1, 0x3f1, false, -80))))),
                Node(0x3f5,
                  Node(0x3f3,
                    Leaf(Run(0x3f2, 0x3f2, false, 7)),
                    Leaf(Run(0x3f3, 0x3f3, false, -116))),
                  Node(0x3f8,
                    Leaf(Run(0x3f5, 0x3f5, false, -96)),
                    Node(0x3fb,
                      Leaf(Run(0x3f8, 0x3f8, false, -1)),
                      Leaf(Run(0x3fb, 0x3fb, false, -1)))))))),
          Node(0x1c87,
            Node(0x10d0,
              Node(0x4c2,
                Node(0x461,
                  Node(0x450,
                    Leaf(Run(0x430, 0x44f, false, -32)),
                    Leaf(Run(0x450, 0x45f, false, -80))),
                  Node(0x48b,
                    Leaf(Run(0x461, 0x481, true, -1)),
                    Leaf(Run(0x48b, 0x4bf, true, -1)))),
                Node(0x4d1,
                  Node(0x4cf,
                    Leaf(Run(0x4c2, 0x4ce, true, -1)),
                    Leaf(Run(0x4cf, 0x4cf, false, -15))),
                  Node(0x561,
                    Leaf(Run(0x4d1, 0x52f, true, -1)),
                    Node(0x587,
                      Leaf(Run(0x561, 0x586, false, -48)),
                      Leaf(Expand2(0x587, 0x535, 0x552)))))),
              Node(0x1c81,
                Node(0x13f8,
                  Node(0x10fd,
                    Leaf(Run(0x10d0, 0x10fa, false, 3008)),
                    Leaf(Run(0x10fd, 0x10ff, false, 3008))),
                  Node(0x1c80,
                    Leaf(Run(0x13f8, 0x13fd, false, -8)),
                    Leaf(Run(0x1c80, 0x1c80, false, -6254)))),
                Node(0x1c83,
                  Node(0x1c82,
                    Leaf(Run(0x1c81, 0x1c81, false, -6253)),
                    Leaf(Run(0x1c82, 0x1c82, false, -6244))),
                  Node(0x1c85,
                    Leaf(Run(0x1c83, 0x1c84, false, -6242)),
                    Node(0x1c86,
                      Leaf(Run(0x1c85, 0x1c85, false, -6243)),
                      Leaf(Run(0x1c86, 0x1c86, false, -6236))))))),
            Node(0x1e99,
              Node(0x1d8e,
                Node(0x1d79,
                  Node(0x1c88,
                    Leaf(Run(0x1c87, 0x1c87, false, -6181)),
                    Leaf(Run(0x1c88, 0x1c88, false, 35266))),
                  Node(0x1d7d,
                    Leaf(Run(0x1d79, 0x1d79, false, 35332)),
                    Leaf(Run(0x1d7d, 0x1d7d, false, 3814)))),
                Node(0x1e96,
                  Node(0x1e01,
                    Leaf(Run(0x1d8e, 0x1d8e, false, 35384)),
                    Leaf(Run(0x1e01, 0x1e95, true, -1))),
                  Node(0x1e97,
                    Leaf(Expand2(0x1e96, 0x48, 0x331)),
                    Node(0x1e98,
                      Leaf(Expand2(0x1e97, 0x54, 0x308)),
                      Leaf(Expand2(0x1e98, 0x57, 0x30a)))))),
              Node(0x1f10,
                Node(0x1e9b,
                  Node(0x1e9a,
                    Leaf(Expand2(0x1e99, 0x59, 0x30a)),
                    Leaf(Expand2(0x1e9a, 0x41, 0x2be))),
                  Node(0x1ea1,
                    Leaf(Run(0x1e9b, 0x1e9b, false, -59)),
                    Node(0x1f00,
                      Leaf(Run(0x1ea1, 0x1eff, true, -1)),
                      Leaf(Run(0x1f00, 0x1f07, false, 8))))),
                Node(0x1f30,
                  Node(0x1f20,
                    Leaf(Run(0x1f10, 0x1f15, false, 8)),
                    Leaf(Run(0x1f20, 0x1f27, false, 8))),
                  Node(0x1f40,
                    Leaf(Run(0x1f30, 0x1f37, false, 8)),
                    Node(0x1f50,
                      Leaf(Run(0x1f40, 0x1f45, false, 8)),
                      Leaf(Expand2(0x1f50, 0x3a5, 0x313)))))))))),
      Node(0x1fd2,
        Node(0x1f9a,
          Node(0x1f87,
            Node(0x1f7a,
              Node(0x1f60,
                Node(0x1f54,
                  Node(0x1f52,
                    Leaf(Run(0x1f51, 0x1f57, true, 8)),
                    Leaf(Expand3(0x1f52, 0x3a5, 0x313, 0x300))),
                  Node(0x1f56,
                    Leaf(Expand3(0x1f54, 0x3a5, 0x313, 0x301)),
                    Leaf(Expand3(0x1f56, 0x3a5, 0x313, 0x342)))),
                Node(0x1f72,
                  Node(0x1f70,
                    Leaf(Run(0x1f60, 0x1f67, false, 8)),
                    Leaf(Run(0x1f70, 0x1f71, false, 74))),
                  Node(0x1f76,
                    Leaf(Run(0x1f72, 0x1f75, false, 86)),
                    Node(0x1f78,
                      Leaf(Run(0x1f76, 0x1f77, false, 100)),
                      Leaf(Run(0x1f78, 0x1f79, false, 128)))))),
              Node(0x1f82,
                Node(0x1f80,
                  Node(0x1f7c,
                    Leaf(Run(0x1f7a, 0x1f7b, false, 112)),
                    Leaf(Run(0x1f7c, 0x1f7d, false, 126))),
                  Node(0x1f81,
                    Leaf(Expand2(0x1f80, 0x1f08, 0x399)),
                    Leaf(Expand2(0x1f81, 0x1f09, 0x399)))),
                Node(0x1f84,
                  Node(0x1f83,
                    Leaf(Expand2(0x1f82, 0x1f0a, 0x399)),
                    Leaf(Expand2(0x1f83, 0x1f0b, 0x399))),
                  Node(0x1f85,
                    Leaf(Expand2(0x1f84, 0x1f0c, 0x399)),
                    Node(0x1f86,
                      Leaf(Expand2(0x1f85, 0x1f0d, 0x399)),
                      Leaf(Expand2(0x1f86, 0x1f0e, 0x399))))))),
            Node(0x1f90,
              Node(0x1f8b,
                Node(0x1f89,
                  Node(0x1f88,
                    Leaf(Expand2(0x1f87, 0x1f0f, 0x399)),
                    Leaf(Expand2(0x1f88, 0x1f08, 0x399))),
                  Node(0x1f8a,
                    Leaf(Expand2(0x1f89, 0x1f09, 0x399)),
                    Leaf(Expand2(0x1f8a, 0x1f0a, 0x399)))),
                Node(0x1f8d,
                  Node(0x1f8c,
                    Leaf(Expand2(0x1f8b, 0x1f0b, 0x399)),
                    Leaf(Expand2(0x1f8c, 0x1f0c, 0x399))),
                  Node(0x1f8e,
                    Leaf(Expand2(0x1f8d, 0x1f0d, 0x399)),
                    Node(0x1f8f,
                      Leaf(Expand2(0x1f8e, 0x1f0e, 0x399)),
                      Leaf(Expand2(0x1f8f, 0x1f0f, 0x399)))))),
              Node(0x1f95,
                Node(0x1f92,
                  Node(0x1f91,
                    Leaf(Expand2(0x1f90, 0x1f28, 0x399)),
                    Leaf(Expand2(0x1f91, 0x1f29, 0x399))),
                  Node(0x1f93,
                    Leaf(Expand2(0x1f92, 0x1f2a, 0x399)),
                    Node(0x1f94,
                      Leaf(Expand2(0x1f93, 0x1f2b, 0x399)),
                      Leaf(Expand2(0x1f94, 0x1f2c, 0x399))))),
                Node(0x1f97,
                  Node(0x1f96,
                    Leaf(Expand2(0x1f95, 0x1f2d, 0x399)),
                    Leaf(Expand2(0x1f96, 0x1f2e, 0x399))),
                  Node(0x1f98,
                    Leaf(Expand2(0x1f97, 0x1f2f, 0x399)),
                    Node(0x1f99,
                      Leaf(Expand2(0x1f98, 0x1f28, 0x399)),
                      Leaf(Expand2(0x1f99, 0x1f29, 0x399)))))))),
          Node(0x1fac,
            Node(0x1fa3,
              Node(0x1f9e,
                Node(0x1f9c,
                  Node(0x1f9b,
                    Leaf(Expand2(0x1f9a, 0x1f2a, 0x399)),
                    Leaf(Expand2(0x1f9b, 0x1f2b, 0x399))),
                  Node(0x1f9d,
                    Leaf(Expand2(0x1f9c, 0x1f2c, 0x399)),
                    Leaf(Expand2(0x1f9d, 0x1f2d, 0x399)))),
                Node(0x1fa0,
                  Node(0x1f9f,
                    Leaf(Expand2(0x1f9e, 0x1f2e, 0x399)),
                    Leaf(Expand2(0x1f9f, 0x1f2f, 0x399))),
                  Node(0x1fa1,
                    Leaf(Expand2(0x1fa0, 0x1f68, 0x399)),
                    Node(0x1fa2,
                      Leaf(Expand2(0x1fa1, 0x1f69, 0x399)),
                      Leaf(Expand2(0x1fa2, 0x1f6a, 0x399)))))),
              Node(0x1fa7,
                Node(0x1fa5,
                  Node(0x1fa4,
                    Leaf(Expand2(0x1fa3, 0x1f6b, 0x399)),
                    Leaf(Expand2(0x1fa4, 0x1f6c, 0x399))),
                  Node(0x1fa6,
                    Leaf(Expand2(0x1fa5, 0x1f6d, 0x399)),
                    Leaf(Expand2(0x1fa6, 0x1f6e, 0x399)))),
                Node(0x1fa9,
                  Node(0x1fa8,
                    Leaf(Expand2(0x1fa7, 0x1f6f, 0x399)),
                    Leaf(Expand2(0x1fa8, 0x1f68, 0x399))),
                  Node(0x1faa,
                    Leaf(Expand2(0x1fa9, 0x1f69, 0x399)),
                    Node(0x1fab,
                      Leaf(Expand2(0x1faa, 0x1f6a, 0x399)),
                      Leaf(Expand2(0x1fab, 0x1f6b, 0x399))))))),
            Node(0x1fb7,
              Node(0x1fb0,
                Node(0x1fae,
                  Node(0x1fad,
                    Leaf(Expand2(0x1fac, 0x1f6c, 0x399)),
                    Leaf(Expand2(0x1fad, 0x1f6d, 0x399))),
                  Node(0x1faf,
                    Leaf(Expand2(0x1fae, 0x1f6e, 0x399)),
                    Leaf(Expand2(0x1faf, 0x1f6f, 0x399)))),
                Node(0x1fb3,
                  Node(0x1fb2,
                    Leaf(Run(0x1fb0, 0x1fb1, false, 8)),
                    Leaf(Expand2(0x1fb2, 0x1fba, 0x399))),
                  Node(0x1fb4,
                    Leaf(Expand2(0x1fb3, 0x391, 0x399)),
                    Node(0x1fb6,
                      Leaf(Expand2(0x1fb4, 0x386, 0x399)),
                      Leaf(Expand2(0x1fb6, 0x391, 0x342)))))),
              Node(0x1fc4,
                Node(0x1fbe,
                  Node(0x1fbc,
                    Leaf(Expand3(0x1fb7, 0x391, 0x342, 0x399)),
                    Leaf(Expand2(0x1fbc, 0x391, 0x399))),
                  Node(0x1fc2,
                    Leaf(Run(0x1fbe, 0x1fbe, false, -7205)),
                    Node(0x1fc3,
                      Leaf(Expand2(0x1fc2, 0x1fca, 0x399)),
                      Leaf(Expand2(0x1fc3, 0x397, 0x399))))),
                Node(0x1fc7,
                  Node(0x1fc6,
                    Leaf(Expand2(0x1fc4, 0x389, 0x399)),
                    Leaf(Expand2(0x1fc6, 0x397, 0x342))),
                  Node(0x1fcc,
                    Leaf(Expand3(0x1fc7, 0x397, 0x342, 0x399)),
                    Node(0x1fd0,
                      Leaf(Expand2(0x1fcc, 0x397, 0x399)),
                      Leaf(Run(0x1fd0, 0x1fd1, false, 8))))))))),
        Node(0xa733,
          Node(0x2170,
            Node(0x1fe6,
              Node(0x1fe0,
                Node(0x1fd6,
                  Node(0x1fd3,
                    Leaf(Expand3(0x1fd2, 0x399, 0x308, 0x300)),
                    Leaf(Expand3(0x1fd3, 0x399, 0x308, 0x301))),
                  Node(0x1fd7,
                    Leaf(Expand2(0x1fd6, 0x399, 0x342)),
                    Leaf(Expand3(0x1fd7, 0x399, 0x308, 0x342)))),
                Node(0x1fe3,
                  Node(0x1fe2,
                    Leaf(Run(0x1fe0, 0x1fe1, false, 8)),
                    Leaf(Expand3(0x1fe2, 0x3a5, 0x308, 0x300))),
                  Node(0x1fe4,
                    Leaf(Expand3(0x1fe3, 0x3a5, 0x308, 0x301)),
                    Node(0x1fe5,
                      Leaf(Expand2(0x1fe4, 0x3a1, 0x313)),
                      Leaf(Run(0x1fe5, 0x1fe5, false, 7)))))),
              Node(0x1ff4,
                Node(0x1ff2,
                  Node(0x1fe7,
                    Leaf(Expand2(0x1fe6, 0x3a5, 0x342)),
                    Leaf(Expand3(0x1fe7, 0x3a5, 0x308, 0x342))),
                  Node(0x1ff3,
                    Leaf(Expand2(0x1ff2, 0x1ffa, 0x399)),
                    Leaf(Expand2(0x1ff3, 0x3a9, 0x399)))),
                Node(0x1ff7,
                  Node(0x1ff6,
                    Leaf(Expand2(0x1ff4, 0x38f, 0x399)),
                    Leaf(Expand2(0x1ff6, 0x3a9, 0x342))),
                  Node(0x1ffc,
                    Leaf(Expand3(0x1ff7, 0x3a9, 0x342, 0x399)),
                    Node(0x214e,
                      Leaf(Expand2(0x1ffc, 0x3a9, 0x399)),
                      Leaf(Run(0x214e, 0x214e, false, -28))))))),
            Node(0x2c76,
              Node(0x2c61,
                Node(0x24d0,
                  Node(0x2184,
                    Leaf(Run(0x2170, 0x217f, false, -16)),
                    Leaf(Run(0x2184, 0x2184, false, -1))),
                  Node(0x2c30,
                    Leaf(Run(0x24d0, 0x24e9, false, -26)),
                    Leaf(Run(0x2c30, 0x2c5f, false, -48)))),
                Node(0x2c66,
                  Node(0x2c65,
                    Leaf(Run(0x2c61, 0x2c61, false, -1)),
                    Leaf(Run(0x2c65, 0x2c65, false, -10795))),
                  Node(0x2c68,
                    Leaf(Run(0x2c66, 0x2c66, false, -10792)),
                    Node(0x2c73,
                      Leaf(Run(0x2c68, 0x2c6c, true, -1)),
                      Leaf(Run(0x2c73, 0x2c73, false, -1)))))),
              Node(0x2d27,
                Node(0x2cec,
                  Node(0x2c81,
                    Leaf(Run(0x2c76, 0x2c76, false, -1)),
                    Leaf(Run(0x2c81, 0x2ce3, true, -1))),
                  Node(0x2cf3,
                    Leaf(Run(0x2cec, 0x2cee, true, -1)),
                    Node(0x2d00,
                      Leaf(Run(0x2cf3, 0x2cf3, false, -1)),
                      Leaf(Run(0x2d00, 0x2d25, false, -7264))))),
                Node(0xa641,
                  Node(0x2d2d,
                    Leaf(Run(0x2d27, 0x2d27, false, -7264)),
                    Leaf(Run(0x2d2d, 0x2d2d, false, -7264))),
                  Node(0xa681,
                    Leaf(Run(0xa641, 0xa66d, true, -1)),
                    Node(0xa723,
                      Leaf(Run(0xa681, 0xa69b, true, -1)),
                      Leaf(Run(0xa723, 0xa72f, true, -1)))))))),
          Node(0xfb04,
            Node(0xa7d1,
              Node(0xa791,
                Node(0xa77f,
                  Node(0xa77a,
                    Leaf(Run(0xa733, 0xa76f, true, -1)),
                    Leaf(Run(0xa77a, 0xa77c, true, -1))),
                  Node(0xa78c,
                    Leaf(Run(0xa77f, 0xa787, true, -1)),
                    Leaf(Run(0xa78c, 0xa78c, false, -1)))),
                Node(0xa797,
                  Node(0xa794,
                    Leaf(Run(0xa791, 0xa793, true, -1)),
                    Leaf(Run(0xa794, 0xa794, false, 48))),
                  Node(0xa7b5,
                    Leaf(Run(0xa797, 0xa7a9, true, -1)),
                    Node(0xa7c8,
                      Leaf(Run(0xa7b5, 0xa7c3, true, -1)),
                      Leaf(Run(0xa7c8, 0xa7ca, true, -1)))))),
              Node(0xab70,
                Node(0xa7f6,
                  Node(0xa7d7,
                    Leaf(Run(0xa7d1, 0xa7d1, false, -1)),
                    Leaf(Run(0xa7d7, 0xa7d9, true, -1))),
                  Node(0xab53,
                    Leaf(Run(0xa7f6, 0xa7f6, false, -1)),
                    Leaf(Run(0xab53, 0xab53, false, -928)))),
                Node(0xfb01,
                  Node(0xfb00,
                    Leaf(Run(0xab70, 0xabbf, false, -38864)),
                    Leaf(Expand2(0xfb00, 0x46, 0x46))),
                  Node(0xfb02,
                    Leaf(Expand2(0xfb01, 0x46, 0x49)),
                    Node(0xfb03,
                      Leaf(Expand2(0xfb02, 0x46, 0x4c)),
                      Leaf(Expand3(0xfb03, 0x46, 0x46, 0x49))))))),
            Node(0x10428,
              Node(0xfb14,
                Node(0xfb06,
                  Node(0xfb05,
                    Leaf(Expand3(0xfb04, 0x46, 0x46, 0x4c)),
                    Leaf(Expand2(0xfb05, 0x53, 0x54))),
                  Node(0xfb13,
                    Leaf(Expand2(0xfb06, 0x53, 0x54)),
                    Leaf(Expand2(0xfb13, 0x544, 0x546)))),
                Node(0xfb16,
                  Node(0xfb15,
                    Leaf(Expand2(0xfb14, 0x544, 0x535)),
                    Leaf(Expand2(0xfb15, 0x544, 0x53b))),
                  Node(0xfb17,
                    Leaf(Expand2(0xfb16, 0x54e, 0x546)),
                    Node(0xff41,
                      Leaf(Expand2(0xfb17, 0x544, 0x53d)),
                      Leaf(Run(0xff41, 0xff5a, false, -32)))))),
              Node(0x105bb,
                Node(0x10597,
                  Node(0x104d8,
                    Leaf(Run(0x10428, 0x1044f, false, -40)),
                    Leaf(Run(0x104d8, 0x104fb, false, -40))),
                  Node(0x105a3,
                    Leaf(Run(0x10597, 0x105a1, false, -39)),
                    Node(0x105b3,
                      Leaf(Run(0x105a3, 0x105b1, false, -39)),
                      Leaf(Run(0x105b3, 0x105b9, false, -39))))),
                Node(0x118c0,
                  Node(0x10cc0,
                    Leaf(Run(0x105bb, 0x105bc, false, -39)),
                    Leaf(Run(0x10cc0, 0x10cf2, false, -64))),
                  Node(0x16e60,
                    Leaf(Run(0x118c0, 0x118df, false, -32)),
                    Node(0x1e922,
                      Leaf(Run(0x16e60, 0x16e7f, false, -32)),
                      Leaf(Run(0x1e922, 0x1e943, false, -34)))))))))))

  /** Python's upper case of a few characters a fund code may hold. */
  lemma UpperExamples()
    ensures UpperText('i') == "I" && UpperText('\U{131}') == "I"
    ensures UpperText('\U{e7}') == "\U{c7}" && UpperText('\U{11f}') == "\U{11e}" && UpperText('\U{15f}') == "\U{15e}"
    ensures UpperText('\U{df}') == "SS" && UpperText('\U{fb01}') == "FI"
    ensures UpperText('\U{1fb3}') == "\U{391}\U{399}"
  {
  }

  /** `s.upper()`. */
  function Upper(s: string): string
  {
    if s == [] then [] else Upper(s[..|s| - 1]) + UpperText(s[|s| - 1])
  }

  lemma UpperOne(c: char)
    ensures Upper([c]) == UpperText(c)
  {
    assert [c][..0] == [];
  }

  /** Upper-casing works character by character. */
  lemma {:induction false} UpperConcat(a: string, b: string)
    ensures Upper(a + b) == Upper(a) + Upper(b)
  {
    if b != [] {
      var init := b[..|b| - 1];
      assert (a + b)[..|a + b| - 1] == a + init;
      UpperConcat(a, init);
    } else {
      assert a + b == a;
    }
  }

  lemma UpperTextOfUpperAlnum(c: char)
    requires IsUpperAlnum(c)
    ensures UpperText(c) == [c]
  {
  }

  /** Text already in `[A-Z0-9]` is its own upper case. */
  lemma {:induction false} UpperOfUpperAlnum(s: string)
    requires forall c :: c in s ==> IsUpperAlnum(c)
    ensures Upper(s) == s
  {
    if s != [] {
      var init := s[..|s| - 1];
      var last := s[|s| - 1];
      assert s == init + [last];
      assert forall c :: c in init ==> c in s;
      UpperOfUpperAlnum(init);
      assert last in s;
      UpperTextOfUpperAlnum(last);
      assert Upper(s) == Upper(init) + UpperText(last);
    }
  }

  /** Whitespace has no upper case. */
  lemma UpperTextOfSpace(c: char)
    requires IsSpace(c)
    ensures UpperText(c) == [c] && !IsUpperAlnum(c)
  {
    if c >= '\U{80}' {
      if '\U{2000}' <= c <= '\U{200a}' {
        UpperOfGeneralSpace(c);
      } else if '\U{2028}' <= c <= '\U{205f}' {
        UpperOfPunctuationSpace(c);
      } else {
        UpperOfOtherSpace(c);
      }
    }
  }

  lemma UpperOfOtherSpace(c: char)
    requires c == '\U{85}' || c == '\U{a0}' || c == '\U{1680}' || c == '\U{3000}'
    ensures Lookup(UpperTable, c) == [c]
  {
    if c == '\U{85}' {
      assert Lookup(UpperTable, '\U{85}') == ['\U{85}'];
    } else if c == '\U{a0}' {
      assert Lookup(UpperTable, '\U{a0}') == ['\U{a0}'];
    } else if c == '\U{1680}' {
      assert Lookup(UpperTable, '\U{1680}') == ['\U{1680}'];
    } else {
      assert Lookup(UpperTable, '\U{3000}') == ['\U{3000}'];
    }
  }

  lemma UpperOfPunctuationSpace(c: char)
    requires c == '\U{2028}' || c == '\U{2029}' || c == '\U{202f}' || c == '\U{205f}'
    ensures Lookup(UpperTable, c) == [c]
  {
    if c == '\U{2028}' {
      assert Lookup(UpperTable, '\U{2028}') == ['\U{2028}'];
    } else if c == '\U{2029}' {
      assert Lookup(UpperTable, '\U{2029}') == ['\U{2029}'];
    } else if c == '\U{202f}' {
      assert Lookup(UpperTable, '\U{202f}') == ['\U{202f}'];
    } else {
      assert Lookup(UpperTable, '\U{205f}') == ['\U{205f}'];
    }
  }

  lemma UpperOfGeneralSpace(c: char)
    requires '\U{2000}' <= c <= '\U{200a}'
    ensures Lookup(UpperTable, c) == [c]
  {
    if c <= '\U{2003}' {
      UpperOfWideSpace(c);
    } else if c <= '\U{2007}' {
      UpperOfNarrowSpace(c);
    } else {
      UpperOfThinSpace(c);
    }
  }

  lemma UpperOfWideSpace(c: char)
    requires '\U{2000}' <= c <= '\U{2003}'
    ensures Lookup(UpperTable, c) == [c]
  {
    if c == '\U{2000}' {
      assert Lookup(UpperTable, '\U{2000}') == ['\U{2000}'];
    } else if c == '\U{2001}' {
      assert Lookup(UpperTable, '\U{2001}') == ['\U{2001}'];
    } else if c == '\U{2002}' {
      assert Lookup(UpperTable, '\U{2002}') == ['\U{2002}'];
    } else {
      assert Lookup(UpperTable, '\U{2003}') == ['\U{2003}'];
    }
  }

  lemma UpperOfNarrowSpace(c: char)
    requires '\U{2004}' <= c <= '\U{2007}'
    ensures Lookup(UpperTable, c) == [c]
  {
    if c == '\U{2004}' {
      assert Lookup(UpperTable, '\U{2004}') == ['\U{2004}'];
    } else if c == '\U{2005}' {
      assert Lookup(UpperTable, '\U{2005}') == ['\U{2005}'];
    } else if c == '\U{2006}' {
      assert Lookup(UpperTable, '\U{2006}') == ['\U{2006}'];
    } else {
      assert Lookup(UpperTable, '\U{2007}') == ['\U{2007}'];
    }
  }

  lemma UpperOfThinSpace(c: char)
    requires '\U{2008}' <= c <= '\U{200a}'
    ensures Lookup(UpperTable, c) == [c]
  {
    if c == '\U{2008}' {
      assert Lookup(UpperTable, '\U{2008}') == ['\U{2008}'];
    } else if c == '\U{2009}' {
      assert Lookup(UpperTable, '\U{2009}') == ['\U{2009}'];
    } else {
      assert Lookup(UpperTable, '\U{200a}') == ['\U{200a}'];
    }
  }

  lemma UpperAlnumNotSpace(c: char)
    requires IsUpperAlnum(c)
    ensures !IsSpace(c)
  {
  }

  /** Text in `[A-Z0-9]` is its own strip. */
  lemma StripOfUpperAlnum(s: string)
    requires forall c :: c in s ==> IsUpperAlnum(c)
    ensures Strip(s) == s
  {
    if s != [] {
      assert s[0] in s && s[|s| - 1] in s;
      UpperAlnumNotSpace(s[0]);
      UpperAlnumNotSpace(s[|s| - 1]);
      StripByNoop(s, IsSpace);
    }
  }

  // ---------------------------------------------------------------- split

  /** Position of the first `c` in `s`, or `|s|` if there is none. */
  function IndexOf(s: string, c: char): (k: nat)
    ensures k <= |s|
    ensures k < |s| ==> s[k] == c
    ensures c !in s[..k]
  {
    if s == [] then 0
    else if s[0] == c then 0
    else
      var k := 1 + IndexOf(s[1..], c);
      assert s[..k] == [s[0]] + s[1..][..k - 1];
      k
  }

  /** `s.split(sep)` with an explicit one-character separator. */
  function Split(s: string, sep: char): (parts: seq<string>)
    ensures |parts| >= 1
    ensures forall i :: 0 <= i < |parts| ==> sep !in parts[i]
    decreases |s|
  {
    var k := IndexOf(s, sep);
    if k == |s| then
      assert s[..k] == s;
      [s]
    else [s[..k]] + Split(s[k + 1..], sep)
  }

  /** `sep.join(parts)`. */
  function Join(parts: seq<string>, sep: char): string
  {
    if parts == [] then ""
    else if |parts| == 1 then parts[0]
    else parts[0] + [sep] + Join(parts[1..], sep)
  }

  /** Splitting loses nothing: joining the pieces rebuilds the text. */
  lemma {:induction false} JoinSplit(s: string, sep: char)
    ensures Join(Split(s, sep), sep) == s
    decreases |s|
  {
    var k := IndexOf(s, sep);
    if k < |s| {
      var rest := s[k + 1..];
      calc {
        Join(Split(s, sep), sep);
      == { SplitAt(s, sep); }
        Join([s[..k]] + Split(rest, sep), sep);
      == { JoinCons(s[..k], Split(rest, sep), sep); }
        s[..k] + [sep] + Join(Split(rest, sep), sep);
      == { JoinSplit(rest, sep); }
        s[..k] + [sep] + rest;
      == { assert s == s[..k] + s[k..]; assert s[k..] == [sep] + rest; }
        s;
      }
    } else {
      SplitWhole(s, sep);
    }
  }

  lemma SplitWhole(s: string, sep: char)
    requires IndexOf(s, sep) == |s|
    ensures Split(s, sep) == [s]
  {
    assert s[..|s|] == s;
  }

  lemma SplitAt(s: string, sep: char)
    requires IndexOf(s, sep) < |s|
    ensures Split(s, sep) == [s[..IndexOf(s, sep)]] + Split(s[IndexOf(s, sep) + 1..], sep)
  {
  }

  lemma JoinCons(a: string, ps: seq<string>, sep: char)
    requires |ps| >= 1
    ensures Join([a] + ps, sep) == a + [sep] + Join(ps, sep)
  {
    assert ([a] + ps)[1..] == ps;
  }

  /** Pieces without the separator come back unchanged from a split of their join. */
  lemma {:induction false} SplitJoin(parts: seq<string>, sep: char)
    requires |parts| >= 1
    requires forall i :: 0 <= i < |parts| ==> sep !in parts[i]
    ensures Split(Join(parts, sep), sep) == parts
  {
    if |parts| == 1 {
      IndexOfAbsent(parts[0], sep);
      assert parts[0][..|parts[0]|] == parts[0];
    } else {
      var s := Join(parts, sep);
      var rest := Join(parts[1..], sep);
      assert parts == [parts[0]] + parts[1..];
      JoinCons(parts[0], parts[1..], sep);
      IndexOfAfterPrefix(parts[0], sep, rest);
      SplitAt(s, sep);
      assert s[..|parts[0]|] == parts[0];
      assert s[|parts[0]| + 1..] == rest;
      SplitJoin(parts[1..], sep);
    }
  }

  lemma IndexOfAbsent(s: string, c: char)
    requires c !in s
    ensures IndexOf(s, c) == |s|
  {
  }

  lemma {:induction false} IndexOfAfterPrefix(a: string, c: char, b: string)
    requires c !in a
    ensures IndexOf(a + [c] + b, c) == |a|
  {
    if a != [] {
      assert (a + [c] + b)[1..] == a[1..] + [c] + b;
      IndexOfAfterPrefix(a[1..], c, b);
    }
  }

  // ---------------------------------------------------------------- numbers

  function DigitValue(c: char): nat
    requires IsDigit(c)
  {
    c as int - '0' as int
  }

  function DigitsValue(s: string): nat
    requires AllDigits(s)
  {
    if s == [] then 0 else DigitsValue(s[..|s| - 1]) * 10 + DigitValue(s[|s| - 1])
  }

  function Pow10(n: nat): (p: nat)
    ensures p >= 1
  {
    if n == 0 then 1 else 10 * Pow10(n - 1)
  }

  function DigitChar(d: nat): (c: char)
    requires d < 10
    ensures IsDigit(c) && DigitValue(c) == d
  {
    ('0' as int + d) as char
  }

  /** `str(n)` for a natural number. */
  function NatText(n: nat): (s: string)
    ensures s != [] && AllDigits(s)
  {
    if n < 10 then [DigitChar(n)] else NatText(n / 10) + [DigitChar(n % 10)]
  }

  lemma {:induction false} NatTextValue(n: nat)
    ensures DigitsValue(NatText(n)) == n
  {
    if n >= 10 {
      NatTextValue(n / 10);
      var s := NatText(n);
      assert s[..|s| - 1] == NatText(n / 10);
    }
  }

  /** The value of digits with at most one decimal point, and no sign. */
  function ParseUnsigned(body: string): Option<real>
  {
    var k := IndexOf(body, '.');
    var whole := body[..k];
    var frac := if k < |body| then body[k + 1..] else "";
    if AllDigits(whole) && AllDigits(frac) && |whole| + |frac| > 0 then
      Some(DigitsValue(whole) as real + DigitsValue(frac) as real / Pow10(|frac|) as real)
    else None
  }

  /**
    `float(s)` for text made of an optional sign and ASCII digits with at
    most one decimal point (surrounding whitespace is ignored, as Python does).
   */
  function ParseFloat(s: string): Option<real>
  {
    var t := Strip(s);
    if t != [] && (t[0] == '+' || t[0] == '-') then
      match ParseUnsigned(t[1..])
      case Some(v) => Some(if t[0] == '-' then -v else v)
      case None => None
    else ParseUnsigned(t)
  }

  lemma ParseUnsignedNatText(n: nat)
    ensures ParseUnsigned(NatText(n)) == Some(n as real)
  {
    var s := NatText(n);
    assert '.' !in s;
    IndexOfAbsent(s, '.');
    assert s[..|s|] == s;
    NatTextValue(n);
  }

  /** `float(str(n)) == n` for every natural number. */
  lemma ParseFloatNatText(n: nat)
    ensures ParseFloat(NatText(n)) == Some(n as real)
  {
    var s := NatText(n);
    assert !IsSpace(s[0]) && !IsSpace(s[|s| - 1]) by {
      assert s[0] in s && s[|s| - 1] in s;
    }
    StripByNoop(s, IsSpace);
    assert s[0] != '+' && s[0] != '-' by {
      assert s[0] in s;
    }
    ParseUnsignedNatText(n);
  }
}
