/** `PRODUCT_MAPPINGS`: canonical product names, each with an ordered list of
    case-insensitive patterns for the ways the product is written.

    The patterns are kept as data: a pattern is a list of alternatives, an
    alternative a list of nodes matched left to right. An optional group
    `(x)?y` is written as the two alternatives `xy` and `y`, which the
    regular expression accepts on exactly the same texts; `-?` is an `Opt`
    node, `\s*` a `Star` node and `\b` an `Edge`. */
module Catalog {
  import opened Options
  import opened Text
  import Patterns

  /** The character classes the patterns use. */
  datatype Class =
    | Lit(c: char)         // one character, compared case-insensitively
    | AnyOf(cs: string)    // `(n|c)`: one of these, case-insensitively
    | Ws                   // `\s`
    | Sep                  // `[:\-.\s]`

  datatype Node = One(k: Class) | Opt(k: Class) | Star(k: Class) | Edge

  datatype Pattern = Pattern(alternatives: seq<seq<Node>>)

  datatype Mapping = Mapping(productName: string, patterns: seq<Pattern>)

  predicate InClass(k: Class, x: char) {
    match k
    case Lit(c) => LowerChar(x) == c
    case AnyOf(cs) => LowerChar(x) in cs
    case Ws => IsSpace(x)
    case Sep => x == ':' || x == '-' || x == '.' || IsSpace(x)
  }

  /** The nodes `p` match some prefix of `s[i..]`, trying every way a
      backtracking matcher would. */
  predicate MatchFrom(p: seq<Node>, s: string, i: nat)
    requires i <= |s|
    decreases |p|, |s| - i
  {
    if p == [] then true
    else match p[0]
      case One(k) => i < |s| && InClass(k, s[i]) && MatchFrom(p[1..], s, i + 1)
      case Opt(k) => (i < |s| && InClass(k, s[i]) && MatchFrom(p[1..], s, i + 1)) || MatchFrom(p[1..], s, i)
      case Star(k) => MatchFrom(p[1..], s, i) || (i < |s| && InClass(k, s[i]) && MatchFrom(p, s, i + 1))
      case Edge => Patterns.Boundary(s, i) && MatchFrom(p[1..], s, i)
  }

  /** Some start position at or after `i` where `p` matches. */
  predicate SearchFrom(p: seq<Node>, s: string, i: nat)
    requires i <= |s|
    decreases |s| - i
  {
    MatchFrom(p, s, i) || (i < |s| && SearchFrom(p, s, i + 1))
  }

  /** `pattern.test(s)`. */
  predicate Test(pat: Pattern, s: string) {
    exists a :: 0 <= a < |pat.alternatives| && SearchFrom(pat.alternatives[a], s, 0)
  }

  /** Some pattern of the mapping matches `s`. */
  predicate AnyPatternMatches(m: Mapping, s: string) {
    exists j :: 0 <= j < |m.patterns| && Test(m.patterns[j], s)
  }

  // Building blocks of the catalog.

  /** A literal word, one case-insensitive character at a time. */
  function Word(t: string): seq<Node>
  {
    seq(|t|, i requires 0 <= i < |t| => One(Lit(t[i])))
  }

  /** A word followed by more nodes matches at `i` exactly when the next
      `|t|` characters are the word's, ignoring case, and the rest matches
      after them. */
  lemma {:induction false} WordMatch(t: string, rest: seq<Node>, s: string, i: nat)
    requires i <= |s|
    ensures MatchFrom(Word(t) + rest, s, i) <==>
              i + |t| <= |s| && (forall j :: 0 <= j < |t| ==> LowerChar(s[i + j]) == t[j]) && MatchFrom(rest, s, i + |t|)
    decreases |t|
  {
    if t == [] {
      assert Word(t) + rest == rest;
    } else {
      var p := Word(t) + rest;
      assert p[0] == One(Lit(t[0])) && p[1..] == Word(t[1..]) + rest;
      if i < |s| {
        WordMatch(t[1..], rest, s, i + 1);
        if i + |t| <= |s| && (forall j :: 0 <= j < |t| ==> LowerChar(s[i + j]) == t[j]) {
          assert forall j :: 0 <= j < |t| - 1 ==> LowerChar(s[i + 1 + j]) == t[1..][j] by {
            forall j | 0 <= j < |t| - 1 ensures LowerChar(s[i + 1 + j]) == t[1..][j] {
              assert s[i + 1 + j] == s[i + (j + 1)];
            }
          }
        }
        if MatchFrom(p, s, i) {
          forall j | 0 <= j < |t| ensures LowerChar(s[i + j]) == t[j] {
            if j > 0 { assert t[j] == t[1..][j - 1] && s[i + j] == s[i + 1 + (j - 1)]; }
          }
        }
      }
    }
  }

  /** `\s*`. */
  const Gap: seq<Node> := [Star(Ws)]
  /** `\s*-?\s*`. */
  const DashGap: seq<Node> := [Star(Ws), Opt(Lit('-')), Star(Ws)]
  /** `\s*[:\-.\s]\s*`. */
  const SepGap: seq<Node> := [Star(Ws), One(Sep), Star(Ws)]

  /** `\b body \b`. */
  function Re(body: seq<Node>): Pattern { Pattern([[Edge] + body + [Edge]]) }

  /** `\b (opt)? body \b`. */
  function ReOpt(opt: seq<Node>, body: seq<Node>): Pattern {
    Pattern([[Edge] + opt + body + [Edge], [Edge] + body + [Edge]])
  }

  const NorC: seq<Node> := [One(AnyOf("nc"))]

  const ProductMappings: seq<Mapping> := [
    Mapping("N 40 KG MAHADHAN CROPTEK 9:24:24", [
      Re(NorC + DashGap + Word("9")),                                       // \b(n|c)\s*-?\s*9\b
      ReOpt(Word("croptek") + Gap, Word("n") + Gap + Word("9")),            // \b(croptek\s*)?n\s*9\b
      Re(Word("9") + SepGap + Word("24") + SepGap + Word("24")),            // \b9\s*[:\-.\s]\s*24\s*[:\-.\s]\s*24\b
      Re(Word("92424")),                                                    // \b92424\b
      Re(Word("c") + DashGap + Word("9") + DashGap + Word("24") + DashGap + Word("24"))
    ]),
    Mapping("N 50 KG MAHADHAN SMARTEK NPKS 20:20:0:13", [
      ReOpt(Word("smartek") + Gap, Word("s") + DashGap + Word("20")),       // \b(smartek\s*)?s\s*-?\s*20\b
      Re(Word("20") + SepGap + Word("20") + SepGap + Word("0") + SepGap + Word("13")),
      Re(Word("2020013")),
      Re(Word("s") + DashGap + Word("20") + DashGap + Word("20") + DashGap + Word("0") + DashGap + Word("13"))
    ]),
    Mapping("N 50 KG MAHADHAN 24:24:0", [
      Re(Word("24") + SepGap + Word("24") + SepGap + Word("0")),
      Re(Word("24240"))
    ]),
    Mapping("N 40 KG MAHADHAN CROPTEK NPK 11:30:14", [
      Re(NorC + DashGap + Word("11")),
      Re(Word("11") + SepGap + Word("30") + SepGap + Word("14")),
      Re(Word("113014"))
    ]),
    Mapping("N 40 KG MAHADHAN CROPTEK NPK 8:21:21", [
      Re(NorC + DashGap + Word("8")),
      Re(Word("8") + SepGap + Word("21") + SepGap + Word("21")),
      Re(Word("82121")),
      Re([One(AnyOf("cn"))] + DashGap + Word("8") + DashGap + Word("21") + DashGap + Word("21"))
    ]),
    Mapping("N 50 KG MAHADHAN SMARTEK NPK 10:26:26", [
      ReOpt(Word("smartek") + Gap, Word("s") + DashGap + Word("10")),
      Re(Word("10") + SepGap + Word("26") + SepGap + Word("26")),
      Re(Word("102626")),
      Re(Word("1026")),
      Re(Word("10") + DashGap + Word("26"))
    ]),
    Mapping("N 50 KG MAHADHAN SMARTEK NPKS 16:20:0:13", [
      ReOpt(Word("smartek") + Gap, Word("s") + DashGap + Word("16")),
      Re(Word("16") + SepGap + Word("20") + SepGap + Word("0") + SepGap + Word("13")),
      Re(Word("1620013"))
    ])
  ]

  /** The first mapping, in catalog order, with a pattern that matches `line`. */
  function FirstProduct(catalog: seq<Mapping>, line: string): (r: Option<string>)
    decreases |catalog|
  {
    if catalog == [] then None
    else if AnyPatternMatches(catalog[0], line) then Some(catalog[0].productName)
    else FirstProduct(catalog[1..], line)
  }

  /** First match wins: the product found is the name of a matching mapping
      that no earlier mapping precedes, and none is found only when no
      mapping matches. */
  lemma {:induction false} FirstProductIsFirstMatch(catalog: seq<Mapping>, line: string)
    ensures FirstProduct(catalog, line).None? <==>
              forall k :: 0 <= k < |catalog| ==> !AnyPatternMatches(catalog[k], line)
    ensures FirstProduct(catalog, line).Some? ==>
              exists k :: 0 <= k < |catalog| && AnyPatternMatches(catalog[k], line)
                && catalog[k].productName == FirstProduct(catalog, line).value
                && forall j :: 0 <= j < k ==> !AnyPatternMatches(catalog[j], line)
    decreases |catalog|
  {
    if catalog != [] && !AnyPatternMatches(catalog[0], line) {
      FirstProductIsFirstMatch(catalog[1..], line);
      if FirstProduct(catalog, line).Some? {
        var k :| 0 <= k < |catalog[1..]| && AnyPatternMatches(catalog[1..][k], line)
          && catalog[1..][k].productName == FirstProduct(catalog, line).value
          && forall j :: 0 <= j < k ==> !AnyPatternMatches(catalog[1..][j], line);
        assert AnyPatternMatches(catalog[k + 1], line);
        forall j | 0 <= j < k + 1 ensures !AnyPatternMatches(catalog[j], line) {
          if j > 0 { assert catalog[j] == catalog[1..][j - 1]; }
        }
      } else {
        forall k | 0 <= k < |catalog| ensures !AnyPatternMatches(catalog[k], line) {
          if k > 0 { assert catalog[k] == catalog[1..][k - 1]; }
        }
      }
    }
  }
}
