/** `extractProductInfo`: find the product line of a message (the first
    line with a digit that is not the vehicle, SO, phone or weight line) and
    name the product by the first catalog mapping whose pattern matches it. */
module Product {
  import opened Options
  import opened Text
  import opened Patterns
  import opened Catalog

  /** The field values found in the whole message, whose lines are not the
      product line. */
  datatype Claims = Claims(vehicle: Option<string>, so: Option<string>, phone: Option<string>, weightFound: bool)

  function ClaimsOf(text: string): Claims {
    Claims(VehicleText(text), SoNumberText(text), PhoneNumberText(text), WeightText(text).Some?)
  }

  predicate Holds(claim: Option<string>, line: string) {
    claim.Some? && Contains(line, claim.value)
  }

  /** A trimmed line is skipped when it contains a found vehicle, SO or phone
      number, or when a weight was found and the line has a number followed
      by `MT` anywhere. */
  predicate Skipped(line: string, c: Claims) {
    Holds(c.vehicle, line) || Holds(c.so, line) || Holds(c.phone, line) || (c.weightFound && HasNumberMt(line))
  }

  /** A trimmed line that can be the product line. */
  predicate Candidate(line: string, c: Claims) {
    line != "" && !Skipped(line, c) && HasDigit(line)
  }

  /** Whether each line, trimmed, is a candidate. The `ensures` restates
      the comprehension; it is there for the solver, which reads the
      elements of a `seq` comprehension poorly. */
  function Verdicts(lines: seq<string>, c: Claims): (v: seq<bool>)
    ensures |v| == |lines|
    ensures forall k :: 0 <= k < |lines| ==> v[k] == Candidate(Trim(lines[k]), c)
  {
    seq(|lines|, k requires 0 <= k < |lines| => Candidate(Trim(lines[k]), c))
  }

  /** The first of `lines[i..]` whose verdict is set, trimmed. */
  function FirstMarked(lines: seq<string>, v: seq<bool>, i: nat): Option<string>
    requires i <= |lines| == |v|
    decreases |lines| - i
  {
    if i == |lines| then None
    else if v[i] then Some(Trim(lines[i]))
    else FirstMarked(lines, v, i + 1)
  }

  /** The first of `lines` that, trimmed, is a candidate, trimmed. */
  function ProductLineOf(lines: seq<string>, c: Claims): Option<string> {
    FirstMarked(lines, Verdicts(lines, c), 0)
  }

  /** From line `i` on, there is no marked line exactly when no line is
      marked. */
  lemma {:induction false} FirstMarkedNone(lines: seq<string>, v: seq<bool>, i: nat)
    requires i <= |lines| == |v|
    ensures FirstMarked(lines, v, i).None? <==> forall k :: i <= k < |lines| ==> !v[k]
    decreases |lines| - i
  {
    if i < |lines| && !v[i] {
      FirstMarkedNone(lines, v, i + 1);
    }
  }

  /** From line `i` on, the first marked line is the trimmed text of a
      marked line `k` with no marked line before it. */
  lemma {:induction false} FirstMarkedSome(lines: seq<string>, v: seq<bool>, i: nat)
    requires i <= |lines| == |v|
    requires FirstMarked(lines, v, i).Some?
    ensures exists k :: i <= k < |lines| && FirstMarked(lines, v, i).value == Trim(lines[k])
              && v[k] && forall j :: i <= j < k ==> !v[j]
    decreases |lines| - i
  {
    if v[i] {
      assert FirstMarked(lines, v, i).value == Trim(lines[i]);
    } else {
      FirstMarkedSome(lines, v, i + 1);
      var k :| i + 1 <= k < |lines| && FirstMarked(lines, v, i + 1).value == Trim(lines[k])
        && v[k] && forall j :: i + 1 <= j < k ==> !v[j];
      assert forall j :: i <= j < k ==> !v[j];
    }
  }

  /** There is no product line exactly when no trimmed line is a
      candidate. */
  lemma NoProductLine(lines: seq<string>, c: Claims)
    ensures ProductLineOf(lines, c).None? <==> forall k :: 0 <= k < |lines| ==> !Candidate(Trim(lines[k]), c)
  {
    FirstMarkedNone(lines, Verdicts(lines, c), 0);
  }

  /** The product line is the first line whose trimmed text is a
      candidate. */
  lemma ProductLineIsFirstCandidate(lines: seq<string>, c: Claims)
    ensures ProductLineOf(lines, c).Some? ==>
              exists k :: 0 <= k < |lines| && ProductLineOf(lines, c).value == Trim(lines[k])
                && Candidate(Trim(lines[k]), c)
                && forall j :: 0 <= j < k ==> !Candidate(Trim(lines[j]), c)
  {
    var v := Verdicts(lines, c);
    if ProductLineOf(lines, c).Some? {
      FirstMarkedSome(lines, v, 0);
      var k :| 0 <= k < |lines| && ProductLineOf(lines, c).value == Trim(lines[k])
        && v[k] && forall j :: 0 <= j < k ==> !v[j];
      assert Candidate(Trim(lines[k]), c);
    }
  }

  /** `extractProductInfo(text)`. */
  function ProductInfo(text: string): Option<string> {
    if text == "" then None
    else match ProductLineOf(SplitLines(text), ClaimsOf(text))
      case None => None
      case Some(line) => FirstProduct(ProductMappings, line)
  }

  /** A product is named only when the message has a product line and a
      mapping matches it; the name is that of the first such mapping. */
  lemma ProductInfoMeaning(text: string)
    ensures ProductInfo(text).Some? ==>
              text != "" && ProductLineOf(SplitLines(text), ClaimsOf(text)).Some?
              && exists k :: 0 <= k < |ProductMappings|
                   && AnyPatternMatches(ProductMappings[k], ProductLineOf(SplitLines(text), ClaimsOf(text)).value)
                   && ProductMappings[k].productName == ProductInfo(text).value
                   && forall j :: 0 <= j < k ==>
                        !AnyPatternMatches(ProductMappings[j], ProductLineOf(SplitLines(text), ClaimsOf(text)).value)
    ensures text != "" && ProductLineOf(SplitLines(text), ClaimsOf(text)).Some? ==>
              (ProductInfo(text).None? <==>
                 forall k :: 0 <= k < |ProductMappings| ==>
                   !AnyPatternMatches(ProductMappings[k], ProductLineOf(SplitLines(text), ClaimsOf(text)).value))
  {
    FoundProduct(text != "", ProductLineOf(SplitLines(text), ClaimsOf(text)), ProductInfo(text));
  }

  /** `ProductInfoMeaning` over any product line `found` and any result `r`
      computed from it as `ProductInfo` does. */
  lemma FoundProduct(nonEmpty: bool, found: Option<string>, r: Option<string>)
    requires r == if !nonEmpty then None else match found
                    case None => None
                    case Some(line) => FirstProduct(ProductMappings, line)
    ensures r.Some? ==>
              nonEmpty && found.Some?
              && exists k :: 0 <= k < |ProductMappings|
                   && AnyPatternMatches(ProductMappings[k], found.value)
                   && ProductMappings[k].productName == r.value
                   && forall j :: 0 <= j < k ==> !AnyPatternMatches(ProductMappings[j], found.value)
    ensures nonEmpty && found.Some? ==>
              (r.None? <==> forall k :: 0 <= k < |ProductMappings| ==> !AnyPatternMatches(ProductMappings[k], found.value))
  {
    if nonEmpty && found.Some? {
      FirstProductIsFirstMatch(ProductMappings, found.value);
    }
  }

  /** The loop over the lines: skip the empty and claimed lines, stop at the
      first remaining one with a digit. */
  method FindProductLine(lines: seq<string>, c: Claims) returns (productLine: Option<string>)
    ensures productLine == ProductLineOf(lines, c)
  {
    ghost var v := Verdicts(lines, c);
    productLine := None;
    var i := 0;
    while i < |lines|
      invariant 0 <= i <= |lines|
      invariant productLine.None? ==> ProductLineOf(lines, c) == FirstMarked(lines, v, i)
      invariant productLine.Some? ==> productLine == ProductLineOf(lines, c)
    {
      var trimmed := Trim(lines[i]);
      var skip := SkipLine(trimmed, c);
      if !skip && HasDigit(trimmed) {
        assert v[i];
        productLine := Some(trimmed);
        break;
      }
      assert !v[i];
      i := i + 1;
    }
  }

  /** An empty line, or one holding a field already found. */
  method SkipLine(trimmed: string, c: Claims) returns (skip: bool)
    ensures skip <==> trimmed == "" || Skipped(trimmed, c)
  {
    skip := trimmed == ""
      || (c.vehicle.Some? && Contains(trimmed, c.vehicle.value))
      || (c.so.Some? && Contains(trimmed, c.so.value))
      || (c.phone.Some? && Contains(trimmed, c.phone.value))
      || (c.weightFound && HasNumberMt(trimmed));
  }

  /** The nested loop over the catalog: the first mapping with a pattern
      that matches. */
  method MatchCatalog(catalog: seq<Mapping>, line: string) returns (r: Option<string>)
    ensures r == FirstProduct(catalog, line)
  {
    for i := 0 to |catalog|
      invariant FirstProduct(catalog, line) == FirstProduct(catalog[i..], line)
    {
      assert catalog[i..][0] == catalog[i] && catalog[i..][1..] == catalog[i + 1..];
      var mapping := catalog[i];
      for j := 0 to |mapping.patterns|
        invariant forall q :: 0 <= q < j ==> !Test(mapping.patterns[q], line)
      {
        if Test(mapping.patterns[j], line) {
          return Some(mapping.productName);
        }
      }
    }
    return None;
  }

  method ExtractProductInfo(text: string) returns (r: Option<string>)
    ensures r == ProductInfo(text)
  {
    if text == "" {
      return None;
    }
    var claims := Claims(VehicleText(text), SoNumberText(text), PhoneNumberText(text), WeightText(text).Some?);
    var productLine := FindProductLine(SplitLines(text), claims);
    if productLine.None? {
      return None;
    }
    r := MatchCatalog(ProductMappings, productLine.value);
  }

  /** The pattern `\b(n|c)\s*-?\s*9\b` names `C-9-24-24` the 9:24:24
      product, ahead of the mappings that follow it. */
  lemma CatalogExample()
    ensures FirstProduct(ProductMappings, "C-9-24-24") == Some("N 40 KG MAHADHAN CROPTEK 9:24:24")
  {
    var s := "C-9-24-24";
    var alt := [Edge] + NorC + DashGap + Word("9") + [Edge];
    assert alt == [Edge, One(AnyOf("nc")), Star(Ws), Opt(Lit('-')), Star(Ws), One(Lit('9')), Edge];
    assert MatchFrom(alt[6..], s, 3);
    assert MatchFrom(alt[5..], s, 2);
    assert MatchFrom(alt[4..], s, 2);
    assert MatchFrom(alt[3..], s, 1);
    assert MatchFrom(alt[2..], s, 1);
    assert MatchFrom(alt[1..], s, 0);
    assert MatchFrom(alt, s, 0);
    assert ProductMappings[0].patterns[0].alternatives[0] == alt;
    assert Test(ProductMappings[0].patterns[0], s);
  }
}
