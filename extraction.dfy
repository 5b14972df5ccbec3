/** The two field-extraction strategies, `extractDataFromMessage` (whole
    message) and `extractDataByLines` (line by line, first line wins), and
    the merge that prefers the first. Each strategy is a specification
    function and a method that builds the result step by step, as the
    source does. */
module Extraction {
  import opened Options
  import opened Text
  import opened Patterns
  import opened Records

  // ---------------------------------------------------------------------
  // Sorting ten-digit numbers into the phone and SO buckets

  datatype Buckets = Buckets(phone: Option<string>, so: Option<string>)

  /** One turn of the loop over the ten-digit numbers: a number starting
      with 4-9 fills an empty phone bucket, otherwise one starting with 0-3
      fills an empty SO bucket. */
  function SortStep(b: Buckets, t: string): Buckets {
    if |t| > 0 && '4' <= t[0] <= '9' && !Truthy(b.phone) then b.(phone := Some(t))
    else if |t| > 0 && '0' <= t[0] <= '3' && !Truthy(b.so) then b.(so := Some(t))
    else b
  }

  function SortTokens(tokens: seq<string>, b: Buckets): Buckets
    decreases |tokens|
  {
    if tokens == [] then b else SortTokens(tokens[1..], SortStep(b, tokens[0]))
  }

  /** The value a first-wins bucket ends with: what it already held if that
      was non-empty, otherwise the first candidate, if any. */
  function KeepOr(current: Option<string>, first: Option<string>): Option<string> {
    if Truthy(current) then current else if first.Some? then first else current
  }

  /** Each bucket receives the first number of its class unless it was
      already filled; a number never reaches both buckets, and later
      numbers never overwrite earlier ones. */
  lemma {:induction false} SortTokensFirstWins(tokens: seq<string>, b: Buckets)
    ensures SortTokens(tokens, b) ==
              Buckets(KeepOr(b.phone, FirstWithLead(tokens, PhoneLead)), KeepOr(b.so, FirstWithLead(tokens, SoLead)))
    decreases |tokens|
  {
    if tokens != [] {
      SortTokensFirstWins(tokens[1..], SortStep(b, tokens[0]));
    }
  }

  /** The loop of `extractDataFromMessage` and `extractDataByLines` over the
      ten-digit numbers of a text. */
  method SortTenDigitTokens(tokens: seq<string>, phone0: Option<string>, so0: Option<string>)
    returns (phone: Option<string>, so: Option<string>)
    ensures Buckets(phone, so) == SortTokens(tokens, Buckets(phone0, so0))
    ensures phone == KeepOr(phone0, FirstWithLead(tokens, PhoneLead))
    ensures so == KeepOr(so0, FirstWithLead(tokens, SoLead))
  {
    phone, so := phone0, so0;
    for i := 0 to |tokens|
      invariant SortTokens(tokens, Buckets(phone0, so0)) == SortTokens(tokens[i..], Buckets(phone, so))
    {
      assert tokens[i..][1..] == tokens[i + 1..];
      var t := tokens[i];
      if |t| > 0 && '4' <= t[0] <= '9' && !Truthy(phone) {
        phone := Some(t);
      } else if |t| > 0 && '0' <= t[0] <= '3' && !Truthy(so) {
        so := Some(t);
      }
    }
    SortTokensFirstWins(tokens, Buckets(phone0, so0));
  }

  // ---------------------------------------------------------------------
  // The whole-message strategy

  /** Strip the first vehicle number found in a destination, if any. */
  function CleanDestination(d: string): string {
    match VehicleText(d)
    case None => d
    case Some(v) => Trim(RemoveFirst(d, v))
  }

  /** The destination a line yields: the text before its number-and-`MT`,
      trimmed and without a vehicle number, when the line matches both the
      weight pattern and the destination pattern. */
  function DestinationOfLine(line: string): Option<string> {
    if WeightText(line).None? then None
    else match DestinationBeforeWeight(line)
      case None => None
      case Some(g) => Some(CleanDestination(Trim(g)))
  }

  /** The destination each line yields. The `ensures` restates the
      comprehension; it is there for the solver, which reads the elements
      of a `seq` comprehension poorly. */
  function LineDestinations(lines: seq<string>): (v: seq<Option<string>>)
    ensures |v| == |lines| && forall k :: 0 <= k < |lines| ==> v[k] == DestinationOfLine(lines[k])
  {
    seq(|lines|, k requires 0 <= k < |lines| => DestinationOfLine(lines[k]))
  }

  /** The destination of the first line that yields one. */
  function DestinationOf(lines: seq<string>): (d: Option<string>)
    ensures d.None? <==> forall k :: 0 <= k < |lines| ==> DestinationOfLine(lines[k]).None?
    ensures forall k :: 0 <= k < |lines| && DestinationOfLine(lines[k]).Some? && NoDestinationBefore(lines, k) ==>
              d == DestinationOfLine(lines[k])
  {
    var v := LineDestinations(lines);
    assert forall k :: 0 <= k < |lines| && NoDestinationBefore(lines, k) ==> NoneBefore(v, k);
    FirstSome(v)
  }

  /** No line before the `k`-th yields a destination. */
  predicate NoDestinationBefore(lines: seq<string>, k: int)
    requires k <= |lines|
  {
    forall j :: 0 <= j < k ==> DestinationOfLine(lines[j]).None?
  }

  /** `extractDataFromMessage(text)`: null for an empty text; otherwise the
      vehicle, weight and destination patterns applied to the whole text and
      the first phone and the first SO number among all its ten-digit
      numbers. */
  function WholeMessage(text: string): (r: Option<Record>)
    ensures r.None? <==> text == ""
    ensures r.Some? ==> r.value.phoneNum == PhoneNumberText(text) && r.value.soNo == SoNumberText(text)
    ensures r.Some? ==> r.value.vehicleNum == VehicleText(text) && r.value.weight == WeightText(text)
    ensures r.Some? ==> r.value.destination == DestinationOf(SplitLines(text))
    ensures r.Some? ==> r.value.driverLicense == None && r.value.driverName == None && r.value.productType == None
  {
    if text == "" then None
    else
      var b := SortTokens(TenDigitTokens(text), Buckets(None, None));
      SortTokensFirstWins(TenDigitTokens(text), Buckets(None, None));
      FirstTokenIsLeadNumber(text, 0, PhoneLead);
      FirstTokenIsLeadNumber(text, 0, SoLead);
      Some(Empty.(vehicleNum := VehicleText(text), destination := DestinationOf(SplitLines(text)),
                  weight := WeightText(text), soNo := b.so, phoneNum := b.phone))
  }

  method ExtractDataFromMessage(text: string) returns (r: Option<Record>)
    ensures r == WholeMessage(text)
  {
    if text == "" {
      return None;
    }
    var vehicle := VehicleText(text);
    var phone, so := SortTenDigitTokens(TenDigitTokens(text), None, None);
    var weight := WeightText(text);
    var lines := SplitLines(text);
    ghost var v := LineDestinations(lines);
    var destination: Option<string> := None;
    var i := 0;
    while i < |lines|
      invariant 0 <= i <= |lines|
      invariant destination.None? ==> DestinationOf(lines) == FirstSome(v[i..])
      invariant destination.Some? ==> destination == DestinationOf(lines)
    {
      assert v[i..][0] == v[i] && v[i..][1..] == v[i + 1..];
      if WeightText(lines[i]).Some? {
        var m := DestinationBeforeWeight(lines[i]);
        if m.Some? {
          destination := Some(CleanDestination(Trim(m.value)));
          break;
        }
      }
      i := i + 1;
    }
    assert destination.None? ==> v[i..] == [];
    r := Some(Empty.(vehicleNum := vehicle, destination := destination, weight := weight,
                     soNo := so, phoneNum := phone));
  }

  // ---------------------------------------------------------------------
  // The per-line strategy

  /** The ten-digit numbers of each line, in order. */
  function LineTokens(lines: seq<string>): seq<string> {
    if lines == [] then [] else LineTokens(lines[..|lines| - 1]) + TenDigitTokens(lines[|lines| - 1])
  }

  /** The first `Some` among `xs`. */
  function FirstSome(xs: seq<Option<string>>): (r: Option<string>)
    ensures r.None? <==> forall k :: 0 <= k < |xs| ==> xs[k].None?
    ensures forall k :: 0 <= k < |xs| && xs[k].Some? && NoneBefore(xs, k) ==> r == xs[k]
  {
    if xs == [] then None
    else if xs[0].Some? then xs[0]
    else
      var r := FirstSome(xs[1..]);
      assert forall k :: 1 <= k < |xs| ==> xs[k] == xs[1..][k - 1];
      assert forall k :: 1 <= k < |xs| && NoneBefore(xs, k) ==> NoneBefore(xs[1..], k - 1);
      r
  }

  /** Every entry before the `k`-th is `None`. */
  predicate NoneBefore(xs: seq<Option<string>>, k: int)
    requires k <= |xs|
  {
    forall j :: 0 <= j < k ==> xs[j].None?
  }

  function VehicleTexts(lines: seq<string>): seq<Option<string>> {
    seq(|lines|, k requires 0 <= k < |lines| => VehicleText(lines[k]))
  }

  function WeightTexts(lines: seq<string>): seq<Option<string>> {
    seq(|lines|, k requires 0 <= k < |lines| => WeightText(lines[k]))
  }

  /** The vehicle block of the loop of `extractDataByLines`. */
  function StepVehicle(r: Record, line: string): Record {
    if !Truthy(r.vehicleNum) && VehicleText(line).Some? then r.(vehicleNum := VehicleText(line)) else r
  }

  /** The ten-digit-number block. */
  function StepNumbers(r: Record, line: string): Record {
    var b := SortTokens(TenDigitTokens(line), Buckets(r.phoneNum, r.soNo));
    r.(phoneNum := b.phone, soNo := b.so)
  }

  /** The first weight block. */
  function StepWeight(r: Record, line: string): Record {
    if !Truthy(r.weight) && WeightText(line).Some? then r.(weight := WeightText(line)) else r
  }

  /** The second weight block, which would also take the destination. It
      tests `!result.weight` after the first block has filled the weight
      whenever the line has one, so it never fires. */
  function StepWeightDestination(r: Record, line: string): Record {
    if WeightText(line).Some? && !Truthy(r.weight) then
      var r1 := r.(weight := WeightText(line));
      if Truthy(r1.destination) then r1
      else match DestinationBeforeWeight(line)
        case None => r1
        case Some(g) => r1.(destination := Some(CleanDestination(Trim(g))))
    else r
  }

  /** One pass of the loop of `extractDataByLines` over a line. */
  function LineStep(r: Record, line: string): Record {
    StepWeightDestination(StepWeight(StepNumbers(StepVehicle(r, line), line), line), line)
  }

  /** A weight or vehicle number the patterns find is never empty. */
  predicate NullOrFilled(v: Option<string>) { v.None? || Truthy(v) }

  /** What one line does to the record: the vehicle number and the weight
      are taken from the line only when not yet set, the phone and SO
      numbers are sorted first-wins, and nothing else changes; in
      particular the destination block never fires. */
  lemma LineStepEffect(r: Record, line: string)
    requires NullOrFilled(r.vehicleNum) && NullOrFilled(r.weight)
    ensures LineStep(r, line).vehicleNum == if r.vehicleNum.Some? then r.vehicleNum else VehicleText(line)
    ensures LineStep(r, line).weight == if r.weight.Some? then r.weight else WeightText(line)
    ensures LineStep(r, line).phoneNum == KeepOr(r.phoneNum, FirstWithLead(TenDigitTokens(line), PhoneLead))
    ensures LineStep(r, line).soNo == KeepOr(r.soNo, FirstWithLead(TenDigitTokens(line), SoLead))
    ensures LineStep(r, line).destination == r.destination
    ensures LineStep(r, line).driverLicense == r.driverLicense && LineStep(r, line).driverName == r.driverName
  {
    var r1 := StepVehicle(r, line);
    var r2 := StepNumbers(r1, line);
    SortTokensFirstWins(TenDigitTokens(line), Buckets(r1.phoneNum, r1.soNo));
    var r3 := StepWeight(r2, line);
    assert WeightText(line).Some? ==> Truthy(r3.weight);
    assert LineStep(r, line) == r3;
  }

  /** The result after the loop has seen `lines`. */
  function ByLinesFold(lines: seq<string>): Record {
    if lines == [] then Empty
    else LineStep(ByLinesFold(lines[..|lines| - 1]), lines[|lines| - 1])
  }

  lemma {:induction false} FirstWithLeadAppend(a: seq<string>, b: seq<string>, lead: Lead)
    ensures FirstWithLead(a + b, lead) == if FirstWithLead(a, lead).Some? then FirstWithLead(a, lead) else FirstWithLead(b, lead)
    decreases |a|
  {
    if a == [] {
      assert a + b == b;
    } else {
      assert (a + b)[0] == a[0] && (a + b)[1..] == a[1..] + b;
      FirstWithLeadAppend(a[1..], b, lead);
    }
  }

  lemma {:induction false} FirstSomeSnoc(xs: seq<Option<string>>, x: Option<string>)
    ensures FirstSome(xs + [x]) == if FirstSome(xs).Some? then FirstSome(xs) else x
    decreases |xs|
  {
    if xs != [] {
      assert (xs + [x])[0] == xs[0] && (xs + [x])[1..] == xs[1..] + [x];
      FirstSomeSnoc(xs[1..], x);
    }
  }

  lemma TextsSnoc(lines: seq<string>)
    requires lines != []
    ensures VehicleTexts(lines) == VehicleTexts(lines[..|lines| - 1]) + [VehicleText(lines[|lines| - 1])]
    ensures WeightTexts(lines) == WeightTexts(lines[..|lines| - 1]) + [WeightText(lines[|lines| - 1])]
  {
  }

  /** A bucket filled first-wins by two lists in turn holds the first
      number of its class over both. */
  lemma KeepOrAppend(a: seq<string>, b: seq<string>, lead: Lead)
    ensures KeepOr(FirstWithLead(a, lead), FirstWithLead(b, lead)) == FirstWithLead(a + b, lead)
  {
    FirstWithLeadAppend(a, b, lead);
  }

  /** First line wins: after any number of lines, the vehicle number and the
      weight are those of the first line that has one, the phone and SO
      numbers are the first of their class over all lines' ten-digit
      numbers, and the destination and driver fields remain null. */
  lemma {:induction false} ByLinesFoldFirstWins(lines: seq<string>)
    ensures ByLinesFold(lines).vehicleNum == FirstSome(VehicleTexts(lines))
    ensures ByLinesFold(lines).weight == FirstSome(WeightTexts(lines))
    ensures ByLinesFold(lines).phoneNum == FirstWithLead(LineTokens(lines), PhoneLead)
    ensures ByLinesFold(lines).soNo == FirstWithLead(LineTokens(lines), SoLead)
    ensures ByLinesFold(lines).destination == None
    ensures ByLinesFold(lines).driverLicense == None && ByLinesFold(lines).driverName == None
    ensures NullOrFilled(ByLinesFold(lines).vehicleNum) && NullOrFilled(ByLinesFold(lines).weight)
    decreases |lines|
  {
    if lines != [] {
      var init := lines[..|lines| - 1];
      var line := lines[|lines| - 1];
      ByLinesFoldFirstWins(init);
      var r := ByLinesFold(init);
      LineStepEffect(r, line);
      TextsSnoc(lines);
      FirstSomeSnoc(VehicleTexts(init), VehicleText(line));
      FirstSomeSnoc(WeightTexts(init), WeightText(line));
      assert LineTokens(lines) == LineTokens(init) + TenDigitTokens(line);
      KeepOrAppend(LineTokens(init), TenDigitTokens(line), PhoneLead);
      KeepOrAppend(LineTokens(init), TenDigitTokens(line), SoLead);
    }
  }

  /** `extractDataByLines(text)`: the loop over the trimmed non-empty lines. */
  function ByLines(text: string): (r: Record)
    ensures r.vehicleNum == FirstSome(VehicleTexts(NonEmptyTrimmedLines(text)))
    ensures r.weight == FirstSome(WeightTexts(NonEmptyTrimmedLines(text)))
    ensures r.phoneNum == FirstWithLead(LineTokens(NonEmptyTrimmedLines(text)), PhoneLead)
    ensures r.soNo == FirstWithLead(LineTokens(NonEmptyTrimmedLines(text)), SoLead)
    ensures r.destination == None && r.driverLicense == None && r.driverName == None
  {
    ByLinesFoldFirstWins(NonEmptyTrimmedLines(text));
    ByLinesFold(NonEmptyTrimmedLines(text))
  }

  /** The body of the loop of `extractDataByLines`: the four blocks in turn. */
  method ApplyLine(r0: Record, line: string) returns (r: Record)
    ensures r == LineStep(r0, line)
  {
    r := r0;
    // Vehicle number
    if !Truthy(r.vehicleNum) {
      var vehicle := VehicleText(line);
      if vehicle.Some? {
        r := r.(vehicleNum := vehicle);
      }
    }
    assert r == StepVehicle(r0, line);
    ghost var r1 := r;
    // Ten-digit numbers of the line
    var phone, so := SortTenDigitTokens(TenDigitTokens(line), r.phoneNum, r.soNo);
    r := r.(phoneNum := phone, soNo := so);
    assert r == StepNumbers(r1, line);
    ghost var r2 := r;
    // Weight
    if !Truthy(r.weight) {
      var weight := WeightText(line);
      if weight.Some? {
        r := r.(weight := weight);
      }
    }
    assert r == StepWeight(r2, line);
    // Weight and destination from the same line
    var weight := WeightText(line);
    if weight.Some? && !Truthy(r.weight) {
      r := r.(weight := weight);
      if !Truthy(r.destination) {
        var d := DestinationBeforeWeight(line);
        match d {
          case Some(g) => r := r.(destination := Some(CleanDestination(Trim(g))));
          case None =>
        }
      }
    }
  }

  method ExtractDataByLines(text: string) returns (r: Record)
    ensures r == ByLines(text)
  {
    r := FoldLines(NonEmptyTrimmedLines(text));
  }

  /** The loop over the trimmed non-empty lines. */
  method FoldLines(lines: seq<string>) returns (r: Record)
    ensures r == ByLinesFold(lines)
  {
    r := Empty;
    for i := 0 to |lines|
      invariant r == ByLinesFold(lines[..i])
    {
      ByLinesFoldStep(lines, i);
      r := ApplyLine(r, lines[i]);
    }
    assert lines[..|lines|] == lines;
  }

  lemma ByLinesFoldStep(lines: seq<string>, i: nat)
    requires i < |lines|
    ensures ByLinesFold(lines[..i + 1]) == LineStep(ByLinesFold(lines[..i]), lines[i])
  {
    assert lines[..i + 1][..i] == lines[..i];
  }

  // ---------------------------------------------------------------------
  // The merge in the command flow

  /** The original message's record: for each of the five transaction
      fields the whole-message value when it is non-empty, otherwise the
      per-line value when that is non-empty, otherwise null; the driver
      fields null and the product as found so far. */
  function MergeExtractions(whole: Record, lines: Record, product: Option<string>): (r: Record)
    ensures forall f :: f in TransactionFields && Truthy(Get(whole, f)) ==> Get(r, f) == Get(whole, f)
    ensures forall f :: f in TransactionFields && !Truthy(Get(whole, f)) && Truthy(Get(lines, f)) ==> Get(r, f) == Get(lines, f)
    ensures forall f :: f in TransactionFields && !Truthy(Get(whole, f)) && !Truthy(Get(lines, f)) ==> Get(r, f) == None
    ensures r.driverLicense == None && r.driverName == None && r.productType == product
  {
    Record(OrElse(whole.vehicleNum, lines.vehicleNum), OrElse(whole.destination, lines.destination),
           OrElse(whole.weight, lines.weight), OrElse(whole.soNo, lines.soNo),
           OrElse(whole.phoneNum, lines.phoneNum), None, None, product)
  }
}
