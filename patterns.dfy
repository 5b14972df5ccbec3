/** The field-matching rules of `dataPatterns`, each written as an explicit
    scanner with JavaScript's regular-expression semantics: `\b` is a change
    between a `\w` and a non-`\w` character, `match` without the `g` flag finds
    the leftmost match, and with the `g` flag every match, left to right, the
    search resuming where the previous match ended. */
module Patterns {
  import opened Options
  import opened Text

  predicate WordAt(s: string, i: int) { 0 <= i < |s| && IsWordChar(s[i]) }

  /** `\b` at position `i`. */
  predicate Boundary(s: string, i: int) { WordAt(s, i - 1) != WordAt(s, i) }

  datatype Kind = Digits | Letters | Spaces

  predicate OfKind(k: Kind, c: char) {
    match k
    case Digits => IsDigit(c)
    case Letters => IsAsciiLetter(c)
    case Spaces => IsSpace(c)
  }

  predicate AllOf(t: string, k: Kind) { forall p :: 0 <= p < |t| ==> OfKind(k, t[p]) }

  /** The end of the longest run of `k` characters from `i`: what a greedy
      `\d+`, `[A-Za-z]+` or `\s*` consumes. */
  function RunEnd(s: string, i: nat, k: Kind): (j: nat)
    requires i <= |s|
    ensures i <= j <= |s|
    ensures forall p :: i <= p < j ==> OfKind(k, s[p])
    ensures j == |s| || !OfKind(k, s[j])
    decreases |s| - i
  {
    if i < |s| && OfKind(k, s[i]) then RunEnd(s, i + 1, k) else i
  }

  /** A run is determined by where it starts and where it stops. */
  lemma {:induction false} RunEndIs(s: string, i: nat, j: nat, k: Kind)
    requires i <= j <= |s|
    requires forall p :: i <= p < j ==> OfKind(k, s[p])
    requires j == |s| || !OfKind(k, s[j])
    ensures RunEnd(s, i, k) == j
    decreases j - i
  {
    if i < j { RunEndIs(s, i + 1, j, k); }
  }

  // ---------------------------------------------------------------------
  // vehicleNumber: /\b[A-Za-z]{2}\d{1,2}[A-Za-z]{1,2}\d{3,4}\b/

  /** `s[lo..hi]` is all of kind `k`. */
  predicate AllIn(s: string, lo: nat, hi: nat, k: Kind)
    requires lo <= hi <= |s|
  {
    forall p :: lo <= p < hi ==> OfKind(k, s[p])
  }

  /** `s[i..e]` is two letters, `a` digits, `b` letters and `c` digits. */
  predicate VehicleParts(s: string, i: nat, e: nat, a: nat, b: nat, c: nat) {
    && 1 <= a <= 2 && 1 <= b <= 2 && 3 <= c <= 4 && e == i + 2 + a + b + c && e <= |s|
    && AllIn(s, i, i + 2, Letters) && AllIn(s, i + 2, i + 2 + a, Digits)
    && AllIn(s, i + 2 + a, i + 2 + a + b, Letters) && AllIn(s, i + 2 + a + b, e, Digits)
  }

  /** `[A-Za-z]{2}\d{1,2}[A-Za-z]{1,2}\d{3,4}` matches `s[i..e]` exactly. */
  ghost predicate VehicleShape(s: string, i: nat, e: nat) {
    exists a: nat, b: nat, c: nat :: VehicleParts(s, i, e, a, b, c)
  }

  /** The vehicle pattern tried at `i`: where the match ends. A bounded
      repetition that stops short of the end of its run leaves a character
      the next item cannot match, so each one takes its whole run. */
  function VehicleEndAt(s: string, i: nat): (e: Option<nat>)
    requires i <= |s|
    ensures e.Some? ==> i + 6 <= e.value <= |s| && Boundary(s, i) && Boundary(s, e.value)
  {
    if i + 2 > |s| || !IsAsciiLetter(s[i]) || !IsAsciiLetter(s[i + 1]) || !Boundary(s, i) then None
    else
      var d1 := RunEnd(s, i + 2, Digits);
      var l := RunEnd(s, d1, Letters);
      var d2 := RunEnd(s, l, Digits);
      if 1 <= d1 - (i + 2) <= 2 && 1 <= l - d1 <= 2 && 3 <= d2 - l <= 4 && Boundary(s, d2) then Some(d2)
      else None
  }

  /** What the scanner finds at `i` is a match of the vehicle pattern. */
  lemma VehicleEndAtSound(s: string, i: nat)
    requires i <= |s| && VehicleEndAt(s, i).Some?
    ensures VehicleShape(s, i, VehicleEndAt(s, i).value)
  {
    var d1 := RunEnd(s, i + 2, Digits);
    var l := RunEnd(s, d1, Letters);
    var d2 := RunEnd(s, l, Digits);
    assert VehicleParts(s, i, d2, d1 - (i + 2), l - d1, d2 - l);
  }

  /** Every match of the vehicle pattern at `i` is the one the scanner finds. */
  lemma VehicleEndAtComplete(s: string, i: nat, e: nat)
    requires i <= e <= |s| && Boundary(s, i) && Boundary(s, e) && VehicleShape(s, i, e)
    ensures VehicleEndAt(s, i) == Some(e)
  {
    var a: nat, b: nat, c: nat :| VehicleParts(s, i, e, a, b, c);
    assert IsAsciiLetter(s[i]) && IsAsciiLetter(s[i + 1]);
    assert !OfKind(Digits, s[i + 2 + a]) by { assert OfKind(Letters, s[i + 2 + a]); }
    RunEndIs(s, i + 2, i + 2 + a, Digits);
    assert !OfKind(Letters, s[i + 2 + a + b]) by { assert OfKind(Digits, s[i + 2 + a + b]); }
    RunEndIs(s, i + 2 + a, i + 2 + a + b, Letters);
    assert e == |s| || !OfKind(Digits, s[e]) by {
      assert OfKind(Digits, s[e - 1]);
      assert WordAt(s, e - 1);
    }
    RunEndIs(s, i + 2 + a + b, e, Digits);
    var d1 := RunEnd(s, i + 2, Digits);
    var l := RunEnd(s, d1, Letters);
    var d2 := RunEnd(s, l, Digits);
    assert d1 - (i + 2) == a && l - d1 == b && d2 - l == c && d2 == e;
  }

  /** The leftmost match of the vehicle pattern at or after `i`. */
  function VehicleFrom(s: string, i: nat): (m: Option<(nat, nat)>)
    requires i <= |s|
    ensures m.Some? ==> i <= m.value.0 <= |s| && VehicleEndAt(s, m.value.0) == Some(m.value.1)
    ensures m.Some? ==> forall j :: i <= j < m.value.0 ==> VehicleEndAt(s, j).None?
    ensures m.None? ==> forall j :: i <= j <= |s| ==> VehicleEndAt(s, j).None?
    decreases |s| - i
  {
    if VehicleEndAt(s, i).Some? then Some((i, VehicleEndAt(s, i).value))
    else if i == |s| then None
    else VehicleFrom(s, i + 1)
  }

  /** `s.match(dataPatterns.vehicleNumber)[0]`: the text of the leftmost
      match, `null` when there is none. */
  function VehicleText(s: string): (v: Option<string>)
    ensures v.None? <==> forall j :: 0 <= j <= |s| ==> VehicleEndAt(s, j).None?
    ensures v.Some? ==> exists a :: VehicleMatchAt(s, a, v.value) && forall j :: 0 <= j < a ==> VehicleEndAt(s, j).None?
    ensures v.Some? ==> |v.value| >= 6
  {
    match VehicleFrom(s, 0)
    case None => None
    case Some((a, e)) =>
      assert VehicleMatchAt(s, a, s[a..e]);
      Some(s[a..e])
  }

  /** The vehicle pattern matches `v` at `a`. */
  predicate VehicleMatchAt(s: string, a: int, v: string) {
    0 <= a <= |s| && VehicleEndAt(s, a) == Some(a + |v|) && v == s[a..a + |v|]
  }

  // ---------------------------------------------------------------------
  // Digit tokens: /\b\d{10}\b/g, /\b[0-3]\d{9}\b/, /\b[4-9]\d{9}\b/, /\b\d{4}\b/

  /** `\b\d{n}\b` matches at `i`. */
  predicate DigitTokenAt(s: string, i: nat, n: nat) {
    && i + n <= |s| && Boundary(s, i) && Boundary(s, i + n)
    && forall p :: i <= p < i + n ==> IsDigit(s[p])
  }

  /** No digit token starts inside another: the character before is a digit. */
  lemma NoTokenInsideToken(s: string, i: nat, j: nat, n: nat)
    requires DigitTokenAt(s, i, 10) && i < j < i + 10 && n >= 1
    ensures !DigitTokenAt(s, j, n)
  {
    assert WordAt(s, j - 1) && WordAt(s, j);
  }

  lemma NoTokenNear(s: string, i: nat)
    requires DigitTokenAt(s, i, 10)
    ensures forall j: nat :: i < j < i + 10 ==> !DigitTokenAt(s, j, 10)
  {
    forall j: nat | i < j < i + 10 ensures !DigitTokenAt(s, j, 10) { NoTokenInsideToken(s, i, j, 10); }
  }

  /** Where the matches of `/\b\d{10}\b/g` start, searching from `i`: every
      position at or after `i` where the pattern matches, left to right,
      the matches not overlapping. */
  function TenDigitPositionsFrom(s: string, i: nat): (ps: seq<nat>)
    requires i <= |s|
    ensures forall k :: 0 <= k < |ps| ==> i <= ps[k] && DigitTokenAt(s, ps[k], 10)
    ensures forall k :: 0 < k < |ps| ==> ps[k - 1] + 10 <= ps[k]
    ensures forall p: nat :: i <= p && DigitTokenAt(s, p, 10) ==> p in ps
    decreases |s| - i
  {
    if i + 10 > |s| then []
    else if DigitTokenAt(s, i, 10) then
      NoTokenNear(s, i);
      [i] + TenDigitPositionsFrom(s, i + 10)
    else TenDigitPositionsFrom(s, i + 1)
  }

  /** `s.match(/\b\d{10}\b/g) || []`, searching from `i`: the texts of
      those matches, in order. */
  function TenDigitTokensFrom(s: string, i: nat): (r: seq<string>)
    requires i <= |s|
    ensures |r| == |TenDigitPositionsFrom(s, i)|
    ensures forall k :: 0 <= k < |r| ==> TokenTextAt(s, TenDigitPositionsFrom(s, i)[k], r[k])
    ensures forall k :: 0 <= k < |r| ==> |r[k]| == 10 && AllOf(r[k], Digits)
    decreases |s| - i
  {
    if i + 10 > |s| then []
    else if DigitTokenAt(s, i, 10) then [s[i..i + 10]] + TenDigitTokensFrom(s, i + 10)
    else TenDigitTokensFrom(s, i + 1)
  }

  /** `t` is the ten characters of `s` from `p`. */
  predicate TokenTextAt(s: string, p: nat, t: string) {
    p + 10 <= |s| && t == s[p..p + 10]
  }

  function TenDigitTokens(s: string): (r: seq<string>)
    ensures |r| == |TenDigitPositionsFrom(s, 0)|
    ensures forall k :: 0 <= k < |r| ==> TokenTextAt(s, TenDigitPositionsFrom(s, 0)[k], r[k])
    ensures forall k :: 0 <= k < |r| ==> |r[k]| == 10 && AllOf(r[k], Digits)
  {
    TenDigitTokensFrom(s, 0)
  }

  /** The two classes of ten-digit numbers, by their first digit. */
  datatype Lead = PhoneLead | SoLead

  predicate LeadDigit(lead: Lead, c: char) {
    match lead
    case PhoneLead => '4' <= c <= '9'
    case SoLead => '0' <= c <= '3'
  }

  predicate HasLead(t: string, lead: Lead) { |t| > 0 && LeadDigit(lead, t[0]) }

  /** The first token of `tokens` in the class `lead`. */
  function FirstWithLead(tokens: seq<string>, lead: Lead): (r: Option<string>)
    ensures r.Some? ==> r.value in tokens && HasLead(r.value, lead)
    ensures r.None? <==> forall k :: 0 <= k < |tokens| ==> !HasLead(tokens[k], lead)
    ensures forall k :: 0 <= k < |tokens| && HasLead(tokens[k], lead) && NoLeadBefore(tokens, k, lead) ==>
              r == Some(tokens[k])
  {
    if tokens == [] then None
    else if HasLead(tokens[0], lead) then Some(tokens[0])
    else
      var r := FirstWithLead(tokens[1..], lead);
      assert forall k :: 1 <= k < |tokens| ==> tokens[k] == tokens[1..][k - 1];
      assert forall k :: 1 <= k < |tokens| && NoLeadBefore(tokens, k, lead) ==> NoLeadBefore(tokens[1..], k - 1, lead);
      r
  }

  /** No token before the `k`-th is in the class `lead`. */
  predicate NoLeadBefore(tokens: seq<string>, k: int, lead: Lead)
    requires k <= |tokens|
  {
    forall j :: 0 <= j < k ==> !HasLead(tokens[j], lead)
  }

  /** The leftmost match of `\b[4-9]\d{9}\b` (phone) or `\b[0-3]\d{9}\b` (SO)
      at or after `i`. */
  function LeadNumberFrom(s: string, i: nat, lead: Lead): (r: Option<string>)
    requires i <= |s|
    decreases |s| - i
  {
    if i + 10 > |s| then None
    else if DigitTokenAt(s, i, 10) && LeadDigit(lead, s[i]) then Some(s[i..i + 10])
    else LeadNumberFrom(s, i + 1, lead)
  }

  /** `s.match(dataPatterns.phoneNumber)[0]`. */
  function PhoneNumberText(s: string): Option<string> { LeadNumberFrom(s, 0, PhoneLead) }

  /** `s.match(dataPatterns.soNumber)[0]`. */
  function SoNumberText(s: string): Option<string> { LeadNumberFrom(s, 0, SoLead) }

  lemma {:induction false} SkipInsideToken(s: string, i: nat, j: nat, lead: Lead)
    requires DigitTokenAt(s, i, 10) && i < j <= i + 10
    ensures LeadNumberFrom(s, j, lead) == LeadNumberFrom(s, i + 10, lead)
    decreases i + 10 - j
  {
    if j < i + 10 {
      NoTokenInsideToken(s, i, j, 10);
      SkipInsideToken(s, i, j + 1, lead);
    }
  }

  /** The dedicated phone and SO patterns find the same number as taking the
      first ten-digit token of that class: the bucketing by first digit and
      the leftmost-match patterns agree. */
  lemma {:induction false} FirstTokenIsLeadNumber(s: string, i: nat, lead: Lead)
    requires i <= |s|
    ensures FirstWithLead(TenDigitTokensFrom(s, i), lead) == LeadNumberFrom(s, i, lead)
    decreases |s| - i
  {
    if i + 10 <= |s| {
      if DigitTokenAt(s, i, 10) {
        var rest := TenDigitTokensFrom(s, i + 10);
        assert TenDigitTokensFrom(s, i)[1..] == rest;
        if !LeadDigit(lead, s[i]) {
          FirstTokenIsLeadNumber(s, i + 10, lead);
          SkipInsideToken(s, i, i + 1, lead);
        }
      } else {
        FirstTokenIsLeadNumber(s, i + 1, lead);
      }
    }
  }

  /** The leftmost match of `\b\d{4}\b` at or after `i`: its position. */
  function FourDigitFrom(s: string, i: nat): (p: Option<nat>)
    requires i <= |s|
    ensures p.Some? ==> i <= p.value && DigitTokenAt(s, p.value, 4)
    ensures p.Some? ==> forall j :: i <= j < p.value ==> !DigitTokenAt(s, j, 4)
    ensures p.None? ==> forall j :: i <= j ==> !DigitTokenAt(s, j, 4)
    decreases |s| - i
  {
    if i + 4 > |s| then None
    else if DigitTokenAt(s, i, 4) then Some(i)
    else FourDigitFrom(s, i + 1)
  }

  // ---------------------------------------------------------------------
  // weight: /\b(\d+(?:\.\d+)?)\s*MT\b/i and destinationBeforeWeight

  /** `(\d+(?:\.\d+)?)\s*MT\b` (case-insensitive) tried at `i`: the end of the
      captured number and the end of the match. Every repetition is greedy
      and giving characters back only leaves one the next item cannot match. */
  function NumberMtAt(s: string, i: nat): (m: Option<(nat, nat)>)
    requires i <= |s|
    ensures m.Some? ==> i < m.value.0 && m.value.0 + 2 <= m.value.1 <= |s|
    ensures m.Some? ==> IsDigit(s[i]) && IsDigit(s[m.value.0 - 1])
    ensures m.Some? ==> forall p :: i <= p < m.value.0 ==> IsDigit(s[p]) || s[p] == '.'
    ensures m.Some? ==> forall p :: m.value.0 <= p < m.value.1 - 2 ==> IsSpace(s[p])
    ensures m.Some? ==> s[m.value.1 - 2] in "Mm" && s[m.value.1 - 1] in "Tt" && Boundary(s, m.value.1)
  {
    if i == |s| || !IsDigit(s[i]) then None
    else
      var j := RunEnd(s, i, Digits);
      var g := if j + 1 < |s| && s[j] == '.' && IsDigit(s[j + 1]) then RunEnd(s, j + 1, Digits) else j;
      var k := RunEnd(s, g, Spaces);
      if k + 2 <= |s| && s[k] in "Mm" && s[k + 1] in "Tt" && Boundary(s, k + 2) then Some((g, k + 2))
      else None
  }

  /** The weight pattern `\b(\d+(?:\.\d+)?)\s*MT\b` matches at `j`. */
  predicate WeightAt(s: string, j: nat)
    requires j <= |s|
  {
    Boundary(s, j) && NumberMtAt(s, j).Some?
  }

  /** The leftmost match of the weight pattern at or after `i`: its start,
      the end of the captured number and the end of the match. */
  function WeightFrom(s: string, i: nat): (m: Option<(nat, nat, nat)>)
    requires i <= |s|
    ensures m.Some? ==> i <= m.value.0 <= |s| && WeightAt(s, m.value.0)
    ensures m.Some? ==> NumberMtAt(s, m.value.0) == Some((m.value.1, m.value.2))
    ensures m.Some? ==> forall j :: i <= j < m.value.0 ==> !WeightAt(s, j)
    ensures m.None? ==> forall j :: i <= j <= |s| ==> !WeightAt(s, j)
    decreases |s| - i
  {
    if WeightAt(s, i) then
      var r := NumberMtAt(s, i).value;
      Some((i, r.0, r.1))
    else if i == |s| then None
    else WeightFrom(s, i + 1)
  }

  /** `s.match(dataPatterns.weight)[1]`: the number in front of the `MT`
      in the leftmost match, `null` when there is none. */
  function WeightText(s: string): (w: Option<string>)
    ensures w.None? <==> forall j :: 0 <= j <= |s| ==> !WeightAt(s, j)
    ensures w.Some? ==> exists a :: WeightNumberAt(s, a, w.value) && forall j :: 0 <= j < a ==> !WeightAt(s, j)
    ensures w.Some? ==> w.value != "" && IsDigit(w.value[0]) && IsDigit(w.value[|w.value| - 1])
  {
    match WeightFrom(s, 0)
    case None => None
    case Some((a, g, _)) =>
      WeightCapture(s, a, g);
      Some(s[a..g])
  }

  lemma {:induction false} WeightCapture(s: string, a: nat, g: nat)
    requires a <= |s| && WeightAt(s, a) && NumberMtAt(s, a).value.0 == g
    ensures a < g <= |s| && WeightNumberAt(s, a, s[a..g])
    ensures IsDigit(s[a..g][0]) && IsDigit(s[a..g][g - a - 1])
  {
  }

  /** The weight pattern matches at `a`, capturing the number `w`. */
  predicate WeightNumberAt(s: string, a: int, w: string) {
    0 <= a <= |s| && WeightAt(s, a) && NumberMtAt(s, a).value.0 == a + |w| && w == s[a..a + |w|]
  }

  /** `/\d+(?:\.\d+)?\s*MT\b/i.test(s)`, which has no `\b` in front. */
  predicate HasNumberMtFrom(s: string, i: nat)
    requires i <= |s|
    decreases |s| - i
  {
    NumberMtAt(s, i).Some? || (i < |s| && HasNumberMtFrom(s, i + 1))
  }

  predicate HasNumberMt(s: string) { HasNumberMtFrom(s, 0) }

  /** `\s+\d+(?:\.\d+)?\s*MT\b` (case-insensitive) matches at `p`. */
  predicate WeightTailAt(s: string, p: nat)
    requires p < |s|
  {
    IsSpace(s[p]) && NumberMtAt(s, RunEnd(s, p, Spaces)).Some?
  }

  /** `^(.*?)\s+\d+(?:\.\d+)?\s*MT\b` (case-insensitive), trying the lazy
      group's end `k` from the left: the first `k` at which `\s+` and the
      number-and-unit tail match, as long as `.` has not met a line
      terminator. */
  function DestinationEndFrom(s: string, k: nat): (d: Option<nat>)
    requires k <= |s|
    ensures d.Some? ==> k <= d.value < |s| && WeightTailAt(s, d.value)
    ensures d.Some? ==> forall p :: k <= p < d.value ==> !IsLineTerminator(s[p]) && !WeightTailAt(s, p)
    ensures d.None? ==> forall p :: k <= p < |s| && WeightTailAt(s, p) ==> TerminatorIn(s, k, p)
    decreases |s| - k
  {
    if k == |s| then None
    else if WeightTailAt(s, k) then Some(k)
    else if IsLineTerminator(s[k]) then
      TerminatorFrom(s, k);
      None
    else
      TerminatorWiden(s, k);
      DestinationEndFrom(s, k + 1)
  }

  lemma {:induction false} TerminatorFrom(s: string, k: nat)
    requires k < |s| && IsLineTerminator(s[k])
    ensures forall p :: k < p <= |s| ==> TerminatorIn(s, k, p)
  {
  }

  lemma {:induction false} TerminatorWiden(s: string, k: nat)
    requires k < |s|
    ensures forall p :: k + 1 <= p <= |s| && TerminatorIn(s, k + 1, p) ==> TerminatorIn(s, k, p)
  {
  }

  /** Some line terminator lies in `s[lo..hi]`. */
  predicate TerminatorIn(s: string, lo: nat, hi: nat)
    requires hi <= |s|
  {
    exists q :: lo <= q < hi && IsLineTerminator(s[q])
  }

  /** `line.match(dataPatterns.destinationBeforeWeight)[1]`: the text in
      front of the first place where white space, a number and `MT` follow
      without a line terminator before it; `null` when every such place has
      a line terminator in front. */
  function DestinationBeforeWeight(line: string): (d: Option<string>)
    ensures d.Some? ==> |d.value| < |line| && d.value == line[..|d.value|] && WeightTailAt(line, |d.value|)
    ensures d.Some? ==> forall p :: 0 <= p < |d.value| ==> !IsLineTerminator(line[p]) && !WeightTailAt(line, p)
    ensures d.None? ==> forall p :: 0 <= p < |line| && WeightTailAt(line, p) ==> TerminatorIn(line, 0, p)
  {
    match DestinationEndFrom(line, 0)
    case None => None
    case Some(k) => Some(line[..k])
  }
}
