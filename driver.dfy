/** `extractDriverInfo`: the driver's name and licence digits from the
    second line of an `ap kara` reply, and the fields of any text after them. */
module Driver {
  import opened Options
  import opened Text
  import opened Patterns
  import opened Records
  import opened Extraction

  datatype DriverInfo = DriverInfo(name: Option<string>, license: Option<string>, additional: Record)

  /** The result when the reply has no driver line or no licence digits. */
  const NoDriver: DriverInfo := DriverInfo(None, None, Empty)

  /** The name in front of the licence: trimmed, with one trailing `-`
      removed and trimmed again; `null` when nothing is left. */
  function NameBefore(before: string): (name: Option<string>)
    ensures name.Some? ==> name.value != "" && !IsSpace(name.value[0]) && !IsSpace(name.value[|name.value| - 1])
    ensures name.None? ==> IsBlank(before) || EndsWith(Trim(before), "-")
  {
    NameOfTrimmed(Trim(before))
  }

  /** The name in a trimmed text: the text, or what is left in front of a
      final `-`, trimmed. */
  function NameOfTrimmed(t: string): (name: Option<string>)
    ensures name.None? ==> t == "" || EndsWith(t, "-")
  {
    if !EndsWith(t, "-") then (if t != "" then Some(t) else None)
    else
      var u := Trim(t[..|t| - 1]);
      if u != "" then Some(u) else None
  }

  /** `b` is white space, one `-`, then white space. */
  predicate DashTail(b: string) {
    exists k :: 0 <= k < |b| && b[k] == '-' && IsBlank(b[..k]) && IsBlank(b[k + 1..])
  }

  /** A name is what stands in front of the licence, without the white
      space around it and without one `-` after it: the text is white
      space, the name, then white space or a dash between white space; and
      a name ending in `-` keeps it only when another dash follows. */
  predicate NameShape(before: string, a: nat, name: string)
    requires a + |name| <= |before|
  {
    && name != "" && !IsSpace(name[0]) && !IsSpace(name[|name| - 1])
    && before[a..a + |name|] == name && IsBlank(before[..a])
    && var b := before[a + |name|..];
       (IsBlank(b) && !EndsWith(name, "-")) || DashTail(b)
  }

  /** Every text of that shape gives that name. */
  lemma {:induction false} NameBeforeIs(a: string, name: string, b: string)
    requires IsBlank(a) && name != "" && !IsSpace(name[0]) && !IsSpace(name[|name| - 1])
    requires (IsBlank(b) && !EndsWith(name, "-")) || DashTail(b)
    ensures NameBefore(a + name + b) == Some(name)
  {
    if IsBlank(b) && !EndsWith(name, "-") {
      NameBeforePlain(a, name, b);
    } else {
      var k :| 0 <= k < |b| && b[k] == '-' && IsBlank(b[..k]) && IsBlank(b[k + 1..]);
      assert b == b[..k] + "-" + b[k + 1..];
      NameBeforeDash(a, name, b[..k], b[k + 1..]);
    }
  }

  lemma {:induction false} NameBeforePlain(a: string, name: string, b: string)
    requires IsBlank(a) && IsBlank(b) && name != "" && !IsSpace(name[0]) && !IsSpace(name[|name| - 1])
    requires !EndsWith(name, "-")
    ensures NameBefore(a + name + b) == Some(name)
  {
    TrimOf(a, name, b);
  }

  lemma {:induction false} NameBeforeDash(a: string, name: string, b1: string, b2: string)
    requires IsBlank(a) && IsBlank(b1) && IsBlank(b2) && name != "" && !IsSpace(name[0]) && !IsSpace(name[|name| - 1])
    ensures NameBefore(a + name + (b1 + "-" + b2)) == Some(name)
  {
    var t := name + b1 + "-";
    assert a + name + (b1 + "-" + b2) == a + t + b2;
    assert t[0] == name[0] && t[|t| - 1] == '-';
    TrimOf(a, t, b2);
    NameOfDashed(name, b1);
  }

  lemma {:induction false} NameOfDashed(name: string, b1: string)
    requires IsBlank(b1) && name != "" && !IsSpace(name[0]) && !IsSpace(name[|name| - 1])
    ensures NameOfTrimmed(name + b1 + "-") == Some(name)
  {
    var t := name + b1 + "-";
    assert EndsWith(t, "-");
    assert t[..|t| - 1] == "" + name + b1;
    TrimOf("", name, b1);
  }

  /** No name is found exactly when the text is blank or a lone dash
      between white space. */
  lemma {:induction false} NameBeforeNone(before: string)
    ensures NameBefore(before).None? <==> IsBlank(before) || DashTail(before)
  {
    if IsBlank(before) {
      assert Trim(before) == "";
    }
    if DashTail(before) {
      DashGivesNone(before);
    }
    if NameBefore(before).None? && !IsBlank(before) {
      NoneGivesDash(before);
    }
  }

  lemma {:induction false} DashGivesNone(before: string)
    requires DashTail(before)
    ensures NameBefore(before).None?
  {
    var k :| 0 <= k < |before| && before[k] == '-' && IsBlank(before[..k]) && IsBlank(before[k + 1..]);
    assert before == before[..k] + "-" + before[k + 1..];
    TrimOf(before[..k], "-", before[k + 1..]);
    assert NameOfTrimmed("-") == None by { assert "-"[..0] == ""; }
  }

  lemma {:induction false} NoneGivesDash(before: string)
    requires NameBefore(before).None? && !IsBlank(before)
    ensures DashTail(before)
  {
    var t := Trim(before);
    LoneDash(t);
    TrimSurrounded(before);
    var i :| Surrounded(before, i, t);
    SurroundedDash(before, i);
  }

  /** A trimmed text that gives no name is empty or a lone dash. */
  lemma {:induction false} LoneDash(t: string)
    requires t != "" && !IsSpace(t[0]) && NameOfTrimmed(t).None?
    ensures t == "-"
  {
    var t1 := t[..|t| - 1];
    assert EndsWith(t, "-") && IsBlank(t1);
    LeadingBlank(t, |t| - 1);
    assert t[0] == t[|t| - |"-"|..][0];
  }

  /** A blank prefix of a text that does not start with white space is empty. */
  lemma {:induction false} LeadingBlank(s: string, j: int)
    requires 0 <= j <= |s| && s != "" && !IsSpace(s[0]) && IsBlank(s[..j])
    ensures j == 0
  {
  }

  lemma {:induction false} SurroundedDash(s: string, i: int)
    requires Surrounded(s, i, "-")
    ensures DashTail(s)
  {
    assert s[i] == "-"[0];
    assert s[i + 1..] == s[i + |"-"|..];
  }

  /** Every name found has that shape. */
  lemma {:induction false} NameBeforeSome(before: string)
    requires NameBefore(before).Some?
    ensures exists a: nat :: a + |NameBefore(before).value| <= |before| && NameShape(before, a, NameBefore(before).value)
  {
    var t := Trim(before);
    TrimSurrounded(before);
    var i :| Surrounded(before, i, t);
    TrimmedShape(before, i, t);
  }

  lemma {:induction false} TrimmedShape(before: string, i: int, t: string)
    requires Surrounded(before, i, t) && t != "" && !IsSpace(t[0]) && !IsSpace(t[|t| - 1])
    requires NameOfTrimmed(t).Some?
    ensures var name := NameOfTrimmed(t).value;
            0 <= i && i + |name| <= |before| && NameShape(before, i, name)
  {
    if !EndsWith(t, "-") {
      ShapePlain(before, i, t);
    } else {
      var t1 := t[..|t| - 1];
      var name := Trim(t1);
      TrimSurrounded(t1);
      var j :| Surrounded(t1, j, name);
      ShapeDashed(before, i, t, j, name);
    }
  }

  lemma {:induction false} ShapePlain(before: string, i: int, t: string)
    requires Surrounded(before, i, t) && !EndsWith(t, "-")
    requires t != "" && !IsSpace(t[0]) && !IsSpace(t[|t| - 1])
    ensures i + |t| <= |before| && NameShape(before, i, t)
  {
  }

  lemma {:induction false} ShapeDashed(before: string, i: int, t: string, j: int, name: string)
    requires Surrounded(before, i, t) && EndsWith(t, "-") && Surrounded(t[..|t| - 1], j, name)
    requires t != "" && !IsSpace(t[0])
    requires name != "" && !IsSpace(name[0]) && !IsSpace(name[|name| - 1])
    ensures i + |name| <= |before| && NameShape(before, i, name)
  {
    var t1 := t[..|t| - 1];
    assert t1[0] == t[0];
    LeadingBlank(t1, j);
    var b := before[i + |name|..];
    var k := |t1| - |name|;
    assert before[i..i + |name|] == name by { assert before[i..i + |name|] == t[..|name|] == t1[..|name|]; }
    assert b[k] == '-' by { assert b[k] == t[|t| - 1]; }
    assert b[..k] == t1[|name|..];
    assert b[k + 1..] == before[i + |t|..];
    assert DashTail(b);
  }

  /** The text handed to the whole-message extractor: what follows the
      licence on the driver line, then the remaining lines. */
  function AfterLicense(lines: seq<string>, rest: nat): string
    requires 2 <= |lines| && rest <= |lines[1]|
  {
    var t := Trim(lines[1][rest..]);
    if |lines| > 2 then t + "\n" + JoinLines(lines[2..]) else t
  }

  /** `line.match(dataPatterns.driverLicense)[0]`: the leftmost group of
      four digits standing alone. */
  function LicenseMatch(line: string): (m: Option<string>)
    ensures m.Some? ==> exists p: nat :: DigitTokenAt(line, p, 4) && m.value == line[p..p + 4]
                          && forall j :: 0 <= j < p ==> !DigitTokenAt(line, j, 4)
    ensures m.None? <==> forall j: nat :: !DigitTokenAt(line, j, 4)
    ensures m.Some? ==> |m.value| == 4 && IndexOf(line, m.value).Some?
    ensures m.Some? ==> forall i :: 0 <= i < |m.value| ==> IsDigit(m.value[i])
  {
    match FourDigitFrom(line, 0)
    case None => None
    case Some(p) =>
      assert OccursAt(line, line[p..p + 4], p);
      Some(line[p..p + 4])
  }

  /** `extractDriverInfo(text)`, on the trimmed non-empty lines of the
      reply. The licence is the leftmost `\b\d{4}\b` of the second line;
      the name and the following text are cut at the FIRST occurrence of
      those four digits in the line, which is the `indexOf` the code uses. */
  function DriverInfoOfLines(lines: seq<string>): (d: DriverInfo)
    ensures |lines| < 2 ==> d == NoDriver
    ensures |lines| >= 2 ==> d.license == LicenseMatch(lines[1])
    ensures d.license.Some? ==> |lines| >= 2 && d == WithLicense(lines, d.license.value)
    ensures d.license.None? ==> d == NoDriver
    ensures NoDriverFields(d.additional)
  {
    if |lines| < 2 then NoDriver
    else match LicenseMatch(lines[1])
      case None => NoDriver
      case Some(license) => WithLicense(lines, license)
  }

  function DriverInfoOf(text: string): DriverInfo {
    DriverInfoOfLines(NonEmptyTrimmedLines(text))
  }

  /** The fields read after the licence never hold a driver or a product:
      the whole-message extractor does not look for them. */
  predicate NoDriverFields(r: Record) {
    r.driverLicense == None && r.driverName == None && r.productType == None
  }

  /** The result once the licence is found on the driver line `lines[1]`. */
  function WithLicense(lines: seq<string>, license: string): (d: DriverInfo)
    requires |lines| >= 2 && |license| == 4 && IndexOf(lines[1], license).Some?
    ensures d.license == Some(license)
    ensures d.name == NameBefore(lines[1][..IndexOf(lines[1], license).value])
    ensures var after := AfterLicense(lines, IndexOf(lines[1], license).value + 4);
            d.additional == if IsBlank(after) then Empty else WholeMessage(after).value
    ensures NoDriverFields(d.additional)
  {
    var at := IndexOf(lines[1], license).value;
    var before := lines[1][..at];
    var additionalText := AfterLicense(lines, at + 4);
    assert additionalText == "" ==> IsBlank(additionalText);
    var additional := if Trim(additionalText) != "" then WholeMessage(additionalText).value else Empty;
    DriverInfo(NameBefore(before), Some(license), additional)
  }

  /** The driver's name is the text in front of the first occurrence of the
      licence, in the shape `NameShape` describes, and is missing exactly
      when that text is blank or a lone dash. */
  lemma {:induction false} DriverName(lines: seq<string>, license: string)
    requires |lines| >= 2 && |license| == 4 && IndexOf(lines[1], license).Some?
    ensures var before := lines[1][..IndexOf(lines[1], license).value];
            var name := WithLicense(lines, license).name;
            && (name.None? <==> IsBlank(before) || DashTail(before))
            && (name.Some? ==> exists a: nat :: a + |name.value| <= |before| && NameShape(before, a, name.value))
  {
    var before := lines[1][..IndexOf(lines[1], license).value];
    NameBeforeNone(before);
    if NameBefore(before).Some? {
      NameBeforeSome(before);
    }
  }

  /** When the four digits first appear where they were matched (they do
      not occur earlier inside a longer token), the name is exactly the text
      in front of the match and the extra fields come from the text after
      it. */
  lemma NameIsTextBeforeLicense(lines: seq<string>)
    requires |lines| >= 2 && FourDigitFrom(lines[1], 0).Some?
    requires var p := FourDigitFrom(lines[1], 0).value; IndexOf(lines[1], lines[1][p..p + 4]) == Some(p)
    ensures var p := FourDigitFrom(lines[1], 0).value;
            var after := AfterLicense(lines, p + 4);
            DriverInfoOfLines(lines) ==
              DriverInfo(NameBefore(lines[1][..p]), Some(lines[1][p..p + 4]),
                         if Trim(after) != "" then WholeMessage(after).value else Empty)
  {
    var p := FourDigitFrom(lines[1], 0).value;
    assert LicenseMatch(lines[1]) == Some(lines[1][p..p + 4]);
  }

  /** The four digits can sit inside an earlier, longer number: on the line
      `A1234 KUMAR 1234` the licence matched is the `1234` at position 12,
      but its first occurrence, where the name is cut, is at position 1. */
  lemma EarlierOccurrenceExample()
    ensures FourDigitFrom("A1234 KUMAR 1234", 0) == Some(12)
    ensures IndexOf("A1234 KUMAR 1234", "1234") == Some(1)
  {
    var s := "A1234 KUMAR 1234";
    forall k | 0 <= k < 12 ensures !DigitTokenAt(s, k, 4) {
      if k == 1 { assert !Boundary(s, 1); }
    }
    assert DigitTokenAt(s, 12, 4);
    assert OccursAt(s, "1234", 1);
    assert s[0..4][0] == 'A';
  }

  /** A reply whose driver line is a name, a dash, the licence and more
      text: the name loses the dash and the extra text is read as a message. */
  lemma {:induction false} RamKumarExample()
    ensures DriverInfoOf("ap kara\nRAM KUMAR - 4521 some extra text")
            == DriverInfo(Some("RAM KUMAR"), Some("4521"), WholeMessage("some extra text").value)
  {
    var line := "RAM KUMAR - 4521 some extra text";
    var lines := ["ap kara", line];
    RamKumarLines();
    RamKumarLicense();
    NameIsTextBeforeLicense(lines);
    RamKumarName();
    RamKumarAfter();
  }

  lemma {:induction false} RamKumarLines()
    ensures NonEmptyTrimmedLines("ap kara\nRAM KUMAR - 4521 some extra text") == ["ap kara", "RAM KUMAR - 4521 some extra text"]
  {
    RamKumarJoined();
    PlainLine("ap kara");
    PlainLine("RAM KUMAR - 4521 some extra text");
    TwoLines("ap kara", "RAM KUMAR - 4521 some extra text");
  }

  lemma {:induction false} RamKumarJoined()
    ensures "ap kara\nRAM KUMAR - 4521 some extra text" == "ap kara" + "\n" + "RAM KUMAR - 4521 some extra text"
  {
  }

  lemma {:induction false} PlainLine(line: string)
    requires line in {"ap kara", "RAM KUMAR - 4521 some extra text"}
    ensures '\n' !in line && line != "" && !IsSpace(line[0]) && !IsSpace(line[|line| - 1])
  {
  }

  /** Two lines without white space at their ends are kept as they are. */
  lemma {:induction false} TwoLines(first: string, line: string)
    requires '\n' !in first && first != "" && !IsSpace(first[0]) && !IsSpace(first[|first| - 1])
    requires '\n' !in line && line != "" && !IsSpace(line[0]) && !IsSpace(line[|line| - 1])
    ensures NonEmptyTrimmedLines(first + "\n" + line) == [first, line]
  {
    NonEmptyTrimmedLinesAppend(first, line);
    OneLine(first);
    OneLine(line);
  }

  lemma {:induction false} OneLine(line: string)
    requires '\n' !in line && line != "" && !IsSpace(line[0]) && !IsSpace(line[|line| - 1])
    ensures NonEmptyTrimmedLines(line) == [line]
  {
    NonEmptyTrimmedLinesOne(line);
    assert !IsBlank(line);
    TrimFixed(line);
  }

  lemma {:induction false} RamKumarLicense()
    ensures FourDigitFrom("RAM KUMAR - 4521 some extra text", 0) == Some(12)
    ensures IndexOf("RAM KUMAR - 4521 some extra text", "4521") == Some(12)
  {
    var line := "RAM KUMAR - 4521 some extra text";
    RamKumarNoEarlier();
    assert DigitTokenAt(line, 12, 4);
    assert OccursAt(line, "4521", 12);
  }

  lemma {:induction false} RamKumarNoEarlier()
    ensures forall k | 0 <= k < 12 :: !DigitTokenAt("RAM KUMAR - 4521 some extra text", k, 4)
    ensures forall k | 0 <= k < 12 :: !OccursAt("RAM KUMAR - 4521 some extra text", "4521", k)
  {
    var line := "RAM KUMAR - 4521 some extra text";
    forall k | 0 <= k < 12 ensures !DigitTokenAt(line, k, 4) && !OccursAt(line, "4521", k) {
      assert line[k..k + 4][0] == line[k];
    }
  }

  lemma {:induction false} RamKumarName()
    ensures NameBefore("RAM KUMAR - 4521 some extra text"[..12]) == Some("RAM KUMAR")
  {
    assert "RAM KUMAR - 4521 some extra text"[..12] == "" + "RAM KUMAR" + " - ";
    assert DashTail(" - ") by { assert " - "[..1] == " " && " - "[2..] == " "; }
    NameBeforeIs("", "RAM KUMAR", " - ");
  }

  lemma {:induction false} RamKumarAfter()
    ensures AfterLicense(["ap kara", "RAM KUMAR - 4521 some extra text"], 16) == "some extra text"
    ensures Trim("some extra text") == "some extra text"
  {
    assert "RAM KUMAR - 4521 some extra text"[16..] == " " + "some extra text";
    TrimmedTail(["ap kara", "RAM KUMAR - 4521 some extra text"], 16, " ", "some extra text");
  }

  /** On a two-line reply, the text after the licence is the rest of the
      driver line without its white space. */
  lemma {:induction false} TrimmedTail(lines: seq<string>, rest: nat, a: string, m: string)
    requires |lines| == 2 && rest <= |lines[1]| && lines[1][rest..] == a + m
    requires IsBlank(a) && m != "" && !IsSpace(m[0]) && !IsSpace(m[|m| - 1])
    ensures AfterLicense(lines, rest) == m && Trim(m) == m
  {
    assert a + m + "" == lines[1][rest..];
    TrimOf(a, m, "");
    TrimFixed(m);
  }

  /** The part of `extractDriverInfo` after the licence is found. */
  method ReadAroundLicense(lines: seq<string>, license: string) returns (d: DriverInfo)
    requires |lines| >= 2 && |license| == 4 && IndexOf(lines[1], license).Some?
    ensures d == WithLicense(lines, license)
  {
    var driverLine := lines[1];
    var at := IndexOf(driverLine, license).value;
    d := DriverInfo(NameBefore(driverLine[..at]), Some(license), Empty);
    var additionalText := Trim(driverLine[at + 4..]);
    if |lines| > 2 {
      additionalText := additionalText + "\n" + JoinLines(lines[2..]);
    }
    assert additionalText == AfterLicense(lines, at + 4);
    assert additionalText == "" ==> IsBlank(additionalText);
    if Trim(additionalText) != "" {
      var additionalData := ExtractDataFromMessage(additionalText);
      d := d.(additional := additionalData.value);
    }
  }

  method ExtractDriverInfo(text: string) returns (d: DriverInfo)
    ensures d == DriverInfoOf(text)
  {
    var lines := NonEmptyTrimmedLines(text);
    d := NoDriver;
    if |lines| < 2 {
      return;
    }
    var licenseMatch := LicenseMatch(lines[1]);
    if licenseMatch.Some? {
      d := ReadAroundLicense(lines, licenseMatch.value);
    }
  }
}
