/** Optional values: `None` stands for JavaScript's `null`. */
module Options {
  datatype Option<+T> = None | Some(value: T)
}

/** Characters and string primitives with the meaning JavaScript gives them:
    `\d`, `\w`, `\s`, `String.prototype.trim`, `split('\n')`, `join('\n')`,
    `indexOf`, `includes`, `replace` with a string pattern. */
module Text {
  import opened Options

  /** `\d`: the ASCII digits only. */
  predicate IsDigit(c: char) { '0' <= c <= '9' }

  predicate IsAsciiLetter(c: char) { 'A' <= c <= 'Z' || 'a' <= c <= 'z' }

  /** `\w`, the characters on the word side of a `\b` boundary. */
  predicate IsWordChar(c: char) { IsDigit(c) || IsAsciiLetter(c) || c == '_' }

  /** The line terminators, which `.` in a regular expression does not match. */
  predicate IsLineTerminator(c: char) {
    c == '\n' || c == '\r' || c == '\U{2028}' || c == '\U{2029}'
  }

  /** `\s`, and what `trim` removes: white space and line terminators. */
  predicate IsSpace(c: char) {
    || c == '\t' || c == '\U{000B}' || c == '\U{000C}' || c == ' ' || c == '\U{00A0}'
    || c == '\U{1680}' || ('\U{2000}' <= c <= '\U{200A}') || c == '\U{202F}'
    || c == '\U{205F}' || c == '\U{3000}' || c == '\U{FEFF}'
    || IsLineTerminator(c)
  }

  predicate HasDigit(s: string) { exists i :: 0 <= i < |s| && IsDigit(s[i]) }

  predicate IsBlank(s: string) { forall i :: 0 <= i < |s| ==> IsSpace(s[i]) }

  function TrimStart(s: string): (r: string)
    ensures |r| <= |s| && r == s[|s| - |r|..]
    ensures forall i :: 0 <= i < |s| - |r| ==> IsSpace(s[i])
    ensures r == [] || !IsSpace(r[0])
  {
    if s != [] && IsSpace(s[0]) then TrimStart(s[1..]) else s
  }

  function TrimEnd(s: string): (r: string)
    ensures |r| <= |s| && r == s[..|r|]
    ensures forall i :: |r| <= i < |s| ==> IsSpace(s[i])
    ensures r == [] || !IsSpace(r[|r| - 1])
  {
    if s != [] && IsSpace(s[|s| - 1]) then TrimEnd(s[..|s| - 1]) else s
  }

  /** `s[i..i + |r|]` is `r` and only white space surrounds it. */
  predicate Surrounded(s: string, i: int, r: string) {
    0 <= i && i + |r| <= |s| && r == s[i..i + |r|] && IsBlank(s[..i]) && IsBlank(s[i + |r|..])
  }

  /** `String.prototype.trim`. */
  function Trim(s: string): (r: string)
    ensures |r| <= |s|
    ensures r == "" <==> IsBlank(s)
    ensures r != "" ==> !IsSpace(r[0]) && !IsSpace(r[|r| - 1])
  {
    var t := TrimStart(s);
    var r := TrimEnd(t);
    assert r == "" ==> t == "";
    r
  }

  /** `trim` removes white space around the text and nothing else: the
      result stands in the text with only white space on either side. */
  lemma TrimSurrounded(s: string)
    ensures exists i :: Surrounded(s, i, Trim(s))
  {
    TrimStartEnd(s);
    assert Trim(s) == TrimEnd(TrimStart(s));
    assert Surrounded(s, |s| - |TrimStart(s)|, Trim(s));
  }

  /** Where the two halves of `trim` cut the text. */
  lemma {:induction false} TrimStartEnd(s: string)
    ensures Surrounded(s, |s| - |TrimStart(s)|, TrimEnd(TrimStart(s)))
  {
    var t := TrimStart(s);
    var r := TrimEnd(t);
    assert |t| <= |s| && t == s[|s| - |t|..] && IsBlank(s[..|s| - |t|]) by { TrimStartCut(s); }
    assert |r| <= |t| && r == t[..|r|] && IsBlank(t[|r|..]) by { TrimEndCut(t); }
    CutsCompose(s, t, r);
  }

  /** A blank prefix cut off, then a blank suffix. */
  lemma {:induction false} CutsCompose(s: string, t: string, r: string)
    requires |t| <= |s| && t == s[|s| - |t|..] && IsBlank(s[..|s| - |t|])
    requires |r| <= |t| && r == t[..|r|] && IsBlank(t[|r|..])
    ensures Surrounded(s, |s| - |t|, r)
  {
    var i := |s| - |t|;
    assert s[i..][..|r|] == s[i..i + |r|] && s[i..][|r|..] == s[i + |r|..];
  }

  lemma {:induction false} TrimStartCut(s: string)
    ensures IsBlank(s[..|s| - |TrimStart(s)|])
  {
    var i := |s| - |TrimStart(s)|;
    forall p | 0 <= p < i ensures IsSpace(s[..i][p]) { assert s[..i][p] == s[p]; }
  }

  lemma {:induction false} TrimEndCut(t: string)
    ensures IsBlank(t[|TrimEnd(t)|..])
  {
    var tail := t[|TrimEnd(t)|..];
    forall p | 0 <= p < |tail| ensures IsSpace(tail[p]) { assert tail[p] == t[|TrimEnd(t)| + p]; }
  }

  lemma {:induction false} BlankConcat(a: string, b: string)
    requires IsBlank(a) && IsBlank(b)
    ensures IsBlank(a + b)
  {
    forall p | 0 <= p < |a + b| ensures IsSpace((a + b)[p]) {
      if p >= |a| { assert (a + b)[p] == b[p - |a|]; }
    }
  }

  lemma {:induction false} TrimStartBlankPrefix(a: string, x: string)
    requires IsBlank(a) && (x == [] || !IsSpace(x[0]))
    ensures TrimStart(a + x) == x
    decreases |a|
  {
    if a == [] {
      assert a + x == x;
    } else {
      assert (a + x)[1..] == a[1..] + x;
      TrimStartBlankPrefix(a[1..], x);
    }
  }

  lemma {:induction false} TrimEndBlankSuffix(x: string, b: string)
    requires IsBlank(b) && (x == [] || !IsSpace(x[|x| - 1]))
    ensures TrimEnd(x + b) == x
    decreases |b|
  {
    if b == [] {
      assert x + b == x;
    } else {
      assert (x + b)[..|x + b| - 1] == x + b[..|b| - 1];
      TrimEndBlankSuffix(x, b[..|b| - 1]);
    }
  }

  /** Conversely, a text with no white space at either end, surrounded by
      white space, is what `trim` gives back. */
  lemma {:induction false} TrimOf(a: string, m: string, b: string)
    requires IsBlank(a) && IsBlank(b)
    requires m == "" || (!IsSpace(m[0]) && !IsSpace(m[|m| - 1]))
    ensures Trim(a + m + b) == m
  {
    if m == "" {
      assert a + m + b == a + b;
      assert IsBlank(a + b);
    } else {
      assert a + m + b == a + (m + b);
      assert (m + b)[0] == m[0];
      TrimStartBlankPrefix(a, m + b);
      TrimEndBlankSuffix(m, b);
    }
  }

  /** A text with no white space at either end is its own trim. */
  lemma {:induction false} TrimFixed(m: string)
    requires m == "" || (!IsSpace(m[0]) && !IsSpace(m[|m| - 1]))
    ensures Trim(m) == m
  {
    assert "" + m + "" == m;
    TrimOf("", m, "");
  }

  /** `s.split('\n')`: the pieces between the newline characters. */
  function SplitLines(s: string): (lines: seq<string>)
    ensures |lines| >= 1
    ensures forall k :: 0 <= k < |lines| ==> '\n' !in lines[k]
  {
    if s == [] then [""]
    else
      var rest := SplitLines(s[1..]);
      if s[0] == '\n' then [""] + rest else [[s[0]] + rest[0]] + rest[1..]
  }

  /** `lines.join('\n')`. */
  function JoinLines(lines: seq<string>): string {
    if |lines| == 0 then ""
    else if |lines| == 1 then lines[0]
    else lines[0] + "\n" + JoinLines(lines[1..])
  }

  lemma {:induction false} JoinLinesPrepend(c: char, lines: seq<string>)
    requires |lines| >= 1
    ensures JoinLines([[c] + lines[0]] + lines[1..]) == [c] + JoinLines(lines)
  {
    var ls := [[c] + lines[0]] + lines[1..];
    assert ls[1..] == lines[1..];
  }

  /** Splitting at the newlines and joining with newlines gives back the text. */
  lemma {:induction false} JoinSplitLines(s: string)
    ensures JoinLines(SplitLines(s)) == s
  {
    if s != [] {
      var rest := SplitLines(s[1..]);
      JoinSplitLines(s[1..]);
      if s[0] == '\n' {
        assert SplitLines(s) == [""] + rest;
        assert ([""] + rest)[1..] == rest;
      } else {
        JoinLinesPrepend(s[0], rest);
      }
    }
  }

  /** Splitting at a newline splits the pieces. */
  lemma {:induction false} SplitLinesAppend(a: string, b: string)
    ensures SplitLines(a + "\n" + b) == SplitLines(a) + SplitLines(b)
    decreases |a|
  {
    var s := a + "\n" + b;
    if a == [] {
      assert s == "\n" + b && s[1..] == b;
    } else {
      assert s[0] == a[0] && s[1..] == a[1..] + "\n" + b;
      SplitLinesAppend(a[1..], b);
      var rest := SplitLines(a[1..]) + SplitLines(b);
      if a[0] != '\n' {
        assert rest[0] == SplitLines(a[1..])[0];
        assert rest[1..] == SplitLines(a[1..])[1..] + SplitLines(b);
      }
    }
  }

  /** A text without a newline is one piece. */
  lemma {:induction false} SplitLinesOne(s: string)
    requires '\n' !in s
    ensures SplitLines(s) == [s]
    decreases |s|
  {
    if s != [] {
      assert '\n' !in s[1..] by { forall k | 0 <= k < |s[1..]| ensures s[1..][k] != '\n' { assert s[1..][k] == s[k + 1]; } }
      SplitLinesOne(s[1..]);
      assert [s[0]] + s[1..] == s;
    }
  }

  /** `lines.map(line => line.trim()).filter(line => line)`. */
  function TrimmedLines(lines: seq<string>): (r: seq<string>)
    ensures |r| <= |lines|
    ensures forall k :: 0 <= k < |r| ==> r[k] != ""
  {
    if lines == [] then []
    else
      var t := Trim(lines[0]);
      if t == "" then TrimmedLines(lines[1..]) else [t] + TrimmedLines(lines[1..])
  }

  /** The filter keeps the order of the lines: that of two lists in turn is
      that of the first, then that of the second. */
  lemma {:induction false} TrimmedLinesAppend(a: seq<string>, b: seq<string>)
    ensures TrimmedLines(a + b) == TrimmedLines(a) + TrimmedLines(b)
    decreases |a|
  {
    if a == [] {
      assert a + b == b;
    } else {
      assert (a + b)[0] == a[0] && (a + b)[1..] == a[1..] + b;
      TrimmedLinesAppend(a[1..], b);
    }
  }

  /** A single line is kept, trimmed, exactly when it is not blank. */
  lemma {:induction false} TrimmedLinesOne(line: string)
    ensures TrimmedLines([line]) == if IsBlank(line) then [] else [Trim(line)]
  {
    assert [line][1..] == [];
  }

  /** `s.split('\n').map(line => line.trim()).filter(line => line)`. */
  function NonEmptyTrimmedLines(s: string): (r: seq<string>)
    ensures forall k :: 0 <= k < |r| ==> r[k] != ""
  {
    TrimmedLines(SplitLines(s))
  }

  /** The trimmed non-empty lines of two texts joined by a newline are those
      of the first, then those of the second. */
  lemma {:induction false} NonEmptyTrimmedLinesAppend(a: string, b: string)
    ensures NonEmptyTrimmedLines(a + "\n" + b) == NonEmptyTrimmedLines(a) + NonEmptyTrimmedLines(b)
  {
    SplitLinesAppend(a, b);
    TrimmedLinesAppend(SplitLines(a), SplitLines(b));
  }

  /** A text without a newline gives its trimmed self, or nothing when it is
      blank. */
  lemma {:induction false} NonEmptyTrimmedLinesOne(s: string)
    requires '\n' !in s
    ensures NonEmptyTrimmedLines(s) == if IsBlank(s) then [] else [Trim(s)]
  {
    SplitLinesOne(s);
    TrimmedLinesOne(s);
  }

  /** `pat` occurs in `s` at position `j`. */
  predicate OccursAt(s: string, pat: string, j: int) {
    0 <= j && j + |pat| <= |s| && s[j..j + |pat|] == pat
  }

  function IndexOfFrom(s: string, pat: string, i: nat): (r: Option<nat>)
    requires i <= |s|
    ensures r.Some? ==> i <= r.value && OccursAt(s, pat, r.value)
    ensures r.Some? ==> forall j :: i <= j < r.value ==> !OccursAt(s, pat, j)
    ensures r.None? ==> forall j :: i <= j ==> !OccursAt(s, pat, j)
    decreases |s| - i
  {
    if i + |pat| > |s| then None
    else if s[i..i + |pat|] == pat then Some(i)
    else IndexOfFrom(s, pat, i + 1)
  }

  /** `s.indexOf(pat)`, with `None` for -1: the first occurrence. */
  function IndexOf(s: string, pat: string): (r: Option<nat>)
    ensures r.Some? <==> exists j :: OccursAt(s, pat, j)
    ensures r.Some? ==> OccursAt(s, pat, r.value) && forall j :: 0 <= j < r.value ==> !OccursAt(s, pat, j)
  {
    IndexOfFrom(s, pat, 0)
  }

  /** `s.includes(pat)`. */
  predicate Contains(s: string, pat: string) { IndexOf(s, pat).Some? }

  /** `s.replace(pat, '')` with a string pattern: the first occurrence goes. */
  function RemoveFirst(s: string, pat: string): (r: string)
    ensures IndexOf(s, pat).None? ==> r == s
    ensures IndexOf(s, pat).Some? ==>
              |r| == |s| - |pat| && r == s[..IndexOf(s, pat).value] + s[IndexOf(s, pat).value + |pat|..]
  {
    match IndexOf(s, pat)
    case None => s
    case Some(i) => s[..i] + s[i + |pat|..]
  }

  predicate StartsWith(s: string, prefix: string) { |prefix| <= |s| && s[..|prefix|] == prefix }

  predicate EndsWith(s: string, suffix: string) { |suffix| <= |s| && s[|s| - |suffix|..] == suffix }

  function UpperChar(c: char): char {
    if 'a' <= c <= 'z' then (c as int - 32) as char else c
  }

  function LowerChar(c: char): char {
    if 'A' <= c <= 'Z' then (c as int + 32) as char else c
  }

  predicate IsAsciiLower(c: char) { 'a' <= c <= 'z' }

  predicate IsAsciiUpper(c: char) { 'A' <= c <= 'Z' }

  /** `toUpperCase`, on the ASCII letters: the same text up to case, with
      no lower-case letter left. These two facts determine the result. */
  function ToUpper(s: string): (r: string)
    ensures |r| == |s|
    ensures forall i :: 0 <= i < |r| ==> !IsAsciiLower(r[i])
    ensures forall i :: 0 <= i < |r| ==> LowerChar(r[i]) == LowerChar(s[i])
  {
    seq(|s|, i requires 0 <= i < |s| => UpperChar(s[i]))
  }

  /** `toLowerCase`, on the ASCII letters: the same text up to case, with
      no upper-case letter left. */
  function ToLower(s: string): (r: string)
    ensures |r| == |s|
    ensures forall i :: 0 <= i < |r| ==> !IsAsciiUpper(r[i])
    ensures forall i :: 0 <= i < |r| ==> UpperChar(r[i]) == UpperChar(s[i])
  {
    seq(|s|, i requires 0 <= i < |s| => LowerChar(s[i]))
  }

  /** The decimal digits of `n`, as `${n}` writes them. */
  function NatToString(n: nat): (s: string)
    ensures s != [] && forall i :: 0 <= i < |s| ==> IsDigit(s[i])
    decreases n
  {
    var d := ['0' + (n % 10) as char];
    if n < 10 then d else NatToString(n / 10) + d
  }

  /** Reading the digits back gives `n`, so different numbers are written
      differently. */
  function DigitsValue(s: string): int
    decreases |s|
  {
    if s == [] then 0 else DigitsValue(s[..|s| - 1]) * 10 + (s[|s| - 1] as int - '0' as int)
  }

  lemma {:induction false} NatToStringValue(n: nat)
    ensures DigitsValue(NatToString(n)) == n
    decreases n
  {
    var s := NatToString(n);
    if n >= 10 {
      NatToStringValue(n / 10);
      assert s[..|s| - 1] == NatToString(n / 10);
    }
  }
}
