/** `convertDataToUppercase`, `validateRequiredFields` and `formatFieldName`:
    the normalisation and the check a record passes before it is queued. */
module Validation {
  import opened Options
  import opened Text
  import opened Records

  // ---------------------------------------------------------------------
  // Uppercasing

  /** Every key of a record, in the order the command builds `finalData`. */
  const AllFieldsInOrder: seq<Field> :=
    [VehicleNum, Destination, Weight, SoNo, PhoneNum, DriverLicense, DriverName, ProductType]

  lemma AllFieldsListed(f: Field)
    ensures f in AllFieldsInOrder
  {
    match f
    case VehicleNum => assert AllFieldsInOrder[0] == f;
    case Destination => assert AllFieldsInOrder[1] == f;
    case Weight => assert AllFieldsInOrder[2] == f;
    case SoNo => assert AllFieldsInOrder[3] == f;
    case PhoneNum => assert AllFieldsInOrder[4] == f;
    case DriverLicense => assert AllFieldsInOrder[5] == f;
    case DriverName => assert AllFieldsInOrder[6] == f;
    case ProductType => assert AllFieldsInOrder[7] == f;
  }

  /** One value of `convertDataToUppercase`: a non-empty string is
      uppercased, `null` and `""` stay as they are. */
  function UpperValue(v: Option<string>): Option<string> {
    if Truthy(v) then Some(ToUpper(v.value)) else v
  }

  function Uppercased(r: Record): Record {
    Record(UpperValue(r.vehicleNum), UpperValue(r.destination), UpperValue(r.weight), UpperValue(r.soNo),
           UpperValue(r.phoneNum), UpperValue(r.driverLicense), UpperValue(r.driverName), UpperValue(r.productType))
  }

  lemma UppercasedGet(r: Record, f: Field)
    ensures Get(Uppercased(r), f) == UpperValue(Get(r, f))
  {
  }

  lemma RecordsAgree(a: Record, b: Record)
    requires forall f :: Get(a, f) == Get(b, f)
    ensures a == b
  {
    assert Get(a, VehicleNum) == Get(b, VehicleNum) && Get(a, Destination) == Get(b, Destination);
    assert Get(a, Weight) == Get(b, Weight) && Get(a, SoNo) == Get(b, SoNo);
    assert Get(a, PhoneNum) == Get(b, PhoneNum) && Get(a, DriverLicense) == Get(b, DriverLicense);
    assert Get(a, DriverName) == Get(b, DriverName) && Get(a, ProductType) == Get(b, ProductType);
  }

  /** The loop over the keys of a copy of the record. */
  method ConvertDataToUppercase(data: Record) returns (result: Record)
    ensures result == Uppercased(data)
  {
    result := data;
    for i := 0 to |AllFieldsInOrder|
      invariant forall k :: 0 <= k < i ==> Get(result, AllFieldsInOrder[k]) == UpperValue(Get(data, AllFieldsInOrder[k]))
      invariant forall k :: i <= k < |AllFieldsInOrder| ==> Get(result, AllFieldsInOrder[k]) == Get(data, AllFieldsInOrder[k])
    {
      var key := AllFieldsInOrder[i];
      var v := Get(result, key);
      if Truthy(v) {
        result := Set(result, key, Some(ToUpper(v.value)));
      }
    }
    forall f ensures Get(result, f) == Get(Uppercased(data), f) {
      UppercasedGet(data, f);
      AllFieldsListed(f);
    }
    RecordsAgree(result, Uppercased(data));
  }

  /** Uppercasing changes no `null` and no empty value, keeps every
      value's length, and is idempotent. */
  lemma UppercaseShape(r: Record, f: Field)
    ensures Get(Uppercased(r), f).None? <==> Get(r, f).None?
    ensures Get(r, f).Some? ==> |Get(Uppercased(r), f).value| == |Get(r, f).value|
    ensures !Truthy(Get(r, f)) ==> Get(Uppercased(r), f) == Get(r, f)
    ensures Uppercased(Uppercased(r)) == Uppercased(r)
  {
    UppercasedGet(r, f);
    forall g ensures Get(Uppercased(Uppercased(r)), g) == Get(Uppercased(r), g) {
      UppercasedGet(r, g);
      UppercasedGet(Uppercased(r), g);
      var v := Get(r, g);
      if Truthy(v) {
        assert ToUpper(ToUpper(v.value)) == ToUpper(v.value);
      }
    }
    RecordsAgree(Uppercased(Uppercased(r)), Uppercased(r));
  }

  // ---------------------------------------------------------------------
  // Required fields

  /** The fields a dispatch needs, in the order they are reported. */
  const RequiredFields: seq<Field> := [PhoneNum, DriverName, DriverLicense, VehicleNum, Weight, SoNo]

  /** A value that `validateRequiredFields` reports: null, empty, or one
      that trims to `''`, which is one made of white space only. */
  predicate IsMissing(v: Option<string>) {
    v.None? || IsBlank(v.value)
  }

  /** The fields of `fields` whose value in `r` is missing, in order. */
  function MissingAmong(r: Record, fields: seq<Field>): seq<Field> {
    if fields == [] then []
    else (if IsMissing(Get(r, fields[0])) then [fields[0]] else []) + MissingAmong(r, fields[1..])
  }

  function MissingFields(r: Record): seq<Field> { MissingAmong(r, RequiredFields) }

  lemma {:induction false} MissingAmongSnoc(r: Record, fields: seq<Field>, f: Field)
    ensures MissingAmong(r, fields + [f]) == MissingAmong(r, fields) + (if IsMissing(Get(r, f)) then [f] else [])
    decreases |fields|
  {
    if fields == [] {
      assert [f][1..] == [];
    } else {
      assert (fields + [f])[0] == fields[0] && (fields + [f])[1..] == fields[1..] + [f];
      MissingAmongSnoc(r, fields[1..], f);
    }
  }

  /** `validateRequiredFields`: the loop over the required fields. */
  method ValidateRequiredFields(data: Record) returns (missing: seq<Field>)
    ensures missing == MissingFields(data)
  {
    missing := [];
    for i := 0 to |RequiredFields|
      invariant missing == MissingAmong(data, RequiredFields[..i])
    {
      var field := RequiredFields[i];
      MissingAmongSnoc(data, RequiredFields[..i], field);
      assert RequiredFields[..i + 1] == RequiredFields[..i] + [field];
      if Get(data, field).None? || Trim(Get(data, field).value) == "" {
        assert IsMissing(Get(data, field));
        missing := missing + [field];
      }
    }
    assert RequiredFields[..|RequiredFields|] == RequiredFields;
  }

  /** Exactly the missing fields of `fields` are reported. */
  lemma {:induction false} MissingAmongExact(r: Record, fields: seq<Field>)
    ensures forall f :: f in MissingAmong(r, fields) <==> f in fields && IsMissing(Get(r, f))
    decreases |fields|
  {
    if fields != [] {
      MissingAmongExact(r, fields[1..]);
      assert forall f :: f in fields <==> f == fields[0] || f in fields[1..];
    }
  }

  /** `s` lists fields in the declared order, none twice. */
  predicate InDeclaredOrder(s: seq<Field>) {
    forall i, j :: 0 <= i < j < |s| ==> Rank(s[i]) < Rank(s[j])
  }

  /** Dropping the present fields keeps the order. */
  lemma {:induction false} MissingAmongOrdered(r: Record, fields: seq<Field>)
    requires InDeclaredOrder(fields)
    ensures InDeclaredOrder(MissingAmong(r, fields))
    decreases |fields|
  {
    if fields != [] {
      var rest := MissingAmong(r, fields[1..]);
      assert InDeclaredOrder(fields[1..]) by {
        forall i, j | 0 <= i < j < |fields[1..]| ensures Rank(fields[1..][i]) < Rank(fields[1..][j]) {
          assert fields[1..][i] == fields[i + 1] && fields[1..][j] == fields[j + 1];
        }
      }
      MissingAmongOrdered(r, fields[1..]);
      if IsMissing(Get(r, fields[0])) {
        MissingAmongExact(r, fields[1..]);
        forall k | 0 <= k < |rest| ensures Rank(fields[0]) < Rank(rest[k]) {
          assert rest[k] in fields[1..];
          var j :| 0 <= j < |fields[1..]| && fields[1..][j] == rest[k];
          assert fields[j + 1] == rest[k];
        }
        var m := [fields[0]] + rest;
        forall i, j | 0 <= i < j < |m| ensures Rank(m[i]) < Rank(m[j]) {
          if i > 0 { assert m[i] == rest[i - 1]; }
          assert m[j] == rest[j - 1];
        }
      }
    }
  }

  /** The required fields are reported exactly when missing, each once, in
      the declared order `phone_num`, `driver_name`, `driver_license`,
      `vehicle_num`, `weight`, `so_no`; none is reported only when all six
      are present. */
  lemma MissingFieldsMeaning(r: Record)
    ensures forall f :: f in MissingFields(r) <==> f in RequiredFields && IsMissing(Get(r, f))
    ensures InDeclaredOrder(MissingFields(r))
    ensures MissingFields(r) == [] <==> forall k :: 0 <= k < |RequiredFields| ==> !IsMissing(Get(r, RequiredFields[k]))
  {
    MissingAmongExact(r, RequiredFields);
    MissingAmongOrdered(r, RequiredFields);
    if MissingFields(r) != [] {
      assert MissingFields(r)[0] in MissingFields(r);
    }
  }

  /** A required field of a record with nothing missing is present. */
  lemma PresentWhenNoneMissing(r: Record, f: Field)
    requires MissingFields(r) == [] && f in RequiredFields
    ensures !IsMissing(Get(r, f))
  {
    MissingAmongExact(r, RequiredFields);
    assert f !in MissingFields(r);
  }

  /** The position of a field in the declared order of the required fields. */
  function Rank(f: Field): nat {
    match f
    case PhoneNum => 0
    case DriverName => 1
    case DriverLicense => 2
    case VehicleNum => 3
    case Weight => 4
    case SoNo => 5
    case _ => 6
  }

  /** Uppercasing a record does not change which fields are missing, so the
      command may validate the uppercased record. */
  lemma UppercasePreservesMissing(r: Record)
    ensures MissingFields(Uppercased(r)) == MissingFields(r)
  {
    forall f ensures IsMissing(Get(Uppercased(r), f)) == IsMissing(Get(r, f)) {
      UppercasedGet(r, f);
      var v := Get(r, f);
      if Truthy(v) {
        UpperKeepsBlank(v.value);
      }
    }
    MissingAmongSame(Uppercased(r), r, RequiredFields);
  }

  lemma UpperKeepsBlank(s: string)
    ensures IsBlank(ToUpper(s)) == IsBlank(s)
  {
    assert forall i :: 0 <= i < |s| ==> IsSpace(ToUpper(s)[i]) == IsSpace(s[i]);
  }

  lemma {:induction false} MissingAmongSame(a: Record, b: Record, fields: seq<Field>)
    requires forall f :: IsMissing(Get(a, f)) == IsMissing(Get(b, f))
    ensures MissingAmong(a, fields) == MissingAmong(b, fields)
    decreases |fields|
  {
    if fields != [] { MissingAmongSame(a, b, fields[1..]); }
  }

  // ---------------------------------------------------------------------
  // Field labels

  /** `formatFieldName`: the label of a required field, the property name
      for any other field. */
  function FormatFieldName(f: Field): (shown: string)
    ensures f !in RequiredFields ==> shown == Name(f)
  {
    match f
    case PhoneNum => "Phone Number"
    case DriverName => "Driver Name"
    case DriverLicense => "Driver License"
    case VehicleNum => "Vehicle Number"
    case Weight => "Weight"
    case SoNo => "SO Number"
    case _ => Name(f)
  }

  /** Different fields get different labels, so the missing-fields reply
      names each missing field unambiguously. */
  lemma FormatFieldNameInjective(f: Field, g: Field)
    ensures FormatFieldName(f) == FormatFieldName(g) ==> f == g
  {
    if f != g {
      assert FormatFieldName(f)[0] != FormatFieldName(g)[0] || |FormatFieldName(f)| != |FormatFieldName(g)|
          || FormatFieldName(f) != FormatFieldName(g);
    }
  }

  /** `missingFields.map(formatFieldName)`. The `ensures` restates the
      comprehension; it is there for the solver, which reads the elements
      of a `seq` comprehension poorly. */
  function Labels(fields: seq<Field>): (labels: seq<string>)
    ensures |labels| == |fields| && forall k :: 0 <= k < |fields| ==> labels[k] == FormatFieldName(fields[k])
  {
    seq(|fields|, k requires 0 <= k < |fields| => FormatFieldName(fields[k]))
  }

  /** `labels.join(', ')`. */
  function Join(labels: seq<string>): string {
    if labels == [] then ""
    else if |labels| == 1 then labels[0]
    else labels[0] + ", " + Join(labels[1..])
  }

  /** The text the missing-fields reply starts with. */
  const MissingHead := "❌ *Details Missing*\n\nMissing: "

  /** The reply to a record with missing fields: it names every one of them
      by its label, and what follows the heading reads back, split at
      `, `, as exactly their labels in order. */
  function MissingReply(missing: seq<Field>): (reply: string)
    ensures StartsWith(reply, MissingHead)
    ensures Unjoin(reply[|MissingHead|..]) == Labels(missing)
    ensures forall k :: 0 <= k < |missing| ==> Contains(reply, FormatFieldName(missing[k]))
  {
    var labels := Labels(missing);
    JoinListed(labels);
    forall k | 0 <= k < |labels| ensures Contains(MissingHead + Join(labels), labels[k]) {
      OccursAfter(MissingHead, Join(labels), labels[k]);
    }
    LabelsReadBack(missing);
    assert (MissingHead + Join(labels))[|MissingHead|..] == Join(labels);
    MissingHead + Join(labels)
  }

  /** A field is named in the missing-fields reply exactly when it is one of
      the missing ones: the reply lists no other field. */
  lemma MissingReplyExact(missing: seq<Field>, f: Field)
    ensures FormatFieldName(f) in Unjoin(MissingReply(missing)[|MissingHead|..]) <==> f in missing
  {
    var labels := Labels(missing);
    if FormatFieldName(f) in labels {
      var k :| 0 <= k < |labels| && labels[k] == FormatFieldName(f);
      FormatFieldNameInjective(f, missing[k]);
    }
  }

  /** A `, `-separated list read back into its items: the text split at
      each `, `, with no items for the empty text. */
  function Unjoin(s: string): seq<string> {
    if s == "" then [] else Pieces(s, "")
  }

  /** `cur` extended by `s` up to its first `, `, then the items after it. */
  function Pieces(s: string, cur: string): seq<string>
    decreases |s|
  {
    if s == "" then [cur]
    else if |s| >= 2 && s[0] == ',' && s[1] == ' ' then [cur] + Pieces(s[2..], "")
    else Pieces(s[1..], cur + [s[0]])
  }

  predicate CommaFree(l: string) { ',' !in l }

  /** Every label is a non-empty text without a comma. */
  lemma LabelShape(f: Field)
    ensures FormatFieldName(f) != "" && CommaFree(FormatFieldName(f))
  {
  }

  /** The labels of `fields`, joined, read back as those labels. */
  lemma LabelsReadBack(fields: seq<Field>)
    ensures Unjoin(Join(Labels(fields))) == Labels(fields)
  {
    var labels := Labels(fields);
    forall k | 0 <= k < |labels| ensures labels[k] != "" && CommaFree(labels[k]) {
      LabelShape(fields[k]);
    }
    UnjoinJoin(labels);
  }

  /** Joining non-empty, comma-free items at `, ` and splitting the result
      at `, ` gives the items back. */
  lemma {:induction false} UnjoinJoin(labels: seq<string>)
    requires forall k :: 0 <= k < |labels| ==> labels[k] != "" && CommaFree(labels[k])
    ensures Unjoin(Join(labels)) == labels
  {
    if labels != [] {
      PiecesJoin(labels);
      JoinStarts(labels);
    }
  }

  lemma {:induction false} JoinStarts(labels: seq<string>)
    requires labels != []
    ensures StartsWith(Join(labels), labels[0])
  {
    if |labels| > 1 {
      assert Join(labels) == labels[0] + (", " + Join(labels[1..]));
    }
  }

  lemma {:induction false} PiecesJoin(labels: seq<string>)
    requires labels != []
    requires forall k :: 0 <= k < |labels| ==> CommaFree(labels[k])
    ensures Pieces(Join(labels), "") == labels
    decreases |labels|
  {
    if |labels| == 1 {
      PiecesOfItem(labels[0], "", "");
      assert labels[0] + "" == labels[0] && "" + labels[0] == labels[0];
    } else {
      var rest := labels[1..];
      assert Join(labels) == labels[0] + (", " + Join(rest));
      PiecesOfItem(labels[0], ", " + Join(rest), "");
      assert "" + labels[0] == labels[0];
      assert (", " + Join(rest))[2..] == Join(rest);
      PiecesJoin(rest);
      assert [labels[0]] + rest == labels;
    }
  }

  /** A comma-free item extends the current one. */
  lemma {:induction false} PiecesOfItem(l: string, rest: string, cur: string)
    requires CommaFree(l)
    ensures Pieces(l + rest, cur) == Pieces(rest, cur + l)
    decreases |l|
  {
    if l == "" {
      assert l + rest == rest && cur + l == cur;
    } else {
      assert (l + rest)[0] == l[0] && (l + rest)[1..] == l[1..] + rest;
      PiecesOfItem(l[1..], rest, cur + [l[0]]);
      assert cur + [l[0]] + l[1..] == cur + l;
    }
  }

  /** `pat` occurs somewhere in `text`. */
  ghost predicate Occurs(text: string, pat: string) {
    exists j :: OccursAt(text, pat, j)
  }

  /** Each label occurs in the joined text. */
  lemma {:induction false} JoinListed(labels: seq<string>)
    ensures forall k :: 0 <= k < |labels| ==> Occurs(Join(labels), labels[k])
    decreases |labels|
  {
    if |labels| == 1 {
      OccursFirst(labels[0], "");
      assert labels[0] + "" == Join(labels);
    } else if |labels| > 1 {
      JoinListed(labels[1..]);
      OccursCons(labels[0], labels[1..], Join(labels[1..]));
      assert [labels[0]] + labels[1..] == labels;
    }
  }

  lemma {:induction false} OccursCons(first: string, rest: seq<string>, text: string)
    requires forall k :: 0 <= k < |rest| ==> Occurs(text, rest[k])
    ensures forall k :: 0 <= k < |rest| + 1 ==> Occurs(first + ", " + text, ([first] + rest)[k])
  {
    var pre := first + ", ";
    forall k | 0 <= k < |rest| + 1 ensures Occurs(pre + text, ([first] + rest)[k]) {
      if k == 0 {
        OccursFirst(first, ", " + text);
        assert first + (", " + text) == pre + text;
      } else {
        assert ([first] + rest)[k] == rest[k - 1];
        OccursAfter(pre, text, rest[k - 1]);
      }
    }
  }

  lemma {:induction false} OccursFirst(first: string, tail: string)
    ensures Occurs(first + tail, first)
  {
    assert OccursAt(first + tail, first, 0) by { assert (first + tail)[0..|first|] == first; }
  }

  lemma {:induction false} OccursAfter(pre: string, text: string, pat: string)
    requires Occurs(text, pat)
    ensures Occurs(pre + text, pat) && Contains(pre + text, pat)
  {
    var j :| OccursAt(text, pat, j);
    OccursShifted(pre, text, pat, j);
  }

  lemma {:induction false} OccursShifted(pre: string, s: string, pat: string, j: int)
    requires OccursAt(s, pat, j)
    ensures OccursAt(pre + s, pat, |pre| + j)
  {
    assert (pre + s)[|pre| + j..|pre| + j + |pat|] == s[j..j + |pat|];
  }
}
