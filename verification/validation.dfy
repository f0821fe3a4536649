/**
 * Struct validation of the six-dimension request bodies: every field is
 * tagged `required,min=0,max=100`. For a float field `required` rejects the
 * zero value, `min`/`max` compare against the bounds, and the validator
 * reports at most one failed tag per field, the first in tag order.
 */
module Validation {
  import opened Wrappers
  import opened Records
  import Ids

  /** The Go field names, in declaration order (the order of Records.Fields). */
  const FieldNames: seq<string> :=
    ["Workload", "Compensation", "Growth", "WorkEnvironment", "WorkRelationships", "WorkValues"]

  /** One failed field: its name and the tag it failed on. */
  datatype FieldError = FieldError(field: string, tag: string)

  /** The first tag of `required,min=0,max=100` that `v` fails, if any. */
  function FailedTag(v: real): (r: Option<string>)
    ensures r.None? <==> 0.0 < v <= 100.0
    ensures r == Some("required") <==> v == 0.0
    ensures r == Some("min") <==> v < 0.0
    ensures r == Some("max") <==> v > 100.0
  {
    if v == 0.0 then Some("required")
    else if v < 0.0 then Some("min")
    else if v > 100.0 then Some("max")
    else None
  }

  /** A body the validator lets through: every dimension in (0, 100]. */
  predicate Acceptable(d: Dims) {
    && 0.0 < d.workload <= 100.0
    && 0.0 < d.compensation <= 100.0
    && 0.0 < d.growth <= 100.0
    && 0.0 < d.workEnvironment <= 100.0
    && 0.0 < d.workRelationships <= 100.0
    && 0.0 < d.workValues <= 100.0
  }

  lemma AcceptableFields(d: Dims)
    ensures Acceptable(d) <==> forall j :: 0 <= j < 6 ==> 0.0 < Fields(d)[j] <= 100.0
  {
    if forall j :: 0 <= j < 6 ==> 0.0 < Fields(d)[j] <= 100.0 {
      assert Fields(d)[0] == d.workload && Fields(d)[5] == d.workValues;
      assert Fields(d)[1] == d.compensation && Fields(d)[2] == d.growth;
      assert Fields(d)[3] == d.workEnvironment && Fields(d)[4] == d.workRelationships;
    }
  }

  /** An accepted body satisfies the snapshot and importance range constraints. */
  lemma AcceptableWithin(d: Dims)
    requires Acceptable(d)
    ensures Within(d, 0.0, 100.0) && Within(d, -100.0, 100.0)
  {
  }

  /** The field errors of `vals` (named by `names`), in field order. */
  function CheckFields(vals: seq<real>, names: seq<string>): (errs: seq<FieldError>)
    requires |vals| == |names|
    ensures |errs| <= |vals|
    ensures |errs| == 0 <==> forall j :: 0 <= j < |vals| ==> FailedTag(vals[j]).None?
  {
    if |vals| == 0 then []
    else
      match FailedTag(vals[0])
      case None => CheckFields(vals[1..], names[1..])
      case Some(tag) => [FieldError(names[0], tag)] + CheckFields(vals[1..], names[1..])
  }

  /** Every failing field is reported, under its own name and its first failed tag. */
  lemma {:induction false} FailuresReported(vals: seq<real>, names: seq<string>, j: nat)
    requires |vals| == |names| && j < |vals|
    requires FailedTag(vals[j]).Some?
    ensures FieldError(names[j], FailedTag(vals[j]).value) in CheckFields(vals, names)
    decreases |vals|
  {
    if j > 0 {
      FailuresReported(vals[1..], names[1..], j - 1);
    }
  }

  /** Every reported error belongs to a field that fails on that tag. */
  lemma {:induction false} ReportsAreFailures(vals: seq<real>, names: seq<string>, k: nat)
    requires |vals| == |names| && k < |CheckFields(vals, names)|
    ensures exists j :: 0 <= j < |vals| && FailedTag(vals[j]).Some? &&
                        CheckFields(vals, names)[k] == FieldError(names[j], FailedTag(vals[j]).value)
    decreases |vals|
  {
    var rest := CheckFields(vals[1..], names[1..]);
    if FailedTag(vals[0]).Some? && k == 0 {
      assert CheckFields(vals, names)[0] == FieldError(names[0], FailedTag(vals[0]).value);
    } else {
      var k' := if FailedTag(vals[0]).Some? then k - 1 else k;
      assert CheckFields(vals, names)[k] == rest[k'];
      ReportsAreFailures(vals[1..], names[1..], k');
      var j :| 0 <= j < |vals| - 1 && FailedTag(vals[1..][j]).Some? &&
               rest[k'] == FieldError(names[1..][j], FailedTag(vals[1..][j]).value);
      assert vals[1..][j] == vals[j + 1] && names[1..][j] == names[j + 1];
    }
  }

  /** validate.Struct on a body: its field errors, empty exactly when the body is acceptable. */
  function Validate(d: Dims): (errs: seq<FieldError>)
    ensures |errs| == 0 <==> Acceptable(d)
  {
    AcceptableFields(d);
    CheckFields(Fields(d), FieldNames)
  }

  /** The line the validator prints for one failed field of struct `structName`. */
  function FieldErrorText(structName: string, e: FieldError): (line: string)
    ensures Ids.StartsWith(line, "Key: '" + structName + "." + e.field + "'")
  {
    var key := "Key: '" + structName + "." + e.field + "'";
    var line := key + " Error:Field validation for '" + e.field + "' failed on the '" + e.tag + "' tag";
    assert line[..|key|] == key;
    line
  }

  /** The details of a validation error: one line per failed field (the validator joins them with newlines). */
  function Details(structName: string, errs: seq<FieldError>): (lines: seq<string>)
    ensures |lines| == |errs|
    ensures forall k :: 0 <= k < |errs| ==> lines[k] == FieldErrorText(structName, errs[k])
  {
    seq(|errs|, k requires 0 <= k < |errs| => FieldErrorText(structName, errs[k]))
  }

  /** When every value fails on the same tag, there is one error per field, in order. */
  lemma {:induction false} AllFailOnTag(vals: seq<real>, names: seq<string>, tag: string)
    requires |vals| == |names|
    requires forall j :: 0 <= j < |vals| ==> FailedTag(vals[j]) == Some(tag)
    ensures |CheckFields(vals, names)| == |vals|
    ensures forall k :: 0 <= k < |vals| ==> CheckFields(vals, names)[k] == FieldError(names[k], tag)
    decreases |vals|
  {
    if |vals| > 0 {
      var rest := CheckFields(vals[1..], names[1..]);
      assert FailedTag(vals[0]) == Some(tag);
      assert CheckFields(vals, names) == [FieldError(names[0], tag)] + rest;
      assert forall j :: 0 <= j < |vals| - 1 ==> vals[1..][j] == vals[j + 1];
      AllFailOnTag(vals[1..], names[1..], tag);
    }
  }

  /** A body with every dimension at its zero value fails `required` on all six fields. */
  lemma EmptyBodyFailsEverywhere()
    ensures |Validate(ZeroDims)| == 6
    ensures forall k :: 0 <= k < 6 ==> Validate(ZeroDims)[k] == FieldError(FieldNames[k], "required")
  {
    AllFailOnTag(Fields(ZeroDims), FieldNames, "required");
  }
}
