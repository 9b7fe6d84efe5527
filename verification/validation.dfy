/** Submit-time bounds checking of the four numeric fields. */
module Validation {
  import opened Wrappers
  import opened Readings

  datatype Field = HbField | SysField | DiaField | SugarField

  /** The message reported for a field that fails its bounds. */
  function Message(f: Field): string {
    match f
    case HbField => "HB must be 1–25 g/dL."
    case SysField => "Systolic BP must be 60–260 mmHg."
    case DiaField => "Diastolic BP must be 40–160 mmHg."
    case SugarField => "Sugar must be 30–500 mg/dL."
  }

  /** The messages in the order the fields are checked. */
  const Messages: seq<string> :=
    [Message(HbField), Message(SysField), Message(DiaField), Message(SugarField)]

  /** A field passes when it is present and within its inclusive bounds;
      a missing (NaN) value always fails. */
  predicate InBounds(i: Inputs, f: Field) {
    match f
    case HbField => i.hb.Some? && 1.0 <= i.hb.value <= 25.0
    case SysField => i.sys.Some? && 60 <= i.sys.value <= 260
    case DiaField => i.dia.Some? && 40 <= i.dia.value <= 160
    case SugarField => i.sugar.Some? && 30.0 <= i.sugar.value <= 500.0
  }

  predicate Valid(i: Inputs) {
    InBounds(i, HbField) && InBounds(i, SysField) && InBounds(i, DiaField) && InBounds(i, SugarField)
  }

  /** Where a field stands in the order of the checks. */
  function Ordinal(f: Field): nat {
    match f
    case HbField => 0
    case SysField => 1
    case DiaField => 2
    case SugarField => 3
  }

  /** Different fields have different messages, and each field's message
      sits at the field's place in `Messages`. */
  lemma MessageInjective(f: Field, g: Field)
    ensures Message(f) == Message(g) ==> f == g
    ensures Ordinal(f) < |Messages| && Messages[Ordinal(f)] == Message(f)
  {
  }

  /** A valid submission has every reading present. */
  lemma ValidHasReadings(i: Inputs)
    ensures Valid(i) ==> i.hb.Some? && i.sys.Some? && i.dia.Some? && i.sugar.Some?
  {
  }

  /** One check: nothing when the field passes, the field otherwise. */
  function Check(ok: bool, f: Field): seq<Field> {
    if ok then [] else [f]
  }

  /** The fields that fail, in the order they are checked. */
  function FailingFields(i: Inputs): (fs: seq<Field>)
    ensures forall f :: f in fs <==> !InBounds(i, f)
    ensures forall j, k :: 0 <= j < k < |fs| ==> Ordinal(fs[j]) < Ordinal(fs[k])
  {
    Check(InBounds(i, HbField), HbField)
    + Check(InBounds(i, SysField), SysField)
    + Check(InBounds(i, DiaField), DiaField)
    + Check(InBounds(i, SugarField), SugarField)
  }

  /** The list of problems with a submission: one message for each failing
      field, in the order the fields are checked (hb, systolic, diastolic,
      sugar), so each message at most once and at most four in all. */
  function Validate(i: Inputs): (errs: seq<string>)
    ensures errs == [] <==> Valid(i)
    ensures forall f :: Message(f) in errs <==> !InBounds(i, f)
    ensures |errs| == |FailingFields(i)| <= 4
    ensures forall k :: 0 <= k < |errs| ==> errs[k] == Message(FailingFields(i)[k])
  {
    var fs := FailingFields(i);
    var errs := seq(|fs|, k requires 0 <= k < |fs| => Message(fs[k]));
    forall f
      ensures Message(f) in errs <==> f in fs
    {
      if Message(f) in errs {
        var k :| 0 <= k < |errs| && errs[k] == Message(f);
        MessageInjective(fs[k], f);
      }
      if f in fs {
        var k :| 0 <= k < |fs| && fs[k] == f;
        assert errs[k] == Message(f);
      }
    }
    errs
  }

  /** The sugar mode plays no part in validation. */
  lemma ModeIgnored(i: Inputs, mode: string)
    ensures Validate(i.(sugarMode := mode)) == Validate(i)
  {
  }

  /** When every field fails, all four messages are reported, in order. */
  lemma AllFailing(i: Inputs)
    requires !InBounds(i, HbField) && !InBounds(i, SysField)
    requires !InBounds(i, DiaField) && !InBounds(i, SugarField)
    ensures Validate(i) == Messages
  {
    var fs := FailingFields(i);
    assert fs == [HbField, SysField, DiaField, SugarField];
    assert Validate(i) == [Message(fs[0]), Message(fs[1]), Message(fs[2]), Message(fs[3])];
  }

  /** Every field out of range at once yields all four messages. */
  lemma AllFourReported()
    ensures Validate(Inputs(Some(0.5), Some(59), Some(161), Some(501.0), "fasting")) == Messages
  {
    AllFailing(Inputs(Some(0.5), Some(59), Some(161), Some(501.0), "fasting"));
  }
}
