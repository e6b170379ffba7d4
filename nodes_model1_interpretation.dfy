/** The interpretation node (nodes/model1_interpretation.py): every
    validated parameter re-read against its attached reference and given a
    low/high/normal/unknown status. */
module NodesInterpretation {
  import opened Common
  import opened NodesValidate

  /** One interpreted parameter: value, unit and reference copied through,
      and the status. */
  datatype Interpreted = Interpreted(value: real, unit: Value, reference: Option<(Option<real>, Option<real>)>, status: Flag)

  /** The status names the node writes. */
  function StatusName(f: Flag): string {
    match f
    case Unknown => "unknown"
    case LowFlag => "low"
    case HighFlag => "high"
    case NormalFlag => "normal"
  }

  /** Both bounds of an attached reference are present. */
  predicate Bounded(reference: Option<(Option<real>, Option<real>)>) {
    reference.Some? && reference.value.0.Some? && reference.value.1.Some?
  }

  /** The status of `v` against an attached reference; a missing reference
      or a missing bound leaves it unknown, and the bounds are inclusive. */
  function Status(v: real, reference: Option<(Option<real>, Option<real>)>): (f: Flag)
    ensures f == Unknown <==> !Bounded(reference)
    ensures f == LowFlag <==> Bounded(reference) && v < reference.value.0.value
    ensures f == HighFlag <==>
      Bounded(reference) && reference.value.0.value <= v && v > reference.value.1.value
    ensures f == NormalFlag <==>
      Bounded(reference) && reference.value.0.value <= v <= reference.value.1.value
  {
    match reference
    case None => Unknown
    case Some((low, high)) => DetermineFlag(Some(v), low, high)
  }

  /** The entry the node writes for one validated parameter. */
  function Interpret(info: Validated): (r: Interpreted)
    ensures r.value == info.value && r.unit == info.unit && r.reference == info.reference
    ensures r.status == Status(info.value, info.reference)
  {
    Interpreted(info.value, info.unit, info.reference, Status(info.value, info.reference))
  }

  /** `model1_interpretation_node(state)`: the map of interpreted entries,
      one per validated parameter, in the same order. */
  method Model1Interpretation(validated: Dict<Validated>) returns (interpreted: Dict<Interpreted>)
    requires DistinctKeys(validated)
    ensures Keys(interpreted) == Keys(validated)
    ensures forall i :: 0 <= i < |validated| ==> interpreted[i].1 == Interpret(validated[i].1)
  {
    interpreted := [];
    var i := 0;
    while i < |validated|
      invariant 0 <= i <= |validated|
      invariant |interpreted| == i
      invariant forall j :: 0 <= j < i ==> interpreted[j] == (validated[j].0, Interpret(validated[j].1))
    {
      var (name, info) := validated[i];
      assert !HasKey(interpreted, name) by {
        forall j | 0 <= j < i
          ensures interpreted[j].0 != name
        {
          assert interpreted[j].0 == validated[j].0;
        }
      }
      PutFresh(interpreted, name, Interpret(info));
      interpreted := Put(interpreted, name, Interpret(info));
      i := i + 1;
    }
  }

  // ---------------------------------------------------------------------
  // Agreement with the validation node

  /** The validation node's flag is the status its own reference gives. */
  predicate Consistent(e: Validated) {
    e.flag == Status(e.value, e.reference)
  }

  lemma ValidateOneConsistent(ranges: Dict<RangeEntry>, param: string, value: real, rawUnit: Value)
    ensures Consistent(ValidateOne(ranges, param, value, rawUnit).0)
  {
  }

  /** So on the validation node's output the interpretation node re-derives
      exactly the flag already stored: for every entry, status == flag. */
  lemma {:induction false} InterpretationAgrees(ranges: Dict<RangeEntry>, extracted: Dict<Extracted>, errors0: seq<Error>)
    ensures forall e :: e in ValidateAll(ranges, extracted, errors0).0 ==> Interpret(e.1).status == e.1.flag
  {
    if |extracted| > 0 {
      var init := extracted[..|extracted| - 1];
      InterpretationAgrees(ranges, init, errors0);
      var before := ValidateAll(ranges, init, errors0);
      var (param, info) := extracted[|extracted| - 1];
      assert ValidateAll(ranges, extracted, errors0) == ValidateStep(ranges, before.0, before.1, param, info);
      var x := NormalizeNumeric(info.value);
      if !info.value.VNone? && x.Some? {
        var entry := ValidateOne(ranges, param, x.value, info.unit).0;
        ValidateOneConsistent(ranges, param, x.value, info.unit);
        assert ValidateAll(ranges, extracted, errors0).0 == Put(before.0, param, entry);
        PutEntries(before.0, param, entry);
      }
    }
  }
}
