/** The validation node (nodes/validate_standardize.py): numeric clean-up,
    implicit scale correction, reference resolution against the fixed
    table of utils/reference_ranges.py, and the LOW/HIGH/NORMAL/UNKNOWN
    flag. */
module NodesValidate {
  import opened Common
  import opened Numeric

  // ---------------------------------------------------------------------
  // Tables

  /** An implicit-scale rule: values below `threshold` are multiplied. */
  datatype ScaleRule = ScaleRule(threshold: real, multiplier: real)

  const ScaleRules: Dict<ScaleRule> := [
    ("Total WBC count", ScaleRule(100.0, 1000.0)),
    ("Platelet Count", ScaleRule(1000.0, 1000.0)),
    ("Absolute Neutrophils", ScaleRule(100.0, 1000.0)),
    ("Absolute Lymphocytes", ScaleRule(100.0, 1000.0))]

  /** One entry of the reference table: its units and its "reference"
      object. */
  datatype RangeEntry = RangeEntry(units: seq<string>, reference: Json)

  function Bounds(low: int, high: int): Json {
    JObj([("low", JInt(low)), ("high", JInt(high))])
  }

  const DefaultRanges: Dict<RangeEntry> := [
    ("Hematocrit", RangeEntry(["%"], Bounds(36, 50))),
    ("MCHC", RangeEntry(["g/dL"], Bounds(32, 36))),
    ("Neutrophils", RangeEntry(["%"], Bounds(40, 75))),
    ("Lymphocytes", RangeEntry(["%"], Bounds(20, 45)))]

  // ---------------------------------------------------------------------
  // The pure helpers

  /** `normalize_numeric(value)`: commas dropped and blanks trimmed from a
      string, then `float()`; any failure gives None. */
  function NormalizeNumeric(v: Value): (r: Option<real>)
    ensures IsNumeric(v) ==> r == Some(AsReal(v))
    ensures v.VNone? ==> r.None?
  {
    match v
    case VStr(s) => ParseFloat(Strip(Replace(s, ",", "")))
    case _ => ValueToFloat(v)
  }

  /** `normalize_scale(param, value)` */
  function NormalizeScale(param: string, v: real): (r: real)
    ensures Get(ScaleRules, param).Some? && v < Get(ScaleRules, param).value.threshold ==>
      r == v * Get(ScaleRules, param).value.multiplier
    ensures Get(ScaleRules, param).None? || v >= Get(ScaleRules, param).value.threshold ==> r == v
  {
    match Get(ScaleRules, param)
    case None => v
    case Some(rule) => if v < rule.threshold then v * rule.multiplier else v
  }

  /** `resolve_reference(ref)`: direct "low"/"high" keys win; otherwise the
      first dict among adult_male, adult_female and adult; otherwise
      (None, None). A missing key reads as None. */
  function ResolveReference(ref: Json): (Json, Json) {
    if !ref.JObj? then (JNull, JNull)
    else
      var d := ref.fields;
      if HasKey(d, "low") && HasKey(d, "high") then (Get(d, "low").value, Get(d, "high").value)
      else FirstAdult(d, ["adult_male", "adult_female", "adult"])
  }

  function FirstAdult(d: Dict<Json>, keys: seq<string>): (Json, Json) {
    if |keys| == 0 then (JNull, JNull)
    else
      var g := Get(d, keys[0]);
      if g.Some? && g.value.JObj? then
        (GetOr(g.value.fields, "low", JNull), GetOr(g.value.fields, "high", JNull))
      else FirstAdult(d, keys[1..])
  }

  /** A bound from the table as a number; None stays None. */
  function Bound(j: Json): Option<real> {
    match j
    case JInt(i) => Some(i as real)
    case JNum(r) => Some(r)
    case _ => None
  }

  datatype Flag = Unknown | LowFlag | HighFlag | NormalFlag

  function FlagName(f: Flag): string {
    match f
    case Unknown => "UNKNOWN"
    case LowFlag => "LOW"
    case HighFlag => "HIGH"
    case NormalFlag => "NORMAL"
  }

  /** `determine_flag(value, low, high)`, bounds inclusive. */
  function DetermineFlag(v: Option<real>, low: Option<real>, high: Option<real>): (f: Flag)
    ensures f == Unknown <==> v.None? || low.None? || high.None?
    ensures f == LowFlag <==> v.Some? && low.Some? && high.Some? && v.value < low.value
    ensures f == HighFlag <==> v.Some? && low.Some? && high.Some? && low.value <= v.value && v.value > high.value
    ensures f == NormalFlag <==> v.Some? && low.Some? && high.Some? && low.value <= v.value <= high.value
  {
    if v.None? || low.None? || high.None? then Unknown
    else if v.value < low.value then LowFlag
    else if v.value > high.value then HighFlag
    else NormalFlag
  }

  // ---------------------------------------------------------------------
  // validate_and_standardize

  /** One extracted parameter: its raw "value" and "unit" entries. */
  datatype Extracted = Extracted(value: Value, unit: Value)

  /** One validated parameter; `reference` is present exactly when the low
      bound is. */
  datatype Validated = Validated(value: real, unit: Value, reference: Option<(Option<real>, Option<real>)>, flag: Flag)

  datatype Error =
    | MissingValue(param: string)              // "{param}: missing value"
    | InvalidNumber(param: string, raw: Value) // "{param}: invalid numeric value '{raw}'"
    | InvalidRange(param: string)              // "{param}: invalid reference range"
    | NoRange(param: string)                   // "{param}: no reference range defined"

  /** The entry for one parameter whose value parsed, and the error it adds
      if any. */
  function ValidateOne(ranges: Dict<RangeEntry>, param: string, value: real, rawUnit: Value)
    : (Validated, Option<Error>)
  {
    var v := NormalizeScale(param, value);
    match Get(ranges, param)
    case None => (Validated(v, rawUnit, None, Unknown), Some(NoRange(param)))
    case Some(entry) =>
      var resolved := ResolveReference(entry.reference);
      var low, high := Bound(resolved.0), Bound(resolved.1);
      var reference := if low.Some? then Some((low, high)) else None;
      if low.Some? && high.Some? then
        var unit := if Truthy(rawUnit) then rawUnit
                    else if |entry.units| > 0 then VStr(entry.units[0]) else VNone;
        (Validated(v, unit, reference, DetermineFlag(Some(v), low, high)), None)
      else (Validated(v, rawUnit, reference, Unknown), Some(InvalidRange(param)))
  }

  /** One loop iteration: the entry for `param`, if its value parses, and
      the error it adds, if any. */
  function ValidateStep(ranges: Dict<RangeEntry>, cleaned: Dict<Validated>, errors: seq<Error>,
                        param: string, info: Extracted)
    : (Dict<Validated>, seq<Error>)
  {
    if info.value.VNone? then (cleaned, errors + [MissingValue(param)])
    else match NormalizeNumeric(info.value)
      case None => (cleaned, errors + [InvalidNumber(param, info.value)])
      case Some(x) =>
        var (entry, err) := ValidateOne(ranges, param, x, info.unit);
        (Put(cleaned, param, entry), if err.Some? then errors + [err.value] else errors)
  }

  /** The cleaned map and the errors after the given entries, starting from
      the incoming errors. */
  function ValidateAll(ranges: Dict<RangeEntry>, extracted: Dict<Extracted>, errors0: seq<Error>)
    : (Dict<Validated>, seq<Error>)
  {
    if |extracted| == 0 then ([], errors0)
    else
      var before := ValidateAll(ranges, extracted[..|extracted| - 1], errors0);
      var last := extracted[|extracted| - 1];
      ValidateStep(ranges, before.0, before.1, last.0, last.1)
  }

  /** `validate_and_standardize(state)` over the reference table `ranges`
      (the node uses `DefaultRanges`); the returned map serves as both
      "validated_params" and "param_interpretation". */
  method ValidateAndStandardize(ranges: Dict<RangeEntry>, extracted: Dict<Extracted>, errors0: seq<Error>)
    returns (cleaned: Dict<Validated>, errors: seq<Error>)
    ensures (cleaned, errors) == ValidateAll(ranges, extracted, errors0)
  {
    cleaned, errors := [], errors0;
    var i := 0;
    while i < |extracted|
      invariant 0 <= i <= |extracted|
      invariant (cleaned, errors) == ValidateAll(ranges, extracted[..i], errors0)
    {
      assert extracted[..i + 1][..i] == extracted[..i];
      ghost var next := ValidateStep(ranges, cleaned, errors, extracted[i].0, extracted[i].1);
      assert ValidateAll(ranges, extracted[..i + 1], errors0) == next;
      var (param, info) := extracted[i];
      if info.value.VNone? {
        errors := errors + [MissingValue(param)];
      } else {
        var value := NormalizeNumeric(info.value);
        if value.None? {
          errors := errors + [InvalidNumber(param, info.value)];
        } else {
          var (entry, err) := ValidateOne(ranges, param, value.value, info.unit);
          cleaned := Put(cleaned, param, entry);
          if err.Some? {
            errors := errors + [err.value];
          }
        }
      }
      assert (cleaned, errors) == next;
      i := i + 1;
    }
    assert extracted[..|extracted|] == extracted;
  }

  // ---------------------------------------------------------------------
  // Properties

  /** The flag never moves down as the value grows. */
  function FlagRank(f: Flag): int {
    match f
    case LowFlag => 0
    case NormalFlag => 1
    case HighFlag => 2
    case Unknown => -1
  }

  lemma FlagMonotone(v1: real, v2: real, low: real, high: real)
    requires v1 <= v2
    ensures FlagRank(DetermineFlag(Some(v1), Some(low), Some(high)))
      <= FlagRank(DetermineFlag(Some(v2), Some(low), Some(high)))
  {
  }

  /** A scaled value lands at or above the threshold once it is large enough
      to scale into range, so scaling such a value twice changes nothing. */
  lemma {:induction false} ScaleSettles(param: string, v: real)
    requires Get(ScaleRules, param).Some?
    requires v * Get(ScaleRules, param).value.multiplier >= Get(ScaleRules, param).value.threshold
    ensures NormalizeScale(param, NormalizeScale(param, v)) == NormalizeScale(param, v)
  {
    var rule := Get(ScaleRules, param).value;
    assert (param, rule) in ScaleRules;
    if v < rule.threshold {
      assert NormalizeScale(param, v) == v * rule.multiplier;
    }
  }

  /** A nested adult range is consulted only when the direct bounds are
      incomplete, and then in the fixed order. */
  lemma AdultFallbackOrder(male: Dict<Json>, other: Json)
    ensures ResolveReference(JObj([("adult_male", JObj(male)), ("adult_female", other)]))
      == (GetOr(male, "low", JNull), GetOr(male, "high", JNull))
  {
    var d := [("adult_male", JObj(male)), ("adult_female", other)];
    assert !HasKey(d, "low");
    assert Get(d, "adult_male") == Some(JObj(male));
  }

  /** The incoming errors stay a prefix, each entry adds at most one error,
      and a parameter is in the cleaned map exactly when some entry for it
      has a parseable value. */
  predicate ParsedEntry(e: (string, Extracted), k: string) {
    e.0 == k && NormalizeNumeric(e.1.value).Some?
  }

  predicate Parses(extracted: Dict<Extracted>, k: string) {
    Any(extracted, e => ParsedEntry(e, k))
  }

  /** One step adds the key exactly when the value parses. */
  lemma StepKeys(ranges: Dict<RangeEntry>, cleaned: Dict<Validated>, errors: seq<Error>,
                 param: string, info: Extracted, k: string)
    ensures HasKey(ValidateStep(ranges, cleaned, errors, param, info).0, k) <==>
      HasKey(cleaned, k) || (k == param && NormalizeNumeric(info.value).Some?)
  {
    var x := NormalizeNumeric(info.value);
    if x.Some? {
      var entry := ValidateOne(ranges, param, x.value, info.unit).0;
      assert ValidateStep(ranges, cleaned, errors, param, info).0 == Put(cleaned, param, entry);
      PutKeys(cleaned, param, entry);
      assert HasKey(Put(cleaned, param, entry), k) <==> k in Keys(Put(cleaned, param, entry));
      assert HasKey(cleaned, k) <==> k in Keys(cleaned);
    }
  }

  lemma {:induction false} ValidateKeys(ranges: Dict<RangeEntry>, extracted: Dict<Extracted>, errors0: seq<Error>, k: string)
    ensures HasKey(ValidateAll(ranges, extracted, errors0).0, k) <==> Parses(extracted, k)
  {
    if |extracted| > 0 {
      var init := extracted[..|extracted| - 1];
      ValidateKeys(ranges, init, errors0, k);
      var before := ValidateAll(ranges, init, errors0);
      var last := extracted[|extracted| - 1];
      assert ValidateAll(ranges, extracted, errors0) == ValidateStep(ranges, before.0, before.1, last.0, last.1);
      StepKeys(ranges, before.0, before.1, last.0, last.1, k);
      AnySnoc(extracted, e => ParsedEntry(e, k));
    }
  }


  /** The cleaned map is a dict: no parameter appears twice. */
  lemma {:induction false} ValidateDistinct(ranges: Dict<RangeEntry>, extracted: Dict<Extracted>, errors0: seq<Error>)
    ensures DistinctKeys(ValidateAll(ranges, extracted, errors0).0)
  {
    if |extracted| > 0 {
      var init := extracted[..|extracted| - 1];
      ValidateDistinct(ranges, init, errors0);
      var before := ValidateAll(ranges, init, errors0);
      var (param, info) := extracted[|extracted| - 1];
      assert ValidateAll(ranges, extracted, errors0) == ValidateStep(ranges, before.0, before.1, param, info);
      var x := NormalizeNumeric(info.value);
      if !info.value.VNone? && x.Some? {
        PutDistinct(before.0, param, ValidateOne(ranges, param, x.value, info.unit).0);
      }
    }
  }

  /** A parameter outside the table is kept with flag UNKNOWN and
      reported. */
  lemma UntabledUnknown(ranges: Dict<RangeEntry>, param: string, value: real, unit: Value)
    requires !HasKey(ranges, param)
    ensures ValidateOne(ranges, param, value, unit).0.flag == Unknown
    ensures ValidateOne(ranges, param, value, unit).1 == Some(NoRange(param))
  {
  }

  lemma BoundsResolve(low: int, high: int)
    ensures ResolveReference(Bounds(low, high)) == (JInt(low), JInt(high))
  {
    var d := Bounds(low, high).fields;
    assert d[0].0 == "low" && d[1].0 == "high";
    assert IndexOf(d, "low") == 0;
    assert IndexOf(d, "high") == 1;
  }

  /** Every entry of the fixed table has two numeric bounds. */
  lemma DefaultRangesBounded(param: string, entry: RangeEntry)
    requires (param, entry) in DefaultRanges
    ensures exists low: int, high: int :: entry.reference == Bounds(low, high)
  {
  }

  /** So a tabled parameter is always flagged, carries its reference, and
      adds no error. */
  lemma TabledFlagged(param: string, value: real, unit: Value)
    requires HasKey(DefaultRanges, param)
    ensures ValidateOne(DefaultRanges, param, value, unit).1.None?
    ensures ValidateOne(DefaultRanges, param, value, unit).0.flag != Unknown
    ensures ValidateOne(DefaultRanges, param, value, unit).0.reference.Some?
  {
    var entry := Get(DefaultRanges, param).value;
    DefaultRangesBounded(param, entry);
    var low: int, high: int :| entry.reference == Bounds(low, high);
    BoundsResolve(low, high);
  }
}
