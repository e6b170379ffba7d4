/** The Model-2 severity classifier (model2/pipeline/severity.py): places one
    laboratory value on an ordinal scale against its reference range. */
module Severity {
  import opened Common
  import opened Numeric

  /** The twelve labels a classification can carry. */
  datatype Label =
    | Missing | UnknownRange | Unparseable
    | VerySevereLow | SevereLow | Low | BorderlineLow | Normal
    | BorderlineHigh | High | SevereHigh | VerySevereHigh

  /** The label as the pipeline spells it. */
  function Name(l: Label): string {
    match l
    case Missing => "missing"
    case UnknownRange => "unknown_range"
    case Unparseable => "unparseable"
    case VerySevereLow => "very_severe_low"
    case SevereLow => "severe_low"
    case Low => "low"
    case BorderlineLow => "borderline_low"
    case Normal => "normal"
    case BorderlineHigh => "borderline_high"
    case High => "high"
    case SevereHigh => "severe_high"
    case VerySevereHigh => "very_severe_high"
  }

  /** A reference range as the range lookup returns it. */
  datatype RefRange = RefRange(low: real, high: real, units: string)

  /** The lookup `get_reference_range(param, age, gender)`, whose table is not
      part of this model; it is an input. */
  type RangeLookup = (string, Value, Value) -> Option<RefRange>

  /** The human-readable note. `RangeNote` renders as
      "{v} {units} (reference {low} - {high} {units})". */
  datatype Note =
    | NoValue                 // "No value"
    | NoRange                 // "No reference range"
    | Verbatim(raw: Value)    // str(value)
    | RangeNote(v: real, units: string, low: real, high: real)

  /** The result dictionary; `grade` is its "label" entry. */
  datatype Classification = Classification(value: Value, grade: Label, note: Note, distance: Option<real>)

  /** Position on the ordinal scale of a label given to a parsed value. */
  function Rank(l: Label): nat {
    match l
    case VerySevereLow => 0
    case SevereLow => 1
    case Low => 2
    case BorderlineLow => 3
    case Normal => 4
    case BorderlineHigh => 5
    case High => 6
    case SevereHigh => 7
    case VerySevereHigh => 8
    case _ => 4
  }

  predicate BelowRange(l: Label) { l == VerySevereLow || l == SevereLow || l == Low }
  predicate AboveRange(l: Label) { l == High || l == SevereHigh || l == VerySevereHigh }
  predicate InRange(l: Label) { l == BorderlineLow || l == Normal || l == BorderlineHigh }

  /** The width used for the 5% borderline band: high - low, or, for a
      one-point range, high (1 when high is 0). */
  function Span(low: real, high: real): (s: real)
    ensures low < high ==> s == high - low
    ensures low == high ==> s == (if high != 0.0 then high else 1.0)
  {
    if high != low then high - low else if high != 0.0 then high else 1.0
  }

  /** The label of a parsed value against (low, high). */
  function Grade(v: real, low: real, high: real): (l: Label)
    ensures v < low ==> BelowRange(l)
    ensures v < low && v < 0.5 * low ==> l == VerySevereLow
    ensures 0.5 * low <= v < 0.7 * low && v < low ==> l == SevereLow
    ensures 0.7 * low <= v < low ==> l == Low
    ensures low <= v && v > high ==> AboveRange(l)
    ensures low <= v && high < v && v > 2.0 * high ==> l == VerySevereHigh
    ensures low <= v && high < v <= 2.0 * high && v > 1.5 * high ==> l == SevereHigh
    ensures low <= v && high < v <= 1.5 * high ==> l == High
    ensures low <= v <= high ==> InRange(l)
    ensures low <= v <= high ==> (l == BorderlineLow <==> v - low <= 0.05 * Span(low, high))
    ensures low <= v <= high ==>
      (l == BorderlineHigh <==> v - low > 0.05 * Span(low, high) && high - v <= 0.05 * Span(low, high))
  {
    if v < low then
      if v < 0.5 * low then VerySevereLow else if v < 0.7 * low then SevereLow else Low
    else if v > high then
      if v > 2.0 * high then VerySevereHigh else if v > 1.5 * high then SevereHigh else High
    else
      var border := 0.05 * Span(low, high);
      if v - low <= border then BorderlineLow
      else if high - v <= border then BorderlineHigh
      else Normal
  }

  /** `label_from_range(param, value, age, gender)`. */
  function LabelFromRange(ranges: RangeLookup, param: string, value: Value, age: Value, gender: Value)
    : (r: Classification)
    ensures value.VNone? ==> r == Classification(VNone, Missing, NoValue, None)
    ensures !value.VNone? && ranges(param, age, gender).None? ==>
      r == Classification(value, UnknownRange, NoRange, None)
    ensures !value.VNone? && ranges(param, age, gender).Some? && ValueToFloat(value).None? ==>
      r == Classification(value, Unparseable, Verbatim(value), None)
    ensures r.distance.Some? <==> ValueToFloat(value).Some? && ranges(param, age, gender).Some?
    ensures r.distance.Some? ==>
      var v := ValueToFloat(value).value;
      var rg := ranges(param, age, gender).value;
      && r.value == VFloat(v)
      && r.grade == Grade(v, rg.low, rg.high)
      && r.note == RangeNote(v, rg.units, rg.low, rg.high)
      && (v < rg.low ==> r.distance.value == v - rg.low < 0.0)
      && (rg.low <= v && v > rg.high ==> r.distance.value == v - rg.high > 0.0)
      && (rg.low <= v <= rg.high ==> r.distance.value == 0.0)
  {
    if value.VNone? then Classification(VNone, Missing, NoValue, None)
    else
      match ranges(param, age, gender)
      case None => Classification(value, UnknownRange, NoRange, None)
      case Some(rg) =>
        match ValueToFloat(value)
        case None => Classification(value, Unparseable, Verbatim(value), None)
        case Some(v) =>
          var d := if v < rg.low then v - rg.low else if v > rg.high then v - rg.high else 0.0;
          Classification(VFloat(v), Grade(v, rg.low, rg.high), RangeNote(v, rg.units, rg.low, rg.high), Some(d))
  }

  /** The sign of the distance tells which side of the range the label is on. */
  lemma DistanceMatchesLabel(ranges: RangeLookup, param: string, value: Value, age: Value, gender: Value)
    requires LabelFromRange(ranges, param, value, age, gender).distance.Some?
    ensures var r := LabelFromRange(ranges, param, value, age, gender);
      && (r.distance.value < 0.0 <==> BelowRange(r.grade))
      && (r.distance.value > 0.0 <==> AboveRange(r.grade))
      && (r.distance.value == 0.0 <==> InRange(r.grade))
  {
  }

  /** The scale is ordinal: a larger value never gets a lower label, whatever
      the range (even an inverted one). */
  lemma GradeMonotone(v1: real, v2: real, low: real, high: real)
    requires v1 <= v2
    ensures Rank(Grade(v1, low, high)) <= Rank(Grade(v2, low, high))
  {
    var l1, l2 := Grade(v1, low, high), Grade(v2, low, high);
    if v1 < low && v2 < low {
      if low < 0.0 {
        assert v1 < 0.5 * low && v2 < 0.5 * low;
      }
    } else if v1 > high && v2 > high && low <= v1 {
      if high < 0.0 {
        assert v1 > 2.0 * high && v2 > 2.0 * high;
      }
    } else if low <= v1 <= high && low <= v2 <= high {
      var border := 0.05 * Span(low, high);
      if l1 == BorderlineHigh {
        assert high - v2 <= border;
      }
    }
  }

  predicate Severe(l: Label) {
    l == SevereLow || l == VerySevereLow || l == SevereHigh || l == VerySevereHigh
  }

  lemma SevereNamed(l: Label)
    requires Severe(l)
    ensures Contains(Name(l), "severe")
  {
    var n := Name(l);
    if l == SevereLow || l == SevereHigh {
      ContainsAt(n, "severe", 0);
    } else if l == VerySevereLow {
      assert n == "very_" + "severe" + "_low";
      SevereInside("very_", "_low");
    } else {
      assert n == "very_" + "severe" + "_high";
      SevereInside("very_", "_high");
    }
  }

  lemma SevereInside(a: string, b: string)
    ensures Contains(a + "severe" + b, "severe")
  {
    var s := a + "severe" + b;
    assert s[|a|..][..6] == "severe";
    ContainsAt(s, "severe", |a|);
  }

  lemma MildNamed(l: Label)
    requires !Severe(l)
    ensures !Contains(Name(l), "severe")
  {
    assert 'v' !in Name(l);
    MissingChar(Name(l), "severe", 2);
  }

  /** Exactly the four severe labels mention "severe" in their names. */
  lemma MentionsSevere(l: Label)
    ensures Contains(Name(l), "severe") <==> Severe(l)
  {
    if Severe(l) {
      SevereNamed(l);
    } else {
      MildNamed(l);
    }
  }
}
