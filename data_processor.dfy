/** The report pipeline of the Streamlit app (data_processor.py): raw
    parameter values found in the report text are cleaned, checked against
    the reference database, rounded, and classified as Low, High or
    Normal. */
module DataProcessor {
  import opened Common
  import opened Numeric

  /** One REFERENCE_DATABASE entry: the range and the unit. */
  datatype Reference = Reference(low: real, high: real, unit: string)

  const ReferenceDatabase: Dict<Reference> := [
    ("Hemoglobin", Reference(12.0, 16.0, "g/dL")),
    ("RBC", Reference(4.2, 5.8, "mill/cumm")),
    ("WBC", Reference(4000.0, 11000.0, "cumm")),
    ("Platelet", Reference(150000.0, 410000.0, "cumm")),
    ("PCV", Reference(36.0, 52.0, "%")),
    ("MCV", Reference(80.0, 100.0, "fL")),
    ("MCH", Reference(27.0, 33.0, "pg")),
    ("MCHC", Reference(32.0, 36.0, "g/dL")),
    ("RDW", Reference(11.5, 14.5, "%")),
    ("Fasting Glucose", Reference(70.0, 100.0, "mg/dL")),
    ("Post Prandial Glucose", Reference(70.0, 140.0, "mg/dL")),
    ("Random Glucose", Reference(70.0, 140.0, "mg/dL")),
    ("HbA1c", Reference(4.0, 5.6, "%")),
    ("Total Cholesterol", Reference(125.0, 200.0, "mg/dL")),
    ("HDL", Reference(40.0, 100.0, "mg/dL")),
    ("LDL", Reference(0.0, 130.0, "mg/dL")),
    ("Triglycerides", Reference(0.0, 150.0, "mg/dL")),
    ("Urea", Reference(15.0, 45.0, "mg/dL")),
    ("Creatinine", Reference(0.6, 1.3, "mg/dL")),
    ("SGOT", Reference(5.0, 40.0, "U/L")),
    ("SGPT", Reference(5.0, 40.0, "U/L")),
    ("ALP", Reference(40.0, 129.0, "U/L")),
    ("Total Bilirubin", Reference(0.2, 1.2, "mg/dL")),
    ("TSH", Reference(0.4, 4.5, "µIU/mL")),
    ("Sodium", Reference(135.0, 145.0, "mmol/L")),
    ("Potassium", Reference(3.5, 5.1, "mmol/L"))]

  /** The keys of PARAMETER_PATTERNS, in order; each pattern's matches are
      an input to the extraction. */
  const ParameterNames: seq<string> := [
    "Hemoglobin", "RBC", "WBC", "Platelet", "PCV", "MCV", "MCH", "MCHC", "RDW",
    "Fasting Glucose", "Post Prandial Glucose", "Random Glucose", "HbA1c",
    "Total Cholesterol", "HDL", "LDL", "VLDL", "Triglycerides",
    "Urea", "Creatinine", "Uric Acid",
    "SGOT", "SGPT", "ALP", "Total Bilirubin", "Direct Bilirubin", "Albumin", "Total Protein",
    "TSH", "T3", "T4",
    "Sodium", "Potassium", "Chloride"]

  const Marks: set<char> := {'<', '>', ','}

  /** `_clean_numeric_string(s)`: every "<", ">" and "," removed, then
      surrounding blanks. */
  function CleanNumeric(s: string): (r: string)
    ensures forall i :: 0 <= i < |r| ==> r[i] !in Marks
    ensures r == "" || (!IsSpace(r[0]) && !IsSpace(r[|r| - 1]))
  {
    var removed := RemoveChars(s, Marks);
    StripInside(removed, c => c !in Marks);
    Strip(removed)
  }

  /** `_to_float(v)` on a string; a missing value (rendered "None") never
      parses. */
  function ToFloat(s: Option<string>): Option<real> {
    match s
    case None => None
    case Some(t) => ParseFloat(CleanNumeric(t))
  }

  // ---------------------------------------------------------------------
  // Extraction from text

  /** `_to_float(raw) is not None` */
  predicate Parsable(raw: string) {
    ToFloat(Some(raw)).Some?
  }

  /** The first matched value that `ok` accepts. */
  function FirstWhere(raws: seq<string>, ok: string -> bool): (r: Option<string>)
    ensures r.Some? ==> r.value in raws && ok(r.value)
    ensures r.None? <==> forall i :: 0 <= i < |raws| ==> !ok(raws[i])
  {
    if |raws| == 0 then None
    else if ok(raws[0]) then Some(raws[0])
    else
      var r := FirstWhere(raws[1..], ok);
      assert forall i :: 1 <= i < |raws| ==> raws[1..][i - 1] == raws[i];
      r
  }

  /** The entries after one more parameter `p` with matched values
      `raws`: the first accepted one, cleaned, unless `p` already has an
      entry. */
  function StepWith(before: Dict<string>, p: string, raws: seq<string>, ok: string -> bool): Dict<string> {
    if HasKey(before, p) then before
    else match FirstWhere(raws, ok)
      case None => before
      case Some(raw) => before + [(p, CleanNumeric(raw))]
  }

  /** The entries ("Parameter", "Raw_Value") after the given parameters;
      `found(p)` lists the values matched by `p`'s pattern, in order, and
      `ok` says which of them parse. */
  function ExtractWith(params: seq<string>, found: string -> seq<string>, ok: string -> bool): Dict<string> {
    if |params| == 0 then []
    else StepWith(ExtractWith(params[..|params| - 1], found, ok), params[|params| - 1], found(params[|params| - 1]), ok)
  }

  function Extract(params: seq<string>, found: string -> seq<string>): Dict<string> {
    ExtractWith(params, found, Parsable)
  }

  /** `_parse_text_for_parameters(text)` over the parameters' matches. */
  method ParseTextForParameters(params: seq<string>, found: string -> seq<string>) returns (extracted: Dict<string>)
    ensures extracted == Extract(params, found)
  {
    extracted := [];
    var k := 0;
    while k < |params|
      invariant 0 <= k <= |params|
      invariant extracted == Extract(params[..k], found)
    {
      assert params[..k + 1][..k] == params[..k];
      extracted := ScanMatches(extracted, params[k], found(params[k]), Parsable);
      k := k + 1;
    }
    assert params[..k] == params;
  }

  /** The inner loop over one parameter's matches. */
  method ScanMatches(start: Dict<string>, p: string, raws: seq<string>, ok: string -> bool) returns (extracted: Dict<string>)
    ensures extracted == StepWith(start, p, raws, ok)
  {
    extracted := start;
    var m := 0;
    while m < |raws|
      invariant 0 <= m <= |raws|
      invariant extracted == StepWith(start, p, raws[..m], ok)
    {
      ScanStep(start, p, raws, m, ok, extracted);
      if ok(raws[m]) {
        var present := Present(extracted, p);
        if !present {
          extracted := extracted + [(p, CleanNumeric(raws[m]))];
        }
      }
      m := m + 1;
    }
    assert raws[..m] == raws;
  }

  /** One turn of the inner loop, in terms of the entries so far. */
  lemma ScanStep(start: Dict<string>, p: string, raws: seq<string>, m: nat, ok: string -> bool, extracted: Dict<string>)
    requires m < |raws| && extracted == StepWith(start, p, raws[..m], ok)
    ensures StepWith(start, p, raws[..m + 1], ok) ==
      if HasKey(extracted, p) || !ok(raws[m]) then extracted else extracted + [(p, CleanNumeric(raws[m]))]
  {
    assert raws[..m + 1] == raws[..m] + [raws[m]];
    StepSnoc(start, p, raws[..m], raws[m], ok);
    if !HasKey(extracted, p) {
      assert !HasKey(start, p) && FirstWhere(raws[..m], ok).None?;
      assert extracted == start;
    }
  }

  /** One more match: it is taken only when it is accepted and `p` has no
      entry yet. */
  lemma StepSnoc(start: Dict<string>, p: string, raws: seq<string>, x: string, ok: string -> bool)
    ensures HasKey(StepWith(start, p, raws, ok), p) <==> HasKey(start, p) || FirstWhere(raws, ok).Some?
    ensures StepWith(start, p, raws + [x], ok) ==
      if HasKey(StepWith(start, p, raws, ok), p) || !ok(x) then StepWith(start, p, raws, ok)
      else start + [(p, CleanNumeric(x))]
  {
    FirstWhereSnoc(raws, x, ok);
    if !HasKey(start, p) && FirstWhere(raws, ok).Some? {
      assert StepWith(start, p, raws, ok)[|start|].0 == p;
    }
  }

  /** `any(d['Parameter'] == p for d in extracted)` */
  method Present(extracted: Dict<string>, p: string) returns (present: bool)
    ensures present == HasKey(extracted, p)
  {
    present := false;
    var i := 0;
    while i < |extracted|
      invariant 0 <= i <= |extracted|
      invariant present <==> exists j :: 0 <= j < i && extracted[j].0 == p
    {
      if extracted[i].0 == p {
        present := true;
      }
      i := i + 1;
    }
  }

  lemma FirstWhereSnoc(raws: seq<string>, x: string, ok: string -> bool)
    ensures FirstWhere(raws + [x], ok) ==
      if FirstWhere(raws, ok).Some? then FirstWhere(raws, ok) else if ok(x) then Some(x) else None
  {
    if |raws| > 0 {
      assert (raws + [x])[1..] == raws[1..] + [x];
      FirstWhereSnoc(raws[1..], x, ok);
    } else {
      assert ([] + [x])[1..] == [];
    }
  }

  // ---------------------------------------------------------------------
  // Standardization and classification

  /** One standardized item. */
  datatype Standardized = Standardized(parameter: string, value: real, unit: string, low: real, high: real)

  /** One raw item: "Parameter" and "Raw_Value", either possibly absent. */
  datatype RawItem = RawItem(parameter: Option<string>, rawValue: Option<string>)

  /** The standardized item for one raw item, when it is kept. */
  function StandardizeOne(item: RawItem): (r: Option<Standardized>)
    ensures r.Some? <==> (item.parameter.Some? && HasKey(ReferenceDatabase, item.parameter.value)
      && ToFloat(item.rawValue).Some?)
  {
    if item.parameter.None? then None
    else match Get(ReferenceDatabase, item.parameter.value)
      case None => None
      case Some(ref) =>
        match ToFloat(item.rawValue)
        case None => None
        case Some(v) => Some(Standardized(item.parameter.value, Round(v, 2), ref.unit, ref.low, ref.high))
  }

  function StandardizeAll(items: seq<RawItem>): seq<Standardized> {
    if |items| == 0 then []
    else
      var before := StandardizeAll(items[..|items| - 1]);
      match StandardizeOne(items[|items| - 1])
      case None => before
      case Some(s) => before + [s]
  }

  /** `validate_and_standardize(raw_data_list)` */
  method ValidateAndStandardize(items: seq<RawItem>) returns (standardized: seq<Standardized>)
    ensures standardized == StandardizeAll(items)
  {
    standardized := [];
    var k := 0;
    while k < |items|
      invariant 0 <= k <= |items|
      invariant standardized == StandardizeAll(items[..k])
    {
      assert items[..k + 1][..k] == items[..k];
      var item := items[k];
      if item.parameter.Some? {
        var ref := Get(ReferenceDatabase, item.parameter.value);
        if ref.Some? {
          var value := ToFloat(item.rawValue);
          if value.Some? {
            standardized := standardized + [Standardized(item.parameter.value, Round(value.value, 2),
                                                         ref.value.unit, ref.value.low, ref.value.high)];
          }
        }
      }
      k := k + 1;
    }
    assert items[..k] == items;
  }

  datatype Classification = Low | High | Normal

  /** Below the minimum is Low, above the maximum High, otherwise Normal
      (bounds inclusive). */
  function Classify(v: real, low: real, high: real): (c: Classification)
    ensures c == Low <==> v < low
    ensures c == High <==> low <= v && v > high
    ensures c == Normal <==> low <= v <= high
  {
    if v < low then Low else if v > high then High else Normal
  }

  /** A standardized item after classification. */
  datatype Classified = Classified(item: Standardized, classification: Option<Classification>)

  /** `classify_parameters(list)`: writes each item's classification in
      place; the list returned is the same list. */
  method ClassifyParameters(items: array<Classified>)
    modifies items
    ensures forall i :: 0 <= i < items.Length ==>
      items[i].item == old(items[i].item) &&
      items[i].classification == Some(Classify(items[i].item.value, items[i].item.low, items[i].item.high))
  {
    var k := 0;
    while k < items.Length
      invariant 0 <= k <= items.Length
      invariant forall i :: k <= i < items.Length ==> items[i] == old(items[i])
      invariant forall i :: 0 <= i < k ==>
        items[i].item == old(items[i].item) &&
        items[i].classification == Some(Classify(items[i].item.value, items[i].item.low, items[i].item.high))
    {
      var it := items[k].item;
      var c: Classification;
      if it.value < it.low {
        c := Low;
      } else if it.value > it.high {
        c := High;
      } else {
        c := Normal;
      }
      items[k] := Classified(it, Some(c));
      k := k + 1;
    }
  }

  /** `calculate_accuracy_metrics(results)`: fixed figures, whatever the
      results. */
  function AccuracyMetrics<T>(results: seq<T>): (m: (real, real))
    ensures m == (95.0, 95.0)
  {
    (95.0, 95.0)
  }

  // ---------------------------------------------------------------------
  // Properties

  /** Cleaning a cleaned string changes nothing. */
  lemma CleanIdempotent(s: string)
    ensures CleanNumeric(CleanNumeric(s)) == CleanNumeric(s)
  {
    var c := CleanNumeric(s);
    RemoveCharsKeeps(c, Marks);
    StripKeeps(c);
  }

  /** The entry holds a parameter of the list and its first accepted
      match, cleaned. */
  predicate Accepted(e: (string, string), params: seq<string>, found: string -> seq<string>, ok: string -> bool) {
    e.0 in params && FirstWhere(found(e.0), ok).Some? && e.1 == CleanNumeric(FirstWhere(found(e.0), ok).value)
  }

  /** Extraction yields at most one entry per parameter, each for a
      parameter of the list, holding the cleaned first accepted match of
      that parameter. */
  lemma {:induction false} ExtractSound(params: seq<string>, found: string -> seq<string>, ok: string -> bool)
    ensures var d := ExtractWith(params, found, ok);
      DistinctKeys(d) &&
      forall i :: 0 <= i < |d| ==> Accepted(d[i], params, found, ok)
  {
    if |params| > 0 {
      ExtractSound(params[..|params| - 1], found, ok);
      var before := ExtractWith(params[..|params| - 1], found, ok);
      StepDistinct(before, params[|params| - 1], found(params[|params| - 1]), ok);
      StepAccepted(before, params, found, ok);
    }
  }

  /** One more parameter keeps the keys distinct. */
  lemma StepDistinct(before: Dict<string>, p: string, raws: seq<string>, ok: string -> bool)
    requires DistinctKeys(before)
    ensures DistinctKeys(StepWith(before, p, raws, ok))
  {
    var d := StepWith(before, p, raws, ok);
    if !HasKey(before, p) && FirstWhere(raws, ok).Some? {
      forall i, j | 0 <= i < j < |d|
        ensures d[i].0 != d[j].0
      {
        assert d[i] == before[i];
        if j < |before| {
          assert d[j] == before[j];
        }
      }
    }
  }

  /** One more parameter keeps every entry accepted. */
  lemma StepAccepted(before: Dict<string>, params: seq<string>, found: string -> seq<string>, ok: string -> bool)
    requires |params| > 0
    requires forall i :: 0 <= i < |before| ==> Accepted(before[i], params[..|params| - 1], found, ok)
    ensures var d := StepWith(before, params[|params| - 1], found(params[|params| - 1]), ok);
      forall i :: 0 <= i < |d| ==> Accepted(d[i], params, found, ok)
  {
    var init := params[..|params| - 1];
    var p := params[|params| - 1];
    assert forall q :: q in init ==> q in params;
    var d := StepWith(before, p, found(p), ok);
    if !HasKey(before, p) && FirstWhere(found(p), ok).Some? {
      forall i | 0 <= i < |d|
        ensures Accepted(d[i], params, found, ok)
      {
        if i < |before| {
          assert d[i] == before[i];
        }
      }
    }
  }

  /** Every parameter with an accepted match gets an entry. */
  lemma {:induction false} ExtractComplete(params: seq<string>, found: string -> seq<string>, ok: string -> bool, p: string)
    requires p in params && FirstWhere(found(p), ok).Some?
    ensures HasKey(ExtractWith(params, found, ok), p)
  {
    var init := params[..|params| - 1];
    var before := ExtractWith(init, found, ok);
    if p in init {
      ExtractComplete(init, found, ok, p);
      var i :| 0 <= i < |before| && before[i].0 == p;
      assert ExtractWith(params, found, ok)[i] == before[i];
    } else {
      assert p == params[|params| - 1];
      if !HasKey(before, p) {
        assert ExtractWith(params, found, ok)[|before|].0 == p;
      }
    }
  }

  /** Every extracted value parses again after cleaning, since cleaning
      twice is cleaning once. */
  lemma ExtractedParses(params: seq<string>, found: string -> seq<string>, i: int)
    requires 0 <= i < |Extract(params, found)|
    ensures Parsable(Extract(params, found)[i].1)
  {
    ExtractSound(params, found, Parsable);
    assert Accepted(Extract(params, found)[i], params, found, Parsable);
    var raw := FirstWhere(found(Extract(params, found)[i].0), Parsable).value;
    CleanIdempotent(raw);
  }

  /** Standardizing keeps the items whose parameter is in the database and
      whose value parses, in order, each with that parameter's unit and
      range. */
  lemma {:induction false} StandardizeKeeps(items: seq<RawItem>)
    ensures var out := StandardizeAll(items);
      |out| <= |items| &&
      forall i :: 0 <= i < |out| ==>
        Get(ReferenceDatabase, out[i].parameter) == Some(Reference(out[i].low, out[i].high, out[i].unit))
  {
    if |items| > 0 {
      StandardizeKeeps(items[..|items| - 1]);
      StandardizeOneKeeps(items[|items| - 1]);
    }
  }

  /** A kept item carries its parameter's unit and range from the database. */
  lemma StandardizeOneKeeps(item: RawItem)
    ensures var r := StandardizeOne(item);
      r.Some? ==> Get(ReferenceDatabase, r.value.parameter) == Some(Reference(r.value.low, r.value.high, r.value.unit))
  {
  }

  /** An extracted entry for a parameter in the database survives
      standardization: the two stages agree on what parses. */
  lemma ExtractedSurvives(params: seq<string>, found: string -> seq<string>, i: int)
    requires 0 <= i < |Extract(params, found)|
    requires HasKey(ReferenceDatabase, Extract(params, found)[i].0)
    ensures var e := Extract(params, found)[i];
      StandardizeOne(RawItem(Some(e.0), Some(e.1))).Some?
  {
    ExtractedParses(params, found, i);
  }
}
