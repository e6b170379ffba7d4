/** The Model-2 pattern engine (model2/pipeline/pattern_engine.py): six fixed
    rules over severity labels that emit named patterns with
    `<Param>_<LOW|HIGH>` support tokens. */
module PatternEngine {
  import opened Common
  import opened Numeric
  import opened Severity

  /** One entry of the "patterns" dictionary. Keys a rule does not write are
      None: only anemia has a "type" and a "note", only thrombocytopenia
      "isolated", only dyslipidemia "details", and dyslipidemia and the
      metabolic signals have no "severity". */
  datatype PatternInfo = PatternInfo(
    present: bool,
    kind: Option<string>,
    severity: Option<Label>,
    note: Option<Note>,
    isolated: Option<bool>,
    support: seq<string>,
    details: seq<(string, Classification)>)

  /** The "patterns" dictionary, in insertion order. */
  type Patterns = Dict<PatternInfo>

  const PatternNames: seq<string> :=
    ["anemia", "thrombocytopenia", "neutrophilia", "lymphocytosis", "dyslipidemia", "metabolic_syndrome_signals"]

  /** `label.startswith(p)` on the spelled-out label. */
  predicate LabelStarts(l: Label, p: string) {
    StartsWith(Name(l), p)
  }

  /** Only "low" itself starts with "low": severe_low does not. */
  lemma StartsLow(l: Label)
    ensures LabelStarts(l, "low") <==> l == Low
  {
    match l
    case Low => assert Name(l)[0] != 'v';
    case Missing => assert Name(l)[0] != 'l';
    case UnknownRange => assert Name(l)[0] != 'l';
    case Unparseable => assert Name(l)[0] != 'l';
    case VerySevereLow => assert Name(l)[0] != 'l';
    case SevereLow => assert Name(l)[0] != 'l';
    case BorderlineLow => assert Name(l)[0] != 'l';
    case Normal => assert Name(l)[0] != 'l';
    case BorderlineHigh => assert Name(l)[0] != 'l';
    case High => assert Name(l)[0] != 'l';
    case SevereHigh => assert Name(l)[0] != 'l';
    case VerySevereHigh => assert Name(l)[0] != 'l';
  }

  /** Only "high" itself starts with "high". */
  lemma StartsHigh(l: Label)
    ensures LabelStarts(l, "high") <==> l == High
  {
    match l
    case High => assert Name(l)[0] != 'v';
    case Missing => assert Name(l)[0] != 'h';
    case UnknownRange => assert Name(l)[0] != 'h';
    case Unparseable => assert Name(l)[0] != 'h';
    case VerySevereLow => assert Name(l)[0] != 'h';
    case SevereLow => assert Name(l)[0] != 'h';
    case Low => assert Name(l)[0] != 'h';
    case BorderlineLow => assert Name(l)[0] != 'h';
    case Normal => assert Name(l)[0] != 'h';
    case BorderlineHigh => assert Name(l)[0] != 'h';
    case SevereHigh => assert Name(l)[0] != 'h';
    case VerySevereHigh => assert Name(l)[0] != 'h';
  }

  /** Both very-severe labels start with "very_severe", the high one too. */
  lemma StartsVerySevere(l: Label)
    ensures LabelStarts(l, "very_severe") <==> l == VerySevereLow || l == VerySevereHigh
  {
    match l
    case VerySevereLow => assert Name(l)[..11] == "very_severe";
    case VerySevereHigh => assert Name(l)[..11] == "very_severe";
    case Missing => assert Name(l)[0] != 'v';
    case UnknownRange => assert Name(l)[0] != 'v';
    case Unparseable => assert Name(l)[0] != 'v';
    case SevereLow => assert Name(l)[0] != 'v';
    case Low =>
    case BorderlineLow => assert Name(l)[0] != 'v';
    case Normal => assert Name(l)[0] != 'v';
    case BorderlineHigh => assert Name(l)[0] != 'v';
    case High =>
    case SevereHigh => assert Name(l)[0] != 'v';
  }

  /** Labels the anemia rule accepts: starting with "low" or "very_severe",
      or severe_low / very_severe_low. */
  predicate AnemicLabel(l: Label) {
    LabelStarts(l, "low") || LabelStarts(l, "very_severe") || l == SevereLow || l == VerySevereLow
  }

  /** A haemoglobin labelled very_severe_high counts as anemia; severe_high
      and high do not. */
  lemma AnemicLabels(l: Label)
    ensures AnemicLabel(l) <==> l == Low || l == SevereLow || l == VerySevereLow || l == VerySevereHigh
  {
    StartsLow(l);
    StartsVerySevere(l);
  }

  /** The anemia rule on the haemoglobin, MCV and RDW classifications. */
  function AnemiaRule(hb: Classification, mcv: Classification, rdw: Classification): (r: PatternInfo)
    ensures r.present <==> hb.grade == Low || hb.grade == SevereLow || hb.grade == VerySevereLow || hb.grade == VerySevereHigh
    ensures r.present ==> |r.support| >= 1 && r.support[0] == "Hemoglobin_LOW"
    ensures r.kind == Some("microcytic") <==> r.present && mcv.grade == Low
    ensures r.kind == Some("macrocytic") <==> r.present && mcv.grade == High
    ensures r.kind == Some("normocytic") <==> r.present && mcv.grade != Low && mcv.grade != High
    ensures r.present ==>
      r.support == ["Hemoglobin_LOW"]
        + (if mcv.grade == Low then ["MCV_LOW"] else if mcv.grade == High then ["MCV_HIGH"] else [])
        + (if rdw.grade == High then ["RDW_HIGH"] else [])
    ensures !r.present ==> r.kind.None? && r.support == []
    ensures r.severity == Some(hb.grade) && r.note == Some(hb.note)
  {
    AnemicLabels(hb.grade);
    StartsLow(mcv.grade);
    StartsHigh(mcv.grade);
    StartsHigh(rdw.grade);
    var present := AnemicLabel(hb.grade);
    var (kind, support) :=
      if !present then (None, [])
      else
        var (k, s) :=
          if LabelStarts(mcv.grade, "low") then (Some("microcytic"), ["Hemoglobin_LOW", "MCV_LOW"])
          else if LabelStarts(mcv.grade, "high") then (Some("macrocytic"), ["Hemoglobin_LOW", "MCV_HIGH"])
          else (Some("normocytic"), ["Hemoglobin_LOW"]);
        (k, if LabelStarts(rdw.grade, "high") then s + ["RDW_HIGH"] else s);
    PatternInfo(present, kind, Some(hb.grade), Some(hb.note), None, support, [])
  }

  /** Thrombocytopenia, isolated when neither the WBC is low nor anemia is
      present. */
  function ThrombocytopeniaRule(plate: Classification, wbc: Classification, anemic: bool): (r: PatternInfo)
    ensures r.present <==> plate.grade == Low || plate.grade == SevereLow || plate.grade == VerySevereLow
    ensures r.isolated == Some(r.present && wbc.grade != Low && !anemic)
    ensures r.support == if r.present then ["Platelets_LOW"] else []
    ensures r.severity == Some(plate.grade)
  {
    StartsLow(plate.grade);
    StartsLow(wbc.grade);
    var present := LabelStarts(plate.grade, "low") || plate.grade == SevereLow || plate.grade == VerySevereLow;
    var isolated := present && !(LabelStarts(wbc.grade, "low") || anemic);
    PatternInfo(present, None, Some(plate.grade), None, Some(isolated), if present then ["Platelets_LOW"] else [], [])
  }

  /** Neutrophilia or lymphocytosis: present on a label starting with
      "high", so severe_high and very_severe_high do not count. */
  function HighRule(c: Classification, token: string): (r: PatternInfo)
    ensures r.present <==> c.grade == High
    ensures r.support == if r.present then [token] else []
    ensures r.severity == Some(c.grade)
  {
    StartsHigh(c.grade);
    var present := LabelStarts(c.grade, "high");
    PatternInfo(present, None, Some(c.grade), None, None, if present then [token] else [], [])
  }

  /** The tokens of the lipid classifications that are "high", in total
      cholesterol, LDL, triglycerides order. */
  function HighLipids(tc: Label, ldl: Label, tg: Label): seq<string> {
    (if tc == High then ["Total_Cholesterol_HIGH"] else [])
    + (if ldl == High then ["LDL_HIGH"] else [])
    + (if tg == High then ["Triglycerides_HIGH"] else [])
  }

  /** Dyslipidemia: present when any lipid label starts with "high". */
  function DyslipidemiaRule(tc: Classification, ldl: Classification, tg: Classification): (r: PatternInfo)
    ensures r.present <==> tc.grade == High || ldl.grade == High || tg.grade == High
    ensures r.support == HighLipids(tc.grade, ldl.grade, tg.grade)
    ensures r.severity.None?
    ensures r.details == [("tc", tc), ("ldl", ldl), ("tg", tg)]
  {
    StartsHigh(tc.grade);
    StartsHigh(ldl.grade);
    StartsHigh(tg.grade);
    var present := LabelStarts(tc.grade, "high") || LabelStarts(ldl.grade, "high") || LabelStarts(tg.grade, "high");
    var support :=
      if !present then []
      else
        (if LabelStarts(tc.grade, "high") then ["Total_Cholesterol_HIGH"] else [])
        + (if LabelStarts(ldl.grade, "high") then ["LDL_HIGH"] else [])
        + (if LabelStarts(tg.grade, "high") then ["Triglycerides_HIGH"] else []);
    PatternInfo(present, None, None, None, None, support, [("tc", tc), ("ldl", ldl), ("tg", tg)])
  }

  /** `v and float(v) >= t` in a condition: false for a falsy value, None
      when `float` raises. */
  function AtLeast(v: Value, t: real): (r: Option<bool>)
    ensures !Truthy(v) ==> r == Some(false)
    ensures Truthy(v) && IsNumeric(v) ==> r == Some(AsReal(v) >= t)
    ensures r.None? <==> Truthy(v) && ValueToFloat(v).None?
  {
    if !Truthy(v) then Some(false)
    else
      match ValueToFloat(v)
      case None => None
      case Some(x) => Some(x >= t)
  }

  /** The glycaemic test: HbA1c at least 5.7 or, failing that, fasting
      glucose at least 100 (the glucose is not read when HbA1c decides). */
  function Glycemic(hba1c: Value, glucose: Value): Option<bool> {
    match AtLeast(hba1c, 5.7)
    case None => None
    case Some(true) => Some(true)
    case Some(false) => AtLeast(glucose, 100.0)
  }

  /** The metabolic-syndrome signals rule. */
  function MetabolicRule(tg: Classification, hdl: Classification, glycemic: bool): (r: PatternInfo)
    ensures r.present <==> tg.grade == High || hdl.grade == Low || glycemic
    ensures r.support ==
      (if tg.grade == High || hdl.grade == Low then ["TG_HIGH_or_HDL_LOW"] else [])
      + (if glycemic then ["Glucose_pre-diabetes_or_hyperglycemia"] else [])
    ensures r.severity.None?
  {
    StartsHigh(tg.grade);
    StartsLow(hdl.grade);
    var lipid := LabelStarts(tg.grade, "high") || LabelStarts(hdl.grade, "low");
    var support :=
      (if lipid then ["TG_HIGH_or_HDL_LOW"] else []) + (if glycemic then ["Glucose_pre-diabetes_or_hyperglycemia"] else []);
    PatternInfo(lipid || glycemic, None, None, None, None, support, [])
  }

  /** `params.get(name)` */
  function Param(params: Dict<Value>, name: string): Value {
    GetOr(params, name, VNone)
  }

  /** A blood-count classification, with the patient's age and gender. */
  function Cbc(ranges: RangeLookup, params: Dict<Value>, name: string): Classification {
    LabelFromRange(ranges, name, Param(params, name), Param(params, "age"), Param(params, "gender"))
  }

  /** A lipid classification, looked up without age and gender. */
  function Lipid(ranges: RangeLookup, params: Dict<Value>, name: string): Classification {
    LabelFromRange(ranges, name, Param(params, name), VNone, VNone)
  }

  /** The twelve classifications the rules read. */
  datatype Labs = Labs(
    hb: Classification, mcv: Classification, rdw: Classification, plate: Classification,
    wbc: Classification, neut: Classification, lymph: Classification,
    tc: Classification, ldl: Classification, tg: Classification, hdl: Classification)

  function Classify(ranges: RangeLookup, params: Dict<Value>): Labs {
    Labs(
      Cbc(ranges, params, "Hemoglobin"), Cbc(ranges, params, "MCV"), Cbc(ranges, params, "RDW"),
      Cbc(ranges, params, "Platelets"), Cbc(ranges, params, "WBC"),
      Cbc(ranges, params, "Neutrophils"), Cbc(ranges, params, "Lymphocytes"),
      Lipid(ranges, params, "Total_Cholesterol"), Lipid(ranges, params, "LDL"),
      Lipid(ranges, params, "Triglycerides"), Lipid(ranges, params, "HDL"))
  }

  /** The patterns dictionary built from the classifications. */
  function Assemble(labs: Labs, glycemic: bool): Patterns {
    var anemia := AnemiaRule(labs.hb, labs.mcv, labs.rdw);
    [
      ("anemia", anemia),
      ("thrombocytopenia", ThrombocytopeniaRule(labs.plate, labs.wbc, anemia.present)),
      ("neutrophilia", HighRule(labs.neut, "Neutrophils_HIGH")),
      ("lymphocytosis", HighRule(labs.lymph, "Lymphocytes_HIGH")),
      ("dyslipidemia", DyslipidemiaRule(labs.tc, labs.ldl, labs.tg)),
      ("metabolic_syndrome_signals", MetabolicRule(labs.tg, labs.hdl, glycemic))
    ]
  }

  /** `detect_patterns(params)["patterns"]`; None when `float` raises on a
      truthy HbA1c or glucose value that is not a number. */
  function DetectPatterns(ranges: RangeLookup, params: Dict<Value>): (r: Option<Patterns>)
    ensures r.None? <==>
      || AtLeast(Param(params, "HbA1c"), 5.7).None?
      || (AtLeast(Param(params, "HbA1c"), 5.7) == Some(false) && AtLeast(Param(params, "Glucose_Fasting"), 100.0).None?)
  {
    var glycemic := Glycemic(Param(params, "HbA1c"), Param(params, "Glucose_Fasting"));
    GlycemicFails(Param(params, "HbA1c"), Param(params, "Glucose_Fasting"));
    if glycemic.None? then None else Some(Assemble(Classify(ranges, params), glycemic.value))
  }

  /** The glycaemic test fails exactly when `float` raises on a value it reads. */
  lemma GlycemicFails(hba1c: Value, glucose: Value)
    ensures Glycemic(hba1c, glucose).None? <==>
      || AtLeast(hba1c, 5.7).None?
      || (AtLeast(hba1c, 5.7) == Some(false) && AtLeast(glucose, 100.0).None?)
  {
  }

  lemma AssembleKeys(labs: Labs, glycemic: bool)
    ensures Keys(Assemble(labs, glycemic)) == PatternNames
  {
    var anemia := AnemiaRule(labs.hb, labs.mcv, labs.rdw);
    NamedSix(anemia, ThrombocytopeniaRule(labs.plate, labs.wbc, anemia.present),
      HighRule(labs.neut, "Neutrophils_HIGH"), HighRule(labs.lymph, "Lymphocytes_HIGH"),
      DyslipidemiaRule(labs.tc, labs.ldl, labs.tg), MetabolicRule(labs.tg, labs.hdl, glycemic));
  }

  /** Six entries under the pattern names have those names as keys. */
  lemma NamedSix(a: PatternInfo, b: PatternInfo, c: PatternInfo, d: PatternInfo, e: PatternInfo, f: PatternInfo)
    ensures Keys([(PatternNames[0], a), (PatternNames[1], b), (PatternNames[2], c),
                  (PatternNames[3], d), (PatternNames[4], e), (PatternNames[5], f)]) == PatternNames
  {
  }

  /** The result always has exactly the six pattern keys, in rule order. */
  lemma DetectKeys(ranges: RangeLookup, params: Dict<Value>)
    requires DetectPatterns(ranges, params).Some?
    ensures Keys(DetectPatterns(ranges, params).value) == PatternNames
  {
    var g := Glycemic(Param(params, "HbA1c"), Param(params, "Glucose_Fasting"));
    AssembleKeys(Classify(ranges, params), g.value);
  }

  /** `float` can only raise on a value that is not a number: with HbA1c and
      fasting glucose numbers or None, detection always succeeds. */
  lemma DetectTotal(ranges: RangeLookup, params: Dict<Value>)
    requires IsNumeric(Param(params, "HbA1c")) || Param(params, "HbA1c").VNone?
    requires IsNumeric(Param(params, "Glucose_Fasting")) || Param(params, "Glucose_Fasting").VNone?
    ensures DetectPatterns(ranges, params).Some?
  {
  }

  predicate AllGrades(labs: Labs, l: Label) {
    && labs.hb.grade == l && labs.mcv.grade == l && labs.rdw.grade == l && labs.plate.grade == l
    && labs.wbc.grade == l && labs.neut.grade == l && labs.lymph.grade == l
    && labs.tc.grade == l && labs.ldl.grade == l && labs.tg.grade == l && labs.hdl.grade == l
  }

  lemma ClassifyMissing(ranges: RangeLookup, params: Dict<Value>)
    requires forall e :: e in params ==> e.1.VNone?
    ensures AllGrades(Classify(ranges, params), Missing)
  {
    forall name | true
      ensures Param(params, name) == VNone
    {
      if HasKey(params, name) {
        assert (name, Param(params, name)) in params;
      }
    }
  }

  lemma AssembleMissing(labs: Labs)
    requires AllGrades(labs, Missing)
    ensures forall e :: e in Assemble(labs, false) ==>
      !e.1.present && (e.1.severity.Some? ==> e.1.severity.value == Missing)
  {
  }

  /** With every value None, every label is "missing" and no pattern is
      present. */
  lemma AllMissing(ranges: RangeLookup, params: Dict<Value>)
    requires forall e :: e in params ==> e.1.VNone?
    ensures DetectPatterns(ranges, params).Some?
    ensures forall e :: e in DetectPatterns(ranges, params).value ==>
      !e.1.present && (e.1.severity.Some? ==> e.1.severity.value == Missing)
  {
    ClassifyMissing(ranges, params);
    assert Param(params, "HbA1c") == VNone by {
      if HasKey(params, "HbA1c") {
        assert ("HbA1c", Param(params, "HbA1c")) in params;
      }
    }
    assert Param(params, "Glucose_Fasting") == VNone by {
      if HasKey(params, "Glucose_Fasting") {
        assert ("Glucose_Fasting", Param(params, "Glucose_Fasting")) in params;
      }
    }
    AssembleMissing(Classify(ranges, params));
  }

  /** Thrombocytopenia with anemia is never isolated. */
  lemma AnemiaNotIsolated(labs: Labs, glycemic: bool)
    requires Assemble(labs, glycemic)[0].1.present
    ensures Assemble(labs, glycemic)[1].1.isolated == Some(false)
  {
  }
}
