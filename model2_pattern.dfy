/** The older pattern table with risk adjustment (model2_pattern.py): each
    rule matches on expected Low/High/Normal classifications, its base
    score grows with how far the rule's parameters lie outside their
    ranges, and rules about infection or inflammation add a ratio bonus. */
module RiskPatterns {
  import opened Common

  /** One entry of the rule table; a rule has a `conditions_all` map, a
      `conditions_any` map, or both. */
  datatype Rule = Rule(name: string, all: Option<Dict<Expected>>, any: Option<Dict<Expected>>,
                       base: real, description: string)

  /** The classifications the table expects. */
  datatype Expected = Low | High | Normal

  function ExpectedName(e: Expected): (s: string)
    ensures |s| > 0
  {
    match e
    case Low => "Low"
    case High => "High"
    case Normal => "Normal"
  }

  function AllOf(conds: Dict<Expected>, base: real, name: string, description: string): Rule {
    Rule(name, Some(conds), None, base, description)
  }

  function AnyOf(conds: Dict<Expected>, base: real, name: string, description: string): Rule {
    Rule(name, None, Some(conds), base, description)
  }

  const PatternRules: seq<Rule> := [
    AnyOf([("Hemoglobin", Low), ("RBC", Low), ("PCV", Low)], 0.6, "Anemia (General)",
      "Low hemoglobin/RBC/hematocrit suggests anemia — common causes include iron deficiency, vitamin B12/folate deficiency, or chronic disease (NIH)."),
    AllOf([("Hemoglobin", Low), ("MCV", Low)], 0.8, "Microcytic Anemia",
      "Low MCV with anemia typically indicates iron deficiency or thalassemia (Cleveland Clinic)."),
    AllOf([("Hemoglobin", Low), ("MCV", High)], 0.8, "Macrocytic Anemia",
      "High MCV with anemia often due to B12/folate deficiency, liver disease, or alcohol use (Mayo Clinic)."),
    AllOf([("Hemoglobin", Low), ("MCV", Normal)], 0.7, "Normocytic Anemia",
      "Normal MCV anemia may suggest chronic disease, kidney issues, or acute blood loss (NCBI)."),
    AnyOf([("Hemoglobin", High), ("RBC", High), ("PCV", High)], 0.7, "Polycythemia",
      "High red cell counts may be due to dehydration, smoking, or polycythemia vera — increases clot risk (NIH)."),
    AnyOf([("WBC", High)], 0.7, "Leukocytosis",
      "High white blood cells often indicate infection, inflammation, or stress (Mayo Clinic)."),
    AnyOf([("WBC", Low)], 0.7, "Leukopenia",
      "Low white cells can increase infection risk — may be from viral illness or medications (Cleveland Clinic)."),
    NeutrophilRule,
    AnyOf([("Lymphocytes", High)], 0.7, "Lymphocytosis (Viral Infection Suspected)",
      "High lymphocytes often associated with viral infections or chronic conditions."),
    AnyOf([("Eosinophils", High)], 0.6, "Eosinophilia (Allergy/Parasite)",
      "Elevated eosinophils frequently linked to allergies, asthma, or parasitic infections."),
    AnyOf([("Platelet", Low)], 0.7, "Thrombocytopenia",
      "Low platelets increase bleeding risk — causes include immune disorders or medications."),
    AnyOf([("Platelet", High)], 0.7, "Thrombocytosis",
      "High platelets can raise clotting risk — often due to inflammation or iron deficiency."),
    AllOf([("RBC", Low), ("WBC", Low), ("Platelet", Low)], 0.9, "Pancytopenia",
      "Low counts in all three lines may indicate bone marrow suppression — requires urgent evaluation."),
    AnyOf([("Glucose", High)], 0.8, "Hyperglycemia",
      "High blood glucose may suggest diabetes or prediabetes (ADA guidelines)."),
    AnyOf([("Cholesterol", High)], 0.75, "Dyslipidemia",
      "Elevated cholesterol increases cardiovascular risk (AHA)."),
    AnyOf([("Hemoglobin", High), ("PCV", High)], 0.6, "Dehydration Suspected",
      "Concentrated blood values can indicate dehydration."),
    AnyOf([("RDW", High), ("Monocyte", High)], 0.7, "Inflammation Marker",
      "High RDW and monocytes can be markers of ongoing inflammation."),
    AnyOf([("Cholesterol", High), ("Glucose", High), ("Hemoglobin", Low)], 0.85, "Cardiovascular Risk Combination",
      "Combination of high cholesterol/glucose and low hemoglobin significantly raises heart disease risk (AHA/PMC studies)."),
    AllOf([("Fasting Glucose", High)], 0.6, "Prediabetes",
      "Elevated fasting glucose suggests prediabetic state."),
    AllOf([("HbA1c", High)], 0.8, "Diabetes Suspected",
      "High HbA1c indicates poor long-term glucose control."),
    AnyOf([("Total Cholesterol", High), ("LDL", High)], 0.7, "Hypercholesterolemia",
      "Elevated cholesterol levels increase cardiovascular risk."),
    AllOf([("HDL", Low)], 0.6, "Low HDL Risk",
      "Low HDL reduces protective effect against heart disease."),
    AnyOf([("Creatinine", High), ("Urea", High)], 0.8, "Renal Dysfunction Suspected",
      "Elevated kidney markers suggest impaired renal function."),
    AnyOf([("SGOT", High), ("SGPT", High)], 0.75, "Hepatic Injury Pattern",
      "Elevated liver enzymes suggest liver inflammation or injury."),
    AllOf([("ALP", High), ("Total Bilirubin", High)], 0.7, "Cholestasis Pattern",
      "Raised ALP and bilirubin may indicate bile flow obstruction."),
    AllOf([("TSH", High)], 0.75, "Hypothyroidism Suspected",
      "Elevated TSH suggests reduced thyroid hormone production."),
    AllOf([("TSH", Low)], 0.75, "Hyperthyroidism Suspected",
      "Low TSH may indicate excess thyroid hormone levels."),
    AllOf([("Sodium", Low)], 0.7, "Hyponatremia",
      "Low sodium levels may affect neurological and cardiac function."),
    AllOf([("Potassium", High)], 0.8, "Hyperkalemia",
      "High potassium can cause dangerous heart rhythm disturbances."),
    AnyOf([("Serum Iron", Low), ("Ferritin", Low)], 0.75, "Iron Deficiency Pattern",
      "Low iron stores suggest iron deficiency anemia risk."),
    AllOf([("Calcium", High)], 0.7, "Hypercalcemia",
      "Elevated calcium may indicate parathyroid or metabolic disorder.")]

  /** The table's neutrophilia entry (its eighth). */
  const NeutrophilRule: Rule := AnyOf([("Neutrophils", High)], 0.75, "Neutrophilia (Bacterial " + "Infection" + " Suspected)",
    "Elevated neutrophils commonly seen in bacterial infections or acute stress.")

  /** One classified item as the analysis reads it: "Parameter" (default
      ""), "Classification" (default ""), "Value" (None when absent) and the
      reference bounds (default 0). */
  datatype Item = Item(parameter: string, classification: string, value: Option<real>, low: real, high: real)

  /** The item a dict comprehension keyed by "Parameter" keeps for `p`:
      the last one. */
  function Last(items: seq<Item>, p: string): (r: Option<Item>)
    ensures r.Some? ==> r.value in items && r.value.parameter == p
    ensures r.None? <==> forall i :: 0 <= i < |items| ==> items[i].parameter != p
  {
    if |items| == 0 then None
    else if items[|items| - 1].parameter == p then Some(items[|items| - 1])
    else Last(items[..|items| - 1], p)
  }

  /** `param_status.get(p, "")` */
  function StatusOf(items: seq<Item>, p: string): string {
    match Last(items, p)
    case None => ""
    case Some(it) => it.classification
  }

  /** `p in param_values` */
  predicate Known(items: seq<Item>, p: string) {
    Last(items, p).Some?
  }

  /** `param_values.get(p)` */
  function ValueOf(items: seq<Item>, p: string): Option<real> {
    match Last(items, p)
    case None => None
    case Some(it) => it.value
  }

  predicate AllHold(conds: Dict<Expected>, items: seq<Item>) {
    forall i :: 0 <= i < |conds| ==> StatusOf(items, conds[i].0) == ExpectedName(conds[i].1)
  }

  predicate AnyHolds(conds: Dict<Expected>, items: seq<Item>) {
    exists i :: 0 <= i < |conds| && StatusOf(items, conds[i].0) == ExpectedName(conds[i].1)
  }

  /** `conditions_all` first; `conditions_any` only when that did not
      match. */
  predicate Matches(rule: Rule, items: seq<Item>) {
    (rule.all.Some? && AllHold(rule.all.value, items)) || (rule.any.Some? && AnyHolds(rule.any.value, items))
  }

  /** How far `v` lies outside [low, high], in units of the range width;
      0 inside, and 0 for a range with high <= low. */
  function Deviation(v: real, low: real, high: real): (d: real)
    ensures d >= 0.0
    ensures high > low && v > high ==> d == (v - high) / (high - low)
    ensures high > low && v < low ==> d == (low - v) / (high - low)
    ensures high <= low || low <= v <= high ==> d == 0.0
  {
    if high > low then
      if v > high then (v - high) / (high - low)
      else if v < low then (low - v) / (high - low)
      else 0.0
    else 0.0
  }

  /** What one condition parameter adds to the score. */
  function Contribution(items: seq<Item>, p: string): (c: real)
    ensures c >= 0.0
  {
    match Last(items, p)
    case None => 0.0
    case Some(it) => if it.value.None? then 0.0 else 0.2 * Deviation(it.value.value, it.low, it.high)
  }

  /** The keys of `{**conditions_all, **conditions_any}`. */
  function ConditionParams(rule: Rule): seq<string> {
    Dedupe(Keys(if rule.all.Some? then rule.all.value else [])
           + Keys(if rule.any.Some? then rule.any.value else []))
  }

  function SumContributions(items: seq<Item>, ps: seq<string>): (s: real)
    ensures s >= 0.0
  {
    if |ps| == 0 then 0.0
    else SumContributions(items, ps[..|ps| - 1]) + Contribution(items, ps[|ps| - 1])
  }

  /** The base score plus the deviation adjustments, capped at 1.0. */
  function CappedScore(rule: Rule, items: seq<Item>): real {
    Min(rule.base + SumContributions(items, ConditionParams(rule)), 1.0)
  }

  /** The failures the analysis can raise: `n / l` on a missing value, and
      the undefined REFERENCE_DATABASE name in the ANC branch. */
  datatype Failure = TypeError | NameError

  datatype Outcome<T> = Ok(value: T) | Raises(failure: Failure)

  /** One detected pattern. */
  datatype Detected = Detected(pattern: string, riskScore: real, description: string, calcNotes: seq<string>)

  /** Rules named after infection, inflammation or leukocytes get the
      ratio checks. */
  predicate Inflammatory(name: string) {
    Contains(name, "Infection") || Contains(name, "Inflammation") || Contains(name, "Leuk")
  }

  /** The NLR note; `fmt2` renders a number with two decimals. */
  function NlrNote(nlr: real, fmt2: real -> string): string {
    "Neutrophil-Lymphocyte Ratio (NLR): " + fmt2(nlr) + " (elevated if >3, suggests inflammation; NCBI)."
  }

  /** The ratio checks for an inflammatory rule: the score after the NLR
      bonus and the notes, or the failure raised. */
  function RatioChecks(score: real, items: seq<Item>, fmt2: real -> string): Outcome<(real, seq<string>)> {
    var nlr: Outcome<(real, seq<string>)> :=
      if Known(items, "Neutrophils") && Known(items, "Lymphocytes") then
        var n, l := ValueOf(items, "Neutrophils"), ValueOf(items, "Lymphocytes");
        if l.Some? && l.value == 0.0 then Ok((score, []))
        else if n.None? || l.None? then Raises(TypeError)
        else
          var ratio := n.value / l.value;
          Ok((if ratio > 3.0 then score + 0.1 else score, [NlrNote(ratio, fmt2)]))
      else Ok((score, []));
    if nlr.Raises? then nlr
    else if Known(items, "Neutrophils") && Known(items, "WBC") then Raises(NameError)
    else nlr
  }

  /** The unrounded score and the notes of one matched rule, or the
      failure raised. */
  function Scored(rule: Rule, items: seq<Item>, fmt2: real -> string): Outcome<(real, seq<string>)> {
    var score := CappedScore(rule, items);
    if Inflammatory(rule.name) then RatioChecks(score, items, fmt2) else Ok((score, []))
  }

  /** The entry for one matched rule, or the failure raised. */
  function Evaluate(rule: Rule, items: seq<Item>, fmt2: real -> string): Outcome<Detected> {
    match Scored(rule, items, fmt2)
    case Raises(f) => Raises(f)
    case Ok((s, notes)) => Ok(Detected(rule.name, Round(s, 2), rule.description, notes))
  }

  /** The result over the given rules, in table order; the first failure
      ends the analysis. */
  function Analysis(rules: seq<Rule>, items: seq<Item>, fmt2: real -> string): Outcome<seq<Detected>> {
    if |rules| == 0 then Ok([])
    else
      var before := Analysis(rules[..|rules| - 1], items, fmt2);
      var rule := rules[|rules| - 1];
      if before.Raises? || !Matches(rule, items) then before
      else match Evaluate(rule, items, fmt2)
        case Raises(f) => Raises(f)
        case Ok(d) => Ok(before.value + [d])
  }

  /** The score adjustment loop for one matched rule. */
  method AdjustedScore(rule: Rule, items: seq<Item>) returns (score: real)
    ensures score == CappedScore(rule, items)
  {
    var ps := ConditionParams(rule);
    var total := 0.0;
    var i := 0;
    while i < |ps|
      invariant 0 <= i <= |ps|
      invariant total == SumContributions(items, ps[..i])
    {
      assert ps[..i + 1][..i] == ps[..i];
      var last := Last(items, ps[i]);
      if last.Some? && last.value.value.Some? {
        var it := last.value;
        total := total + 0.2 * Deviation(it.value.value, it.low, it.high);
      }
      i := i + 1;
    }
    assert ps[..i] == ps;
    score := Min(rule.base + total, 1.0);
  }

  /** `model_2_pattern_risk_analysis(classified_data)` over a rule table;
      the source's table is `PatternRules`. */
  method PatternRiskAnalysis(rules: seq<Rule>, items: seq<Item>, fmt2: real -> string)
    returns (result: Outcome<seq<Detected>>)
    ensures result == Analysis(rules, items, fmt2)
  {
    var detected: seq<Detected> := [];
    var i := 0;
    while i < |rules|
      invariant 0 <= i <= |rules|
      invariant Analysis(rules[..i], items, fmt2) == Ok(detected)
    {
      assert rules[..i + 1][..i] == rules[..i];
      var rule := rules[i];
      if Matches(rule, items) {
        var score := AdjustedScore(rule, items);
        var notes: seq<string> := [];
        if Inflammatory(rule.name) {
          var checked := RatioChecks(score, items, fmt2);
          if checked.Raises? {
            result := Raises(checked.failure);
            assert Analysis(rules[..i + 1], items, fmt2) == result;
            AbortStays(rules, i + 1, items, fmt2);
            return;
          }
          score, notes := checked.value.0, checked.value.1;
        }
        detected := detected + [Detected(rule.name, Round(score, 2), rule.description, notes)];
      }
      i := i + 1;
    }
    assert rules[..i] == rules;
    result := Ok(detected);
  }

  // ---------------------------------------------------------------------
  // Properties

  /** Once a prefix of the table fails, the whole analysis fails the same
      way. */
  lemma {:induction false} AbortStays(rules: seq<Rule>, k: nat, items: seq<Item>, fmt2: real -> string)
    requires k <= |rules|
    requires Analysis(rules[..k], items, fmt2).Raises?
    ensures Analysis(rules, items, fmt2) == Analysis(rules[..k], items, fmt2)
    decreases |rules| - k
  {
    if k < |rules| {
      assert rules[..k + 1][..k] == rules[..k];
      AbortStays(rules, k + 1, items, fmt2);
    } else {
      assert rules[..k] == rules;
    }
  }
  /** A rule none of whose parameters appear in the report never matches,
      since a missing parameter has the empty status (an empty
      `conditions_all` would match anything, as `all([])` holds). */
  lemma AbsentNeverMatches(rule: Rule, items: seq<Item>)
    requires rule.all.Some? ==> |rule.all.value| > 0
    requires forall p :: p in ConditionParams(rule) ==> !Known(items, p)
    ensures !Matches(rule, items)
  {
    var all := if rule.all.Some? then rule.all.value else [];
    var any := if rule.any.Some? then rule.any.value else [];
    var ks := Keys(all) + Keys(any);
    forall i | 0 <= i < |all|
      ensures StatusOf(items, all[i].0) != ExpectedName(all[i].1)
    {
      assert ks[i] == all[i].0;
      assert all[i].0 in ConditionParams(rule);
    }
    forall i | 0 <= i < |any|
      ensures StatusOf(items, any[i].0) != ExpectedName(any[i].1)
    {
      assert ks[|all| + i] == any[i].0;
      assert any[i].0 in ConditionParams(rule);
    }
    if rule.all.Some? {
      assert StatusOf(items, all[0].0) != ExpectedName(all[0].1);
    }
  }

  /** A parameter adds nothing to the score when its value is missing,
      within its range, or its range is degenerate. */
  predicate WithinRange(items: seq<Item>, p: string) {
    match Last(items, p)
    case None => true
    case Some(it) => it.value.None? || it.high <= it.low || it.low <= it.value.value <= it.high
  }

  lemma {:induction false} InRangeSumsZero(items: seq<Item>, ps: seq<string>)
    requires forall p :: p in ps ==> WithinRange(items, p)
    ensures SumContributions(items, ps) == 0.0
  {
    if |ps| > 0 {
      assert ps[|ps| - 1] in ps;
      assert forall p :: p in ps[..|ps| - 1] ==> p in ps;
      InRangeSumsZero(items, ps[..|ps| - 1]);
    }
  }

  /** With every parameter in range the score is the base score, capped;
      otherwise it only grows. */
  lemma InRangeKeepsBase(rule: Rule, items: seq<Item>)
    ensures CappedScore(rule, items) >= Min(rule.base, 1.0)
    ensures (forall p :: p in ConditionParams(rule) ==> WithinRange(items, p)) ==>
      CappedScore(rule, items) == Min(rule.base, 1.0)
  {
    if forall p :: p in ConditionParams(rule) ==> WithinRange(items, p) {
      InRangeSumsZero(items, ConditionParams(rule));
    }
  }

  /** When the ratio checks fail: the ratio of a missing value, or the ANC
      branch, which always names the undefined REFERENCE_DATABASE. */
  predicate RatioFails(items: seq<Item>) {
    var n, l := ValueOf(items, "Neutrophils"), ValueOf(items, "Lymphocytes");
    (Known(items, "Neutrophils") && Known(items, "Lymphocytes") && !(l.Some? && l.value == 0.0) && (n.None? || l.None?))
    || (Known(items, "Neutrophils") && Known(items, "WBC"))
  }

  /** The cap applies before the ratio bonus, and only the NLR bonus can
      be added (the ANC branch always raises), so a score is at most 1.1;
      an inflammatory rule fails exactly when the ratio checks fail. */
  lemma ScoreBounds(rule: Rule, items: seq<Item>, fmt2: real -> string)
    ensures Scored(rule, items, fmt2).Raises? <==> Inflammatory(rule.name) && RatioFails(items)
    ensures Scored(rule, items, fmt2).Ok? ==>
      var s := Scored(rule, items, fmt2).value.0;
      Min(rule.base, 1.0) <= s <= 1.1 &&
      (s == CappedScore(rule, items) || (Inflammatory(rule.name) && s == CappedScore(rule, items) + 0.1))
  {
    InRangeKeepsBase(rule, items);
  }

  /** The rules that match, in table order. */
  function MatchedRules(rules: seq<Rule>, items: seq<Item>): (r: seq<Rule>)
    ensures forall x :: x in r ==> x in rules && Matches(x, items)
  {
    if |rules| == 0 then []
    else
      var rule := rules[|rules| - 1];
      MatchedRules(rules[..|rules| - 1], items) + (if Matches(rule, items) then [rule] else [])
  }

  /** A successful analysis lists the matching rules in table order, with
      their descriptions, each score rounded and at most 1.1. */
  lemma {:induction false} DetectedInTableOrder(rules: seq<Rule>, items: seq<Item>, fmt2: real -> string)
    requires Analysis(rules, items, fmt2).Ok?
    ensures var ds, ms := Analysis(rules, items, fmt2).value, MatchedRules(rules, items);
      |ds| == |ms| &&
      forall i :: 0 <= i < |ds| ==>
        ds[i].pattern == ms[i].name && ds[i].description == ms[i].description && ds[i].riskScore <= 1.1
  {
    if |rules| > 0 {
      var init := rules[..|rules| - 1];
      var rule := rules[|rules| - 1];
      DetectedInTableOrder(init, items, fmt2);
      if Matches(rule, items) {
        EntryBounded(rule, items, fmt2);
      }
    }
  }

  /** The entry for one rule carries its name and description and a
      rounded score of at most 1.1. */
  lemma EntryBounded(rule: Rule, items: seq<Item>, fmt2: real -> string)
    requires Evaluate(rule, items, fmt2).Ok?
    ensures var d := Evaluate(rule, items, fmt2).value;
      d.pattern == rule.name && d.description == rule.description && d.riskScore <= 1.1
  {
    ScoreBounds(rule, items, fmt2);
    var s := Scored(rule, items, fmt2).value.0;
    RoundMonotone(s, 1.1, 2);
    assert Round(1.1, 2) == 1.1 by {
      assert Pow10(2) == 100.0;
      assert Scaled(1.1, 100.0) == ((110.5).Floor as real) / 100.0;
    }
  }

  /** The analysis fails exactly when some matching rule is inflammatory
      and the ratio checks fail. */
  lemma {:induction false} FailsIff(rules: seq<Rule>, items: seq<Item>, fmt2: real -> string)
    ensures Analysis(rules, items, fmt2).Raises? <==>
      RatioFails(items) && Any(MatchedRules(rules, items), (r: Rule) => Inflammatory(r.name))
  {
    var inflammatory := (r: Rule) => Inflammatory(r.name);
    if |rules| > 0 {
      var init := rules[..|rules| - 1];
      var rule := rules[|rules| - 1];
      FailsIff(init, items, fmt2);
      ScoreBounds(rule, items, fmt2);
      var ms := MatchedRules(rules, items);
      if Matches(rule, items) {
        AnySnoc(ms, inflammatory);
        assert ms[..|ms| - 1] == MatchedRules(init, items);
      } else {
        assert ms == MatchedRules(init, items);
      }
    }
  }
  /** The cap comes before the NLR bonus, so a score can exceed 1.0: the
      table's neutrophilia rule, with neutrophils at 12 against 2-7 and
      lymphocytes at 2 and no WBC in the report, scores 0.75 + 0.2 + 0.1. */
  lemma ScoreCanExceedOne(fmt2: real -> string)
    ensures Matches(NeutrophilRule, NeutrophilItems)
    ensures Scored(NeutrophilRule, NeutrophilItems, fmt2) == Ok((1.05, [NlrNote(6.0, fmt2)]))
  {
    NeutrophilInflammatory();
    NeutrophilCapped();
    assert Last(NeutrophilItems, "Lymphocytes") == Some(NeutrophilItems[1]);
    assert !Known(NeutrophilItems, "WBC");
  }

  /** The neutrophilia rule is named after infection, so it gets the
      ratio bonus. */
  lemma NeutrophilInflammatory()
    ensures Inflammatory(NeutrophilRule.name)
  {
    NamedInfection("Neutrophilia (Bacterial ", " Suspected)");
  }

  lemma NamedInfection(a: string, b: string)
    ensures Contains(a + "Infection" + b, "Infection")
  {
    var s := a + "Infection" + b;
    assert s[|a|..][..9] == "Infection";
    ContainsAt(s, "Infection", |a|);
  }

  const NeutrophilItems: seq<Item> :=
    [Item("Neutrophils", "High", Some(12.0), 2.0, 7.0), Item("Lymphocytes", "Normal", Some(2.0), 1.0, 4.0)]

  lemma NeutrophilCapped()
    ensures CappedScore(NeutrophilRule, NeutrophilItems) == 0.95
  {
    NeutrophilParams();
    assert Last(NeutrophilItems, "Neutrophils") == Some(NeutrophilItems[0]);
    assert SumContributions(NeutrophilItems, ["Neutrophils"]) == 0.2;
  }

  lemma NeutrophilParams()
    ensures ConditionParams(NeutrophilRule) == ["Neutrophils"]
  {
    var ks: seq<string> := ["Neutrophils"];
    assert Keys([("Neutrophils", High)]) == ks;
    assert Keys<Expected>([]) + ks == ks;
    assert DedupeFrom(ks, []) == DedupeFrom(ks[1..], ks);
  }
}
