/** The CBC pattern node (nodes/model2_patterns.py): fixed thresholds on
    six validated values name the patterns, each with one rationale line,
    and the risk score counts them. */
module NodesPatterns {
  import opened Common
  import opened NodesValidate

  /** `validated.get(name, {}).get("value")` */
  function Reading(validated: Dict<Validated>, name: string): (r: Option<real>)
    ensures r.Some? <==> HasKey(validated, name)
  {
    match Get(validated, name)
    case None => None
    case Some(e) => Some(e.value)
  }

  /** The six readings the rules look at. */
  datatype Readings = Readings(hb: Option<real>, mcv: Option<real>, wbc: Option<real>,
                               neut: Option<real>, lymph: Option<real>, platelets: Option<real>)

  function ReadingsOf(validated: Dict<Validated>): Readings {
    Readings(Reading(validated, "Hemoglobin"), Reading(validated, "MCV"),
             Reading(validated, "Total WBC count"), Reading(validated, "Neutrophils"),
             Reading(validated, "Lymphocytes"), Reading(validated, "Platelet Count"))
  }

  /** The patterns the node can name. */
  datatype Pattern =
    | MicrocyticAnemia | MacrocyticAnemia | NormocyticAnemia | Anemia
    | Leukocytosis | Neutrophilia | Lymphocytosis | Thrombocytopenia

  function Name(p: Pattern): string {
    match p
    case MicrocyticAnemia => "Microcytic anemia"
    case MacrocyticAnemia => "Macrocytic anemia"
    case NormocyticAnemia => "Normocytic anemia"
    case Anemia => "Anemia"
    case Leukocytosis => "Leukocytosis"
    case Neutrophilia => "Neutrophilia"
    case Lymphocytosis => "Lymphocytosis"
    case Thrombocytopenia => "Thrombocytopenia"
  }

  /** The rationale line appended together with each pattern. */
  function Reason(p: Pattern): string {
    match p
    case MicrocyticAnemia => "Low hemoglobin with low MCV"
    case MacrocyticAnemia => "Low hemoglobin with high MCV"
    case NormocyticAnemia => "Low hemoglobin with normal MCV"
    case Anemia => "Low hemoglobin detected"
    case Leukocytosis => "Elevated total WBC count"
    case Neutrophilia => "High neutrophil percentage"
    case Lymphocytosis => "High lymphocyte percentage"
    case Thrombocytopenia => "Low platelet count"
  }

  /** The anemia rule: low hemoglobin, sized by MCV when MCV is known. */
  function AnemiaFinding(hb: Option<real>, mcv: Option<real>): seq<Pattern> {
    if hb.Some? && hb.value < 12.0 then
      if mcv.Some? then
        if mcv.value < 80.0 then [MicrocyticAnemia]
        else if mcv.value > 100.0 then [MacrocyticAnemia]
        else [NormocyticAnemia]
      else [Anemia]
    else []
  }

  function Above(x: Option<real>, threshold: real, p: Pattern): seq<Pattern> {
    if x.Some? && x.value > threshold then [p] else []
  }

  function Below(x: Option<real>, threshold: real, p: Pattern): seq<Pattern> {
    if x.Some? && x.value < threshold then [p] else []
  }

  /** The rules in the order the node applies them. */
  function Findings(r: Readings): seq<Pattern> {
    AnemiaFinding(r.hb, r.mcv)
    + Above(r.wbc, 11000.0, Leukocytosis)
    + Above(r.neut, 75.0, Neutrophilia)
    + Above(r.lymph, 40.0, Lymphocytosis)
    + Below(r.platelets, 150000.0, Thrombocytopenia)
  }

  const NormalRationale: seq<string> := [
    "All evaluated CBC parameters fall within expected reference ranges",
    "No clinically significant hematologic abnormalities detected"]

  /** The node's result: "patterns" and the "risk_assessment" score and
      rationale. */
  datatype PatternReport = PatternReport(patterns: seq<string>, score: int, rationale: seq<string>)

  function Names(fs: seq<Pattern>): (ps: seq<string>)
    ensures |ps| == |fs| && forall i :: 0 <= i < |fs| ==> ps[i] == Name(fs[i])
  {
    seq(|fs|, i requires 0 <= i < |fs| => Name(fs[i]))
  }

  function Reasons(fs: seq<Pattern>): (rs: seq<string>)
    ensures |rs| == |fs| && forall i :: 0 <= i < |fs| ==> rs[i] == Reason(fs[i])
  {
    seq(|fs|, i requires 0 <= i < |fs| => Reason(fs[i]))
  }

  /** The report for the fired rules: risk score min(2n, 10), and the
      fixed normal-range rationale when nothing fired. */
  function Report(fs: seq<Pattern>): PatternReport {
    var n := |fs|;
    PatternReport(Names(fs), if 2 * n < 10 then 2 * n else 10,
                  if n == 0 then NormalRationale else Reasons(fs))
  }

  /** `model2_patterns_node(state)`: the score is twice the number of
      patterns named, one rationale line stands beside each pattern, and
      with no pattern the rationale is the fixed normal-range pair. */
  function Model2Patterns(validated: Dict<Validated>): (rep: PatternReport)
    ensures |rep.patterns| <= 5 && rep.score == 2 * |rep.patterns|
    ensures |rep.patterns| == 0 ==> rep.rationale == NormalRationale
    ensures |rep.patterns| > 0 ==> |rep.rationale| == |rep.patterns|
  {
    ScoreUncapped(ReadingsOf(validated));
    RationaleAligned(ReadingsOf(validated));
    Report(Findings(ReadingsOf(validated)))
  }

  // ---------------------------------------------------------------------
  // Properties

  /** Different patterns have different names, so a name in the report
      identifies the rule that fired. */
  lemma NamesDistinct(p: Pattern, q: Pattern)
    requires p != q
    ensures Name(p) != Name(q)
  {
  }

  /** When a pattern fires, the rationale has one line per pattern, at the
      same index, and it is that pattern's line; otherwise it is the two
      fixed normal-range lines. */
  lemma RationaleAligned(r: Readings)
    ensures var rep := Report(Findings(r));
      |rep.patterns| == 0 ==> rep.rationale == NormalRationale
    ensures var fs := Findings(r); var rep := Report(fs);
      |fs| > 0 ==> (|rep.rationale| == |rep.patterns| == |fs| &&
        forall i :: 0 <= i < |fs| ==> rep.patterns[i] == Name(fs[i]) && rep.rationale[i] == Reason(fs[i]))
  {
  }

  /** At most one anemia pattern and four others fire, so the cap of 10 is
      never reached: the score is exactly twice the number of patterns. */
  lemma ScoreUncapped(r: Readings)
    ensures var rep := Report(Findings(r));
      |rep.patterns| <= 5 && rep.score == 2 * |rep.patterns| && 0 <= rep.score <= 10
  {
    assert |AnemiaFinding(r.hb, r.mcv)| <= 1;
  }

  /** The anemia rule fires exactly for hemoglobin below 12, and MCV sizes
      it: below 80 microcytic, above 100 macrocytic, otherwise normocytic,
      and plain "Anemia" when MCV is missing. */
  lemma AnemiaSized(r: Readings)
    ensures var fs := Findings(r);
      (MicrocyticAnemia in fs <==> r.hb.Some? && r.hb.value < 12.0 && r.mcv.Some? && r.mcv.value < 80.0) &&
      (MacrocyticAnemia in fs <==> r.hb.Some? && r.hb.value < 12.0 && r.mcv.Some? && r.mcv.value > 100.0) &&
      (NormocyticAnemia in fs <==> r.hb.Some? && r.hb.value < 12.0 && r.mcv.Some? && 80.0 <= r.mcv.value <= 100.0) &&
      (Anemia in fs <==> r.hb.Some? && r.hb.value < 12.0 && r.mcv.None?)
  {
  }

  /** The other four rules fire exactly at their thresholds, and a missing
      value never fires. */
  lemma ThresholdsFire(r: Readings)
    ensures var fs := Findings(r);
      (Leukocytosis in fs <==> r.wbc.Some? && r.wbc.value > 11000.0) &&
      (Neutrophilia in fs <==> r.neut.Some? && r.neut.value > 75.0) &&
      (Lymphocytosis in fs <==> r.lymph.Some? && r.lymph.value > 40.0) &&
      (Thrombocytopenia in fs <==> r.platelets.Some? && r.platelets.value < 150000.0)
  {
  }

  /** A pattern is named in the report exactly when its rule fired. */
  lemma {:induction false} NamedIffFired(fs: seq<Pattern>, p: Pattern)
    ensures Name(p) in Report(fs).patterns <==> p in fs
  {
    var ps := Report(fs).patterns;
    if Name(p) in ps {
      var i :| 0 <= i < |ps| && ps[i] == Name(p);
      if fs[i] != p {
        NamesDistinct(fs[i], p);
      }
    }
    if p in fs {
      var i :| 0 <= i < |fs| && fs[i] == p;
      assert ps[i] == Name(p);
    }
  }
}
