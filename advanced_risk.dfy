/** The advanced risk calculator: lipid panel ratios, the Framingham
    10-year cardiovascular risk score (points version) and metabolic
    syndrome detection, computed from the parsed report and the patient
    context. */
module AdvancedRisk {
  import opened Common
  import opened Numeric

  // ---------------------------------------------------------------------
  // Reading a parameter out of the report

  /** One entry of the report: a dict of fields, or anything else. */
  datatype Entry = Fields(fields: Dict<Value>) | NotFields

  /** `float(entry.get('value', 0))`: a missing field reads as 0; a value
      that does not convert, or an entry that is not a dict, gives None. */
  function EntryValue(e: Entry): (r: Option<real>)
    ensures e.NotFields? ==> r.None?
    ensures e.Fields? && !HasKey(e.fields, "value") ==> r == Some(0.0)
  {
    match e
    case NotFields => None
    case Fields(f) => ValueToFloat(GetOr(f, "value", VInt(0)))
  }

  /** The name occurs in the key, ignoring case. */
  predicate Matches(key: string, name: string) {
    Contains(Lower(key), Lower(name))
  }

  /** The reading of the first key, in report order, that matches `name`. */
  function FirstValue(report: Dict<Entry>, name: string): Option<real> {
    if |report| == 0 then None
    else if Matches(report[0].0, name) then EntryValue(report[0].1)
    else FirstValue(report[1..], name)
  }

  /** The nested `get_value` helper: scan the keys in order and read the
      first one that matches, even when that reading fails. */
  method GetValue(report: Dict<Entry>, name: string) returns (r: Option<real>)
    ensures r == FirstValue(report, name)
  {
    var i := 0;
    while i < |report|
      invariant 0 <= i <= |report|
      invariant FirstValue(report[i..], name) == FirstValue(report, name)
    {
      assert report[i..][0] == report[i];
      if Matches(report[i].0, name) {
        return EntryValue(report[i].1);
      }
      assert report[i..][1..] == report[i + 1..];
      i := i + 1;
    }
    return None;
  }

  /** The first matching key decides, whatever the later keys hold. */
  lemma {:induction false} FirstValueAt(report: Dict<Entry>, name: string, i: nat)
    requires i < |report| && Matches(report[i].0, name)
    requires forall j :: 0 <= j < i ==> !Matches(report[j].0, name)
    ensures FirstValue(report, name) == EntryValue(report[i].1)
  {
    if i > 0 {
      assert !Matches(report[0].0, name);
      assert report[1..][i - 1] == report[i];
      assert forall j :: 0 <= j < i - 1 ==> report[1..][j] == report[j + 1];
      FirstValueAt(report[1..], name, i - 1);
    }
  }

  /** No matching key: no reading. */
  lemma {:induction false} FirstValueAbsent(report: Dict<Entry>, name: string)
    requires forall j :: 0 <= j < |report| ==> !Matches(report[j].0, name)
    ensures FirstValue(report, name) == None
  {
    if |report| > 0 {
      assert !Matches(report[0].0, name);
      FirstValueAbsent(report[1..], name);
    }
  }

  /** Python truthiness of an optional float: present and non-zero. */
  predicate Given(x: Option<real>) {
    x.Some? && x.value != 0.0
  }

  /** Python's `a or b` on optional floats. */
  function Or(a: Option<real>, b: Option<real>): (r: Option<real>)
    ensures Given(r) <==> Given(a) || Given(b)
  {
    if Given(a) then a else b
  }

  // ---------------------------------------------------------------------
  // Lipid panel ratios

  datatype Ratio = TcHdl | LdlHdl | TgHdl | NonHdl | Aip

  datatype Band = Optimal | Borderline | HighRisk

  datatype RatioReading = RatioReading(kind: Ratio, value: real, band: Band, status: string)

  /** The four lipid readings the ratios are computed from. */
  datatype Lipids = Lipids(totalChol: Option<real>, hdl: Option<real>, ldl: Option<real>, tg: Option<real>)

  datatype LipidResult = LipidResult(
    available: bool,
    inputs: Lipids,
    ratios: seq<RatioReading>,
    riskLevel: string,
    riskPoints: nat)

  /** The borderline and the high cut-off of each ratio. */
  function Cutoffs(kind: Ratio): (c: (real, real))
    ensures c.0 < c.1
  {
    match kind
    case TcHdl => (4.0, 5.0)
    case LdlHdl => (2.5, 3.5)
    case TgHdl => (2.0, 4.0)
    case NonHdl => (130.0, 160.0)
    case Aip => (0.11, 0.21)
  }

  function BandOf(kind: Ratio, v: real): Band {
    if v < Cutoffs(kind).0 then Optimal
    else if v < Cutoffs(kind).1 then Borderline
    else HighRisk
  }

  function BandPoints(b: Band): nat {
    match b
    case Optimal => 0
    case Borderline => 1
    case HighRisk => 2
  }

  /** The status text; the AIP names its bands by risk. */
  function StatusText(kind: Ratio, b: Band): string {
    match b
    case Optimal => if kind == Aip then "Low Risk" else "Optimal"
    case Borderline => if kind == Aip then "Intermediate" else "Borderline"
    case HighRisk => "High Risk"
  }

  function ReadingOf(kind: Ratio, v: real): RatioReading {
    RatioReading(kind, v, BandOf(kind, v), StatusText(kind, BandOf(kind, v)))
  }

  /** The value of one ratio, when its inputs allow it. `log10` stands for
      `math.log10`. */
  function RatioValue(kind: Ratio, l: Lipids, log10: real -> real): Option<real> {
    match kind
    case TcHdl =>
      if Given(l.totalChol) && Given(l.hdl) && l.hdl.value > 0.0
      then Some(Round(l.totalChol.value / l.hdl.value, 2)) else None
    case LdlHdl =>
      if Given(l.ldl) && Given(l.hdl) && l.hdl.value > 0.0
      then Some(Round(l.ldl.value / l.hdl.value, 2)) else None
    case TgHdl =>
      if Given(l.tg) && Given(l.hdl) && l.hdl.value > 0.0
      then Some(Round(l.tg.value / l.hdl.value, 2)) else None
    case NonHdl =>
      if Given(l.totalChol) && Given(l.hdl)
      then Some(Round(l.totalChol.value - l.hdl.value, 1)) else None
    case Aip =>
      if Given(l.tg) && Given(l.hdl) && l.hdl.value > 0.0 && l.tg.value > 0.0
      then Some(Round(log10((l.tg.value * 0.0113) / (l.hdl.value * 0.0259)), 3)) else None
  }

  /** The reading of one ratio, if it can be computed. */
  function Maybe(kind: Ratio, l: Lipids, log10: real -> real): seq<RatioReading> {
    var v := RatioValue(kind, l, log10);
    if v.Some? then [ReadingOf(kind, v.value)] else []
  }

  /** The computable ratios, in the order the source adds them. */
  function Readings(l: Lipids, log10: real -> real): seq<RatioReading> {
    Maybe(TcHdl, l, log10) + Maybe(LdlHdl, l, log10) + Maybe(TgHdl, l, log10)
      + Maybe(NonHdl, l, log10) + Maybe(Aip, l, log10)
  }

  function PointsOf(rs: seq<RatioReading>): nat {
    if |rs| == 0 then 0 else BandPoints(rs[0].band) + PointsOf(rs[1..])
  }

  function LipidLevel(points: nat): string {
    if points >= 6 then "High"
    else if points >= 3 then "Moderate"
    else if points >= 1 then "Low-Moderate"
    else "Low"
  }

  /** `get_value('cholesterol') or get_value('total cholesterol')`. */
  function TotalChol(report: Dict<Entry>): Option<real> {
    Or(FirstValue(report, "cholesterol"), FirstValue(report, "total cholesterol"))
  }

  method ReadTotalChol(report: Dict<Entry>) returns (tc: Option<real>)
    ensures tc == TotalChol(report)
  {
    tc := GetValue(report, "cholesterol");
    if !Given(tc) {
      tc := GetValue(report, "total cholesterol");
    }
  }

  function LipidInputs(report: Dict<Entry>): Lipids {
    Lipids(TotalChol(report), FirstValue(report, "hdl"), FirstValue(report, "ldl"), FirstValue(report, "triglyceride"))
  }

  /** What `calculate_lipid_ratios` reports: every computable ratio, its
      band, and the level of the summed points. */
  function LipidSpec(report: Dict<Entry>, log10: real -> real): LipidResult {
    var l := LipidInputs(report);
    var rs := Readings(l, log10);
    LipidResult(|rs| > 0, l, rs, LipidLevel(PointsOf(rs)), PointsOf(rs))
  }

  /** One ratio's status and points, from the `>=` cascade the source uses
      for the points. */
  method Score(kind: Ratio, v: real) returns (reading: RatioReading, points: nat)
    ensures reading == ReadingOf(kind, v)
    ensures points == BandPoints(BandOf(kind, v))
  {
    var (lo, hi) := Cutoffs(kind);
    var status := if v < lo then StatusText(kind, Optimal)
      else if v < hi then StatusText(kind, Borderline) else StatusText(kind, HighRisk);
    reading := RatioReading(kind, v, BandOf(kind, v), status);
    if v >= hi {
      points := 2;
    } else if v >= lo {
      points := 1;
    } else {
      points := 0;
    }
  }

  lemma {:induction false} PointsAppend(a: seq<RatioReading>, b: seq<RatioReading>)
    ensures PointsOf(a + b) == PointsOf(a) + PointsOf(b)
  {
    if |a| > 0 {
      assert (a + b)[1..] == a[1..] + b;
      PointsAppend(a[1..], b);
    } else {
      assert a + b == b;
    }
  }

  /** `calculate_lipid_ratios`: the five ratio blocks in order, each adding
      its reading and its points. */
  method CalculateLipidRatios(report: Dict<Entry>, log10: real -> real) returns (r: LipidResult)
    ensures r == LipidSpec(report, log10)
  {
    var tc := ReadTotalChol(report);
    var hdl := GetValue(report, "hdl");
    var ldl := GetValue(report, "ldl");
    var tg := GetValue(report, "triglyceride");
    var l := Lipids(tc, hdl, ldl, tg);
    var available, ratios, points := RatioBlocks(l, log10);
    r := LipidResult(available, l, ratios, LipidLevel(points), points);
  }

  /** The five ratio blocks of `calculate_lipid_ratios`, in order. Only the
      first four mark the result available; the fifth (AIP) cannot add a
      reading unless the third (TG/HDL) did. */
  method RatioBlocks(l: Lipids, log10: real -> real)
    returns (available: bool, ratios: seq<RatioReading>, points: nat)
    ensures ratios == Readings(l, log10)
    ensures points == PointsOf(ratios)
    ensures available <==> |ratios| > 0
  {
    ratios, points := [], 0;
    ratios, points := Block(TcHdl, l, log10, ratios, points);
    ratios, points := Block(LdlHdl, l, log10, ratios, points);
    ratios, points := Block(TgHdl, l, log10, ratios, points);
    ratios, points := Block(NonHdl, l, log10, ratios, points);
    available := |ratios| > 0;
    ratios, points := Block(Aip, l, log10, ratios, points);
    assert available <==> |ratios| > 0 by {
      if |Maybe(Aip, l, log10)| > 0 {
        assert |Maybe(TgHdl, l, log10)| > 0;
      }
    }
  }

  /** One ratio block: when the inputs allow the ratio, add its reading and
      its points. (The AIP block's inner check that both converted values
      are positive always holds once both inputs are.) */
  method Block(kind: Ratio, l: Lipids, log10: real -> real, ratios: seq<RatioReading>, points: nat)
    returns (ratios': seq<RatioReading>, points': nat)
    requires points == PointsOf(ratios)
    ensures ratios' == ratios + Maybe(kind, l, log10)
    ensures points' == PointsOf(ratios')
  {
    var v := RatioValue(kind, l, log10);
    if v.Some? {
      var reading, p := Score(kind, v.value);
      ratios', points' := Add(ratios, points, reading, p);
    } else {
      ratios', points' := ratios, points;
    }
  }

  /** Appends one reading and its points to the running totals. */
  method Add(ratios: seq<RatioReading>, points: nat, reading: RatioReading, p: nat)
    returns (ratios': seq<RatioReading>, points': nat)
    requires points == PointsOf(ratios) && p == BandPoints(reading.band)
    ensures ratios' == ratios + [reading] && points' == PointsOf(ratios')
  {
    PointsAppend(ratios, [reading]);
    ratios' := ratios + [reading];
    points' := points + p;
  }

  /** Each ratio adds at most 2 points, so the total is at most 10 and the
      level is one of the four. */
  lemma {:induction false} PointsBound(rs: seq<RatioReading>)
    ensures PointsOf(rs) <= 2 * |rs|
  {
    if |rs| > 0 {
      PointsBound(rs[1..]);
    }
  }

  lemma LipidPointsBound(report: Dict<Entry>, log10: real -> real)
    ensures LipidSpec(report, log10).riskPoints <= 10
    ensures |LipidSpec(report, log10).ratios| <= 5
  {
    PointsBound(Readings(LipidInputs(report), log10));
  }

  /** The panel is available exactly when HDL is given and either total
      cholesterol is given (non-HDL needs no sign check) or HDL is positive
      and LDL or triglycerides are given. */
  lemma LipidAvailable(report: Dict<Entry>, log10: real -> real)
    ensures var l := LipidInputs(report);
      LipidSpec(report, log10).available <==>
        Given(l.hdl) && (Given(l.totalChol) || (l.hdl.value > 0.0 && (Given(l.ldl) || Given(l.tg))))
  {
  }

  /** A reading whose band is the one its value falls in: optimal below
      the first cut-off, high risk from the second one up. */
  predicate Banded(rd: RatioReading) {
    (rd.band == Optimal <==> rd.value < Cutoffs(rd.kind).0) &&
    (rd.band == HighRisk <==> rd.value >= Cutoffs(rd.kind).1) &&
    rd.status == StatusText(rd.kind, rd.band)
  }

  /** Every reported ratio is banded by its own cut-offs. */
  lemma LipidBands(l: Lipids, log10: real -> real)
    ensures forall rd :: rd in Readings(l, log10) ==> Banded(rd)
  {
    forall kind: Ratio, rd | rd in Maybe(kind, l, log10)
      ensures Banded(rd)
    {
      var c := Cutoffs(kind);
      assert c.0 < c.1;
    }
  }

  /** The lipid level never falls as the points rise. */
  lemma LipidLevelMonotone(p: nat, q: nat)
    requires p <= q
    ensures LevelRank(LipidLevel(p)) <= LevelRank(LipidLevel(q))
  {
  }

  function LevelRank(level: string): nat {
    if level == "Low" then 0
    else if level == "Low-Moderate" then 1
    else if level == "Moderate" then 2
    else if level == "High" then 3
    else if level == "Very High" then 4
    else 0
  }

  // ---------------------------------------------------------------------
  // Framingham 10-year cardiovascular risk (points version)

  /** What the calculators read from the user context: the age, the gender
      text, the medical history and the lifestyle's `smoker` entry. */
  datatype Patient = Patient(age: Option<real>, gender: string, history: seq<string>, smoker: Value)

  datatype FraminghamInputs = FraminghamInputs(
    age: real,
    male: bool,
    genderText: string,
    totalChol: real,
    hdl: real,
    sbp: real,
    treated: bool,
    smoker: Value,
    diabetic: bool)

  datatype Framingham =
    | Unavailable(missing: seq<string>, interpretation: string)
    | Scored(inputs: FraminghamInputs, points: int, riskPct: nat, category: string,
             interpretation: string, recommendations: seq<string>)

  /** A points table read from the lowest bound up: below `steps[i].0`
      (the first such bound) a value scores `steps[i].1`; at or above every
      bound it scores `top`. */
  function Step(steps: seq<(real, int)>, top: int, x: real): int {
    if |steps| == 0 then top
    else if x < steps[0].0 then steps[0].1
    else Step(steps[1..], top, x)
  }

  /** A value below bound `i` and at or above every earlier bound scores
      the points of row `i`. */
  lemma {:induction false} StepAt(steps: seq<(real, int)>, top: int, x: real, i: nat)
    requires i < |steps| && x < steps[i].0
    requires forall j :: 0 <= j < i ==> steps[j].0 <= x
    ensures Step(steps, top, x) == steps[i].1
  {
    if i > 0 {
      assert steps[1..][i - 1] == steps[i];
      assert forall j :: 0 <= j < i - 1 ==> steps[1..][j] == steps[j + 1];
      StepAt(steps[1..], top, x, i - 1);
    }
  }

  /** A value at or above every bound scores the top row. */
  lemma {:induction false} StepTop(steps: seq<(real, int)>, top: int, x: real)
    requires forall j :: 0 <= j < |steps| ==> steps[j].0 <= x
    ensures Step(steps, top, x) == top
  {
    if |steps| > 0 {
      assert forall j :: 0 <= j < |steps| - 1 ==> steps[1..][j] == steps[j + 1];
      StepTop(steps[1..], top, x);
    }
  }

  function AgeSteps(male: bool): seq<(real, int)> {
    if male then [(35.0, -9), (40.0, -4), (45.0, 0), (50.0, 3), (55.0, 6), (60.0, 8), (65.0, 10), (70.0, 11)]
    else [(35.0, -7), (40.0, -3), (45.0, 0), (50.0, 3), (55.0, 6), (60.0, 8), (65.0, 10), (70.0, 12)]
  }

  function AgeTop(male: bool): int {
    if male then 12 else 14
  }

  const CholSteps: seq<(real, int)> := [(160.0, 0), (200.0, 1), (240.0, 2), (280.0, 3)]
  const CholTop := 4

  /** The HDL table, written from the low end: 60 and above is protective. */
  const HdlSteps: seq<(real, int)> := [(40.0, 2), (50.0, 1), (60.0, 0)]
  const HdlTop := -1

  function SbpSteps(male: bool, treated: bool): seq<(real, int)> {
    if treated then [(120.0, 0), (130.0, 1), (140.0, 2), (160.0, if male then 2 else 3)]
    else [(120.0, 0), (130.0, 0), (140.0, 1), (160.0, if male then 1 else 2)]
  }

  function SbpTop(male: bool, treated: bool): int {
    if male then (if treated then 3 else 2) else (if treated then 4 else 3)
  }

  function SmokerPoints(male: bool): int { if male then 3 else 4 }

  function DiabetesPoints(male: bool): int { if male then 2 else 4 }

  /** The total of the point tables for the patient's gender. */
  function Points(inp: FraminghamInputs): int {
    Step(AgeSteps(inp.male), AgeTop(inp.male), inp.age)
    + Step(CholSteps, CholTop, inp.totalChol)
    + Step(HdlSteps, HdlTop, inp.hdl)
    + Step(SbpSteps(inp.male, inp.treated), SbpTop(inp.male, inp.treated), inp.sbp)
    + (if Truthy(inp.smoker) then SmokerPoints(inp.male) else 0)
    + (if inp.diabetic then DiabetesPoints(inp.male) else 0)
  }

  /** The risk table: its lowest key and the percentages of the keys from
      there up, one apart. */
  function RiskTable(male: bool): (int, seq<nat>) {
    if male then (-1, [1, 1, 1, 1, 1, 1, 2, 2, 3, 4, 5, 6, 8, 10, 12, 16, 20, 25])
    else (-2, [1, 1, 1, 1, 1, 1, 1, 2, 2, 3, 4, 5, 6, 8, 10, 12, 16, 20, 25, 30])
  }

  /** Below the table 1 %, above it 30 %. The keys are consecutive, so the
      lookup's default of 30 is never taken. */
  function RiskPercent(male: bool, points: int): nat {
    var (lo, pcts) := RiskTable(male);
    if points < lo then 1
    else if points > lo + |pcts| - 1 then 30
    else pcts[points - lo]
  }

  function Category(pct: nat): string {
    if pct < 10 then "Low" else if pct < 20 then "Moderate" else "High"
  }

  function RiskMessage(pct: nat): string {
    "Your 10-year cardiovascular risk is " + ShowNat(pct) + "% " +
    (if pct < 10 then "(LOW). Continue healthy lifestyle."
     else if pct < 20 then "(MODERATE). Lifestyle modifications recommended."
     else "(HIGH). Medical intervention may be needed.")
  }

  const StatinAdvice := "Consider statin therapy discussion with doctor"
  const SmokingAdvice := "Smoking cessation is critical - reduces risk by 50% in 1 year"
  const FatAdvice := "Reduce saturated fat intake, increase fiber"
  const HdlAdvice := "Increase HDL through exercise and omega-3 fatty acids"
  const SugarAdvice := "Strict blood sugar control reduces cardiovascular risk"
  const PressureAdvice := "Blood pressure control is essential"

  function Advice(inp: FraminghamInputs, pct: nat): seq<string> {
    When(pct >= 10, StatinAdvice)
    + When(Truthy(inp.smoker), SmokingAdvice)
    + When(inp.totalChol > 200.0, FatAdvice)
    + When(inp.hdl < 40.0, HdlAdvice)
    + When(inp.diabetic, SugarAdvice)
    + When(inp.sbp > 140.0, PressureAdvice)
  }

  function ScoredResult(inp: FraminghamInputs): Framingham {
    var points := Points(inp);
    var pct := RiskPercent(inp.male, points);
    Scored(inp, points, pct, Category(pct), RiskMessage(pct), Advice(inp, pct))
  }

  /** The required inputs that are missing or out of range, in order. */
  function MissingInputs(age: Option<real>, gender: string, tc: Option<real>, hdl: Option<real>): seq<string> {
    When(!Given(age) || age.value < 30.0 || age.value > 79.0, "Age (must be 30-79 years)")
    + When(gender != "male" && gender != "female", "Gender")
    + When(!Given(tc), "Total Cholesterol")
    + When(!Given(hdl), "HDL Cholesterol")
  }

  /** `x or default` on an optional float. */
  function OrElse(x: Option<real>, default: real): real {
    if Given(x) then x.value else default
  }

  /** Systolic pressure from the report, 120 when it is absent or zero. */
  function SystolicOr120(report: Dict<Entry>): real {
    OrElse(Or(FirstValue(report, "systolic"), FirstValue(report, "blood pressure")), 120.0)
  }

  function MissingMessage(missing: seq<string>): string {
    "Cannot calculate Framingham Risk. Missing: " + Join(missing, ", ")
  }

  /** The risk for a patient with the given readings; `sbp` already has its
      default. */
  function FraminghamOf(p: Patient, tc: Option<real>, hdl: Option<real>, sbp: real): Framingham {
    var gender := Lower(p.gender);
    var missing := MissingInputs(p.age, gender, tc, hdl);
    if |missing| > 0 then Unavailable(missing, MissingMessage(missing))
    else
      ScoredResult(FraminghamInputs(p.age.value, gender == "male", Capitalize(gender),
        tc.value, hdl.value, sbp, "Hypertension" in p.history, p.smoker, "Diabetes" in p.history))
  }

  /** What `calculate_framingham_risk` reports. */
  function FraminghamSpec(report: Dict<Entry>, p: Patient): Framingham {
    FraminghamOf(p, TotalChol(report), FirstValue(report, "hdl"), SystolicOr120(report))
  }

  /** `calculate_framingham_risk`: read the report, then assess. */
  method CalculateFramingham(report: Dict<Entry>, p: Patient) returns (r: Framingham)
    ensures r == FraminghamSpec(report, p)
  {
    var tc := ReadTotalChol(report);
    var hdl := GetValue(report, "hdl");
    var sbp := GetValue(report, "systolic");
    if !Given(sbp) {
      sbp := GetValue(report, "blood pressure");
    }
    var systolic := if Given(sbp) then sbp.value else 120.0;
    r := Assess(p, tc, hdl, systolic);
  }

  /** Collect the missing inputs, and when none is missing add up the
      points and look up the risk. */
  method Assess(p: Patient, tc: Option<real>, hdl: Option<real>, sbp: real) returns (r: Framingham)
    ensures r == FraminghamOf(p, tc, hdl, sbp)
  {
    var age := p.age;
    var gender := Lower(p.gender);
    var diabetic := "Diabetes" in p.history;
    var treated := "Hypertension" in p.history;
    var missing := CollectMissing(age, gender, tc, hdl);
    if |missing| > 0 {
      return Unavailable(missing, MissingMessage(missing));
    }
    var inp := FraminghamInputs(age.value, gender == "male", Capitalize(gender),
      tc.value, hdl.value, sbp, treated, p.smoker, diabetic);
    r := ScoreFramingham(inp);
  }

  /** The scoring half of `calculate_framingham_risk`. */
  method ScoreFramingham(inp: FraminghamInputs) returns (r: Framingham)
    ensures r == ScoredResult(inp)
  {
    var points := FraminghamPoints(inp);
    var pct := LookUpRisk(inp.male, points);
    var category, message;
    if pct < 10 {
      category := "Low";
    } else if pct < 20 {
      category := "Moderate";
    } else {
      category := "High";
    }
    message := RiskMessage(pct);
    var recommendations := Recommend(inp, pct);
    r := Scored(inp, points, pct, category, message, recommendations);
  }

  /** The missing-input checks, each appending its label. */
  method CollectMissing(age: Option<real>, gender: string, tc: Option<real>, hdl: Option<real>)
    returns (missing: seq<string>)
    ensures missing == MissingInputs(age, gender, tc, hdl)
  {
    missing := [];
    if !Given(age) || age.value < 30.0 || age.value > 79.0 {
      missing := missing + ["Age (must be 30-79 years)"];
    }
    assert missing == When(!Given(age) || age.value < 30.0 || age.value > 79.0, "Age (must be 30-79 years)");
    if gender != "male" && gender != "female" {
      missing := missing + ["Gender"];
    }
    assert missing == When(!Given(age) || age.value < 30.0 || age.value > 79.0, "Age (must be 30-79 years)") + When(gender != "male" && gender != "female", "Gender");
    if !Given(tc) {
      missing := missing + ["Total Cholesterol"];
    }
    assert missing == When(!Given(age) || age.value < 30.0 || age.value > 79.0, "Age (must be 30-79 years)") + When(gender != "male" && gender != "female", "Gender") + When(!Given(tc), "Total Cholesterol");
    if !Given(hdl) {
      missing := missing + ["HDL Cholesterol"];
    }
    assert missing == When(!Given(age) || age.value < 30.0 || age.value > 79.0, "Age (must be 30-79 years)") + When(gender != "male" && gender != "female", "Gender") + When(!Given(tc), "Total Cholesterol") + When(!Given(hdl), "HDL Cholesterol");
  }

  /** The recommendation checks, each appending its advice. */
  method Recommend(inp: FraminghamInputs, pct: nat) returns (recommendations: seq<string>)
    ensures recommendations == Advice(inp, pct)
  {
    recommendations := [];
    if pct >= 10 {
      recommendations := recommendations + [StatinAdvice];
    }
    assert recommendations == When(pct >= 10, StatinAdvice);
    if Truthy(inp.smoker) {
      recommendations := recommendations + [SmokingAdvice];
    }
    assert recommendations == When(pct >= 10, StatinAdvice) + When(Truthy(inp.smoker), SmokingAdvice);
    if inp.totalChol > 200.0 {
      recommendations := recommendations + [FatAdvice];
    }
    assert recommendations == When(pct >= 10, StatinAdvice) + When(Truthy(inp.smoker), SmokingAdvice) + When(inp.totalChol > 200.0, FatAdvice);
    if inp.hdl < 40.0 {
      recommendations := recommendations + [HdlAdvice];
    }
    assert recommendations == When(pct >= 10, StatinAdvice) + When(Truthy(inp.smoker), SmokingAdvice) + When(inp.totalChol > 200.0, FatAdvice) + When(inp.hdl < 40.0, HdlAdvice);
    if inp.diabetic {
      recommendations := recommendations + [SugarAdvice];
    }
    assert recommendations == When(pct >= 10, StatinAdvice) + When(Truthy(inp.smoker), SmokingAdvice) + When(inp.totalChol > 200.0, FatAdvice) + When(inp.hdl < 40.0, HdlAdvice) + When(inp.diabetic, SugarAdvice);
    if inp.sbp > 140.0 {
      recommendations := recommendations + [PressureAdvice];
    }
    assert recommendations == When(pct >= 10, StatinAdvice) + When(Truthy(inp.smoker), SmokingAdvice) + When(inp.totalChol > 200.0, FatAdvice) + When(inp.hdl < 40.0, HdlAdvice) + When(inp.diabetic, SugarAdvice) + When(inp.sbp > 140.0, PressureAdvice);
  }

  /** The points accumulator, table by table. */
  method FraminghamPoints(inp: FraminghamInputs) returns (points: int)
    ensures points == Points(inp)
  {
    points := 0;
    var p := AgeBand(inp.male, inp.age);
    points := points + p;
    p := CholBand(inp.totalChol);
    points := points + p;
    p := HdlBand(inp.hdl);
    points := points + p;
    p := SbpBand(inp.male, inp.treated, inp.sbp);
    points := points + p;
    if Truthy(inp.smoker) {
      points := points + if inp.male then 3 else 4;
    }
    if inp.diabetic {
      points := points + if inp.male then 2 else 4;
    }
  }

  method AgeBand(male: bool, age: real) returns (p: int)
    ensures p == Step(AgeSteps(male), AgeTop(male), age)
  {
    if age < 35.0 {
      p := if male then -9 else -7;
      StepAt(AgeSteps(male), AgeTop(male), age, 0);
    } else if age < 40.0 {
      p := if male then -4 else -3;
      StepAt(AgeSteps(male), AgeTop(male), age, 1);
    } else if age < 45.0 {
      p := 0;
      StepAt(AgeSteps(male), AgeTop(male), age, 2);
    } else if age < 50.0 {
      p := 3;
      StepAt(AgeSteps(male), AgeTop(male), age, 3);
    } else if age < 55.0 {
      p := 6;
      StepAt(AgeSteps(male), AgeTop(male), age, 4);
    } else if age < 60.0 {
      p := 8;
      StepAt(AgeSteps(male), AgeTop(male), age, 5);
    } else if age < 65.0 {
      p := 10;
      StepAt(AgeSteps(male), AgeTop(male), age, 6);
    } else if age < 70.0 {
      p := if male then 11 else 12;
      StepAt(AgeSteps(male), AgeTop(male), age, 7);
    } else {
      p := if male then 12 else 14;
      StepTop(AgeSteps(male), AgeTop(male), age);
    }
  }

  method CholBand(tc: real) returns (p: int)
    ensures p == Step(CholSteps, CholTop, tc)
  {
    if tc < 160.0 {
      p := 0;
      StepAt(CholSteps, CholTop, tc, 0);
    } else if tc < 200.0 {
      p := 1;
      StepAt(CholSteps, CholTop, tc, 1);
    } else if tc < 240.0 {
      p := 2;
      StepAt(CholSteps, CholTop, tc, 2);
    } else if tc < 280.0 {
      p := 3;
      StepAt(CholSteps, CholTop, tc, 3);
    } else {
      p := 4;
      StepTop(CholSteps, CholTop, tc);
    }
  }

  method HdlBand(hdl: real) returns (p: int)
    ensures p == Step(HdlSteps, HdlTop, hdl)
  {
    if hdl >= 60.0 {
      p := -1;
      StepTop(HdlSteps, HdlTop, hdl);
    } else if hdl >= 50.0 {
      p := 0;
      StepAt(HdlSteps, HdlTop, hdl, 2);
    } else if hdl >= 40.0 {
      p := 1;
      StepAt(HdlSteps, HdlTop, hdl, 1);
    } else {
      p := 2;
      StepAt(HdlSteps, HdlTop, hdl, 0);
    }
  }

  method SbpBand(male: bool, treated: bool, sbp: real) returns (p: int)
    ensures p == Step(SbpSteps(male, treated), SbpTop(male, treated), sbp)
  {
    if treated {
      if sbp < 120.0 {
        p := 0;
        StepAt(SbpSteps(male, treated), SbpTop(male, treated), sbp, 0);
      } else if sbp < 130.0 {
        p := 1;
        StepAt(SbpSteps(male, treated), SbpTop(male, treated), sbp, 1);
      } else if sbp < 140.0 {
        p := 2;
        StepAt(SbpSteps(male, treated), SbpTop(male, treated), sbp, 2);
      } else if sbp < 160.0 {
        p := if male then 2 else 3;
        StepAt(SbpSteps(male, treated), SbpTop(male, treated), sbp, 3);
      } else {
        p := if male then 3 else 4;
        StepTop(SbpSteps(male, treated), SbpTop(male, treated), sbp);
      }
    } else {
      if sbp < 120.0 {
        p := 0;
        StepAt(SbpSteps(male, treated), SbpTop(male, treated), sbp, 0);
      } else if sbp < 130.0 {
        p := 0;
        StepAt(SbpSteps(male, treated), SbpTop(male, treated), sbp, 1);
      } else if sbp < 140.0 {
        p := 1;
        StepAt(SbpSteps(male, treated), SbpTop(male, treated), sbp, 2);
      } else if sbp < 160.0 {
        p := if male then 1 else 2;
        StepAt(SbpSteps(male, treated), SbpTop(male, treated), sbp, 3);
      } else {
        p := if male then 2 else 3;
        StepTop(SbpSteps(male, treated), SbpTop(male, treated), sbp);
      }
    }
  }

  /** The lookup with the out-of-table cases first, as the source does it. */
  method LookUpRisk(male: bool, points: int) returns (pct: nat)
    ensures pct == RiskPercent(male, points)
  {
    var lo, hi, pcts;
    if male {
      lo, hi := -1, 16;
      pcts := [1, 1, 1, 1, 1, 1, 2, 2, 3, 4, 5, 6, 8, 10, 12, 16, 20, 25];
    } else {
      lo, hi := -2, 17;
      pcts := [1, 1, 1, 1, 1, 1, 1, 2, 2, 3, 4, 5, 6, 8, 10, 12, 16, 20, 25, 30];
    }
    if points < lo {
      pct := 1;
    } else if points > hi {
      pct := 30;
    } else {
      pct := pcts[points - lo];
    }
  }

  // Properties of the Framingham tables

  /** The points of a table never fall from one row to the next, nor from
      the last row to the top. */
  predicate Rising(steps: seq<(real, int)>, top: int) {
    (forall i :: 0 <= i < |steps| - 1 ==> steps[i].1 <= steps[i + 1].1) &&
    (|steps| > 0 ==> steps[|steps| - 1].1 <= top)
  }

  /** The points of a table never rise from one row to the next, nor from
      the last row to the top. */
  predicate Falling(steps: seq<(real, int)>, top: int) {
    (forall i :: 0 <= i < |steps| - 1 ==> steps[i].1 >= steps[i + 1].1) &&
    (|steps| > 0 ==> steps[|steps| - 1].1 >= top)
  }

  function Lowest(steps: seq<(real, int)>, top: int): int {
    if |steps| == 0 then top else steps[0].1
  }

  /** In a rising table every value scores between the first row and the top. */
  lemma {:induction false} RisingBounds(steps: seq<(real, int)>, top: int, x: real)
    requires Rising(steps, top)
    ensures Lowest(steps, top) <= Step(steps, top, x) <= top
  {
    if |steps| > 0 {
      RisingBounds(steps[1..], top, x);
    }
  }

  lemma {:induction false} FallingBounds(steps: seq<(real, int)>, top: int, x: real)
    requires Falling(steps, top)
    ensures top <= Step(steps, top, x) <= Lowest(steps, top)
  {
    if |steps| > 0 {
      FallingBounds(steps[1..], top, x);
    }
  }

  /** A rising table scores a larger value at least as high. */
  lemma {:induction false} RisingMonotone(steps: seq<(real, int)>, top: int, x: real, y: real)
    requires Rising(steps, top) && x <= y
    ensures Step(steps, top, x) <= Step(steps, top, y)
  {
    if |steps| > 0 {
      if x < steps[0].0 {
        RisingBounds(steps[1..], top, y);
      } else {
        RisingMonotone(steps[1..], top, x, y);
      }
    }
  }

  /** A falling table scores a larger value at most as high. */
  lemma {:induction false} FallingMonotone(steps: seq<(real, int)>, top: int, x: real, y: real)
    requires Falling(steps, top) && x <= y
    ensures Step(steps, top, x) >= Step(steps, top, y)
  {
    if |steps| > 0 {
      if x < steps[0].0 {
        FallingBounds(steps[1..], top, y);
      } else {
        FallingMonotone(steps[1..], top, x, y);
      }
    }
  }

  /** The shapes of the source's tables: age, cholesterol and pressure
      rise, HDL falls. */
  lemma TableShapes(male: bool, treated: bool)
    ensures Rising(AgeSteps(male), AgeTop(male))
    ensures Rising(CholSteps, CholTop)
    ensures Falling(HdlSteps, HdlTop)
    ensures Rising(SbpSteps(male, treated), SbpTop(male, treated))
  {
  }

  /** An older, more hypercholesterolaemic, lower-HDL, higher-pressure,
      smoking or diabetic patient of the same gender and treatment status
      never scores fewer points. */
  lemma PointsMonotone(a: FraminghamInputs, b: FraminghamInputs)
    requires a.male == b.male && a.treated == b.treated
    requires a.age <= b.age && a.totalChol <= b.totalChol && a.hdl >= b.hdl && a.sbp <= b.sbp
    requires Truthy(a.smoker) ==> Truthy(b.smoker)
    requires a.diabetic ==> b.diabetic
    ensures Points(a) <= Points(b)
  {
    TableShapes(a.male, a.treated);
    RisingMonotone(AgeSteps(a.male), AgeTop(a.male), a.age, b.age);
    RisingMonotone(CholSteps, CholTop, a.totalChol, b.totalChol);
    FallingMonotone(HdlSteps, HdlTop, b.hdl, a.hdl);
    RisingMonotone(SbpSteps(a.male, a.treated), SbpTop(a.male, a.treated), a.sbp, b.sbp);
  }

  /** The range of the points: -10 to 26 for men, -8 to 32 for women. */
  lemma PointsRange(inp: FraminghamInputs)
    ensures inp.male ==> -10 <= Points(inp) <= 26
    ensures !inp.male ==> -8 <= Points(inp) <= 32
  {
    TableShapes(inp.male, inp.treated);
    RisingBounds(AgeSteps(inp.male), AgeTop(inp.male), inp.age);
    RisingBounds(CholSteps, CholTop, inp.totalChol);
    FallingBounds(HdlSteps, HdlTop, inp.hdl);
    RisingBounds(SbpSteps(inp.male, inp.treated), SbpTop(inp.male, inp.treated), inp.sbp);
  }

  /** Non-decreasing, and every entry between 1 and 30. */
  predicate SortedPercents(pcts: seq<nat>) {
    (forall i :: 0 <= i < |pcts| ==> 1 <= pcts[i] <= 30) &&
    (forall i :: 0 <= i < |pcts| - 1 ==> pcts[i] <= pcts[i + 1])
  }

  lemma {:induction false} SortedPercentsAt(pcts: seq<nat>, i: nat, j: nat)
    requires SortedPercents(pcts) && i <= j < |pcts|
    ensures 1 <= pcts[i] <= pcts[j] <= 30
  {
    if i < j {
      SortedPercentsAt(pcts, i, j - 1);
    }
  }

  lemma RiskTableSorted(male: bool)
    ensures SortedPercents(RiskTable(male).1)
  {
  }

  /** More points never mean a lower risk, and the risk stays within 1–30 %. */
  lemma RiskMonotone(male: bool, p: int, q: int)
    requires p <= q
    ensures 1 <= RiskPercent(male, p) <= RiskPercent(male, q) <= 30
  {
    var (lo, pcts) := RiskTable(male);
    RiskTableSorted(male);
    if lo <= p <= lo + |pcts| - 1 {
      if q <= lo + |pcts| - 1 {
        SortedPercentsAt(pcts, p - lo, q - lo);
      } else {
        SortedPercentsAt(pcts, p - lo, p - lo);
      }
    } else if lo <= q <= lo + |pcts| - 1 {
      SortedPercentsAt(pcts, q - lo, q - lo);
    }
  }

  /** The 10-year risk never falls as any risk factor worsens. */
  lemma RiskFactorsMonotone(a: FraminghamInputs, b: FraminghamInputs)
    requires a.male == b.male && a.treated == b.treated
    requires a.age <= b.age && a.totalChol <= b.totalChol && a.hdl >= b.hdl && a.sbp <= b.sbp
    requires Truthy(a.smoker) ==> Truthy(b.smoker)
    requires a.diabetic ==> b.diabetic
    ensures ScoredResult(a).riskPct <= ScoredResult(b).riskPct
  {
    PointsMonotone(a, b);
    RiskMonotone(a.male, Points(a), Points(b));
  }

  /** A score is produced exactly when the age is 30–79, the gender is male
      or female (in any case), and total cholesterol and HDL are given;
      otherwise the missing list names what failed. */
  lemma FraminghamAvailable(report: Dict<Entry>, p: Patient)
    ensures var r := FraminghamSpec(report, p);
      r.Scored? <==>
        Given(p.age) && 30.0 <= p.age.value <= 79.0 &&
        (Lower(p.gender) == "male" || Lower(p.gender) == "female") &&
        Given(TotalChol(report)) && Given(FirstValue(report, "hdl"))
  {
  }

  /** Statin therapy is suggested exactly when the risk is not low. */
  lemma StatinIff(inp: FraminghamInputs)
    ensures var r := ScoredResult(inp);
      (StatinAdvice in r.recommendations <==> r.category != "Low") &&
      (r.category == "Low" <==> r.riskPct < 10) &&
      (r.category == "High" <==> r.riskPct >= 20)
  {
    var r := ScoredResult(inp);
    assert r.recommendations == Advice(inp, r.riskPct);
    assert StatinAdvice != SmokingAdvice && StatinAdvice != FatAdvice && StatinAdvice != HdlAdvice;
    assert StatinAdvice != SugarAdvice && StatinAdvice != PressureAdvice;
  }

  // ---------------------------------------------------------------------
  // Metabolic syndrome (NCEP ATP III, five criteria)

  datatype Criterion = Obesity | Triglycerides | LowHdl | BloodPressure | FastingGlucose

  /** What a criterion was judged on: a reading, the medical history, or
      nothing. */
  datatype Evidence = Measured(v: real) | FromHistory | NotAvailable

  /** The threshold a criterion reports, by its text in `ThresholdText`. */
  datatype Threshold =
    | ProxyPresent | WaistCutoff | TgCutoff | HdlMale | HdlFemale | HdlEither
    | BpOrTreated | BpCutoff | GlucoseOrTreated | GlucoseCutoff

  function ThresholdText(t: Threshold): string {
    match t
    case ProxyPresent => "Diabetes/Hypertension present"
    case WaistCutoff => ">102cm (M) / >88cm (F)"
    case TgCutoff => "\U{2265}150 mg/dL"
    case HdlMale => "<40 mg/dL (Male)"
    case HdlFemale => "<50 mg/dL (Female)"
    case HdlEither => "<40 (M) / <50 (F) mg/dL"
    case BpOrTreated => "\U{2265}130/85 mmHg or on treatment"
    case BpCutoff => "\U{2265}130/85 mmHg"
    case GlucoseOrTreated => "\U{2265}100 mg/dL or on treatment"
    case GlucoseCutoff => "\U{2265}100 mg/dL"
  }

  datatype CriterionResult = CriterionResult(criterion: Criterion, met: bool, evidence: Evidence, threshold: Threshold)

  /** The four report readings the criteria use. */
  datatype MetInputs = MetInputs(tg: Option<real>, hdl: Option<real>, glucose: Option<real>, sbp: Option<real>)

  datatype MetabolicSyndrome = MetabolicSyndrome(
    available: bool,
    criteriaMet: nat,
    details: seq<CriterionResult>,
    hasSyndrome: bool,
    riskLevel: string,
    interpretation: string,
    recommendations: seq<string>,
    missing: seq<string>)

  function MetInputsOf(report: Dict<Entry>): MetInputs {
    MetInputs(
      FirstValue(report, "triglyceride"),
      FirstValue(report, "hdl"),
      Or(Or(FirstValue(report, "glucose"), FirstValue(report, "fasting glucose")), FirstValue(report, "blood sugar")),
      Or(FirstValue(report, "systolic"), FirstValue(report, "blood pressure")))
  }

  /** Waist circumference is never in a blood report: diabetes or
      hypertension in the history stands in for it. */
  function ObesityResult(history: seq<string>): CriterionResult {
    if "Diabetes" in history || "Hypertension" in history
    then CriterionResult(Obesity, true, FromHistory, ProxyPresent)
    else CriterionResult(Obesity, false, NotAvailable, WaistCutoff)
  }

  function TgResult(tg: Option<real>): CriterionResult {
    if tg.Some? then CriterionResult(Triglycerides, tg.value >= 150.0, Measured(tg.value), TgCutoff)
    else CriterionResult(Triglycerides, false, NotAvailable, TgCutoff)
  }

  /** Any gender other than male is held to the female threshold. */
  function HdlResult(hdl: Option<real>, gender: string): CriterionResult {
    if hdl.Some? then
      if gender == "male" then CriterionResult(LowHdl, hdl.value < 40.0, Measured(hdl.value), HdlMale)
      else CriterionResult(LowHdl, hdl.value < 50.0, Measured(hdl.value), HdlFemale)
    else CriterionResult(LowHdl, false, NotAvailable, HdlEither)
  }

  function BpResult(sbp: Option<real>, hypertension: bool): CriterionResult {
    if sbp.Some? then
      CriterionResult(BloodPressure, sbp.value >= 130.0 || hypertension, Measured(sbp.value), BpOrTreated)
    else if hypertension then
      CriterionResult(BloodPressure, true, FromHistory, BpOrTreated)
    else CriterionResult(BloodPressure, false, NotAvailable, BpCutoff)
  }

  function GlucoseResult(glucose: Option<real>, diabetes: bool): CriterionResult {
    if glucose.Some? then
      CriterionResult(FastingGlucose, glucose.value >= 100.0 || diabetes, Measured(glucose.value), GlucoseOrTreated)
    else if diabetes then
      CriterionResult(FastingGlucose, true, FromHistory, GlucoseOrTreated)
    else CriterionResult(FastingGlucose, false, NotAvailable, GlucoseCutoff)
  }

  /** The five criteria, in the order the source checks them. */
  function Details(m: MetInputs, gender: string, history: seq<string>): seq<CriterionResult> {
    [ObesityResult(history), TgResult(m.tg), HdlResult(m.hdl, gender),
     BpResult(m.sbp, "Hypertension" in history), GlucoseResult(m.glucose, "Diabetes" in history)]
  }

  function CountMet(ds: seq<CriterionResult>): nat {
    if |ds| == 0 then 0 else (if ds[0].met then 1 else 0) + CountMet(ds[1..])
  }

  /** The label a criterion adds to the missing data when it cannot be
      judged. */
  function MissingLabel(c: Criterion): string {
    match c
    case Obesity => "Waist circumference"
    case Triglycerides => "Triglycerides"
    case LowHdl => "HDL Cholesterol"
    case BloodPressure => "Blood Pressure"
    case FastingGlucose => "Fasting Glucose"
  }

  function MissingData(ds: seq<CriterionResult>): seq<string> {
    if |ds| == 0 then []
    else When(ds[0].evidence.NotAvailable?, MissingLabel(ds[0].criterion)) + MissingData(ds[1..])
  }

  function MetLevel(count: nat): string {
    if count >= 4 then "Very High"
    else if count >= 3 then "High"
    else if count >= 2 then "Moderate"
    else if count >= 1 then "Low-Moderate"
    else "Low"
  }

  function MetMessage(count: nat): string {
    if count >= 3 then
      "\U{26A0}\U{FE0F} METABOLIC SYNDROME DETECTED (" + ShowNat(count) + "/5 criteria met). "
      + "This significantly increases risk of Type 2 Diabetes, Heart Disease, and Stroke."
    else if count >= 2 then
      "\U{26A1} PRE-METABOLIC SYNDROME (" + ShowNat(count) + "/5 criteria met). "
      + "At risk - lifestyle intervention recommended."
    else "\U{2705} No Metabolic Syndrome (" + ShowNat(count) + "/5 criteria met)."
  }

  const LifestyleAdvice: seq<string> := [
    "Weight loss of 7-10% body weight significantly reduces risk",
    "150 minutes/week of moderate exercise",
    "Mediterranean or DASH diet recommended",
    "Reduce refined carbohydrates and sugars",
    "Regular monitoring of blood pressure and glucose",
    "Consider consultation with endocrinologist"]
  const TgAdvice := "Reduce triglycerides: limit alcohol, sugars, and refined carbs"
  const HdlRaiseAdvice := "Increase HDL: aerobic exercise, omega-3 fatty acids, quit smoking"
  const GlucoseAdvice := "Blood sugar control: low glycemic index foods, regular meals"

  /** The HDL advice test names both genders, unlike the criterion. */
  predicate HdlAdvised(hdl: Option<real>, gender: string) {
    Given(hdl) && ((gender == "male" && hdl.value < 40.0) || (gender == "female" && hdl.value < 50.0))
  }

  function MetAdvice(m: MetInputs, gender: string, count: nat): seq<string> {
    if count >= 2 then
      LifestyleAdvice
      + When(Given(m.tg) && m.tg.value >= 150.0, TgAdvice)
      + When(HdlAdvised(m.hdl, gender), HdlRaiseAdvice)
      + When(Given(m.glucose) && m.glucose.value >= 100.0, GlucoseAdvice)
    else []
  }

  /** Some criterion after the obesity proxy was judged on data or history. */
  predicate Assessed(ds: seq<CriterionResult>) {
    exists i :: 1 <= i < |ds| && !ds[i].evidence.NotAvailable?
  }

  function MetabolicOf(m: MetInputs, gender: string, history: seq<string>): MetabolicSyndrome {
    var ds := Details(m, gender, history);
    var count := CountMet(ds);
    MetabolicSyndrome(Assessed(ds), count, ds, count >= 3, MetLevel(count), MetMessage(count),
      MetAdvice(m, gender, count), MissingData(ds))
  }

  /** What `detect_metabolic_syndrome` reports. */
  function MetabolicSpec(report: Dict<Entry>, p: Patient): MetabolicSyndrome {
    MetabolicOf(MetInputsOf(report), Lower(p.gender), p.history)
  }

  /** `detect_metabolic_syndrome`: read the report, then judge. */
  method DetectMetabolicSyndrome(report: Dict<Entry>, p: Patient) returns (r: MetabolicSyndrome)
    ensures r == MetabolicSpec(report, p)
  {
    var tg := GetValue(report, "triglyceride");
    var hdl := GetValue(report, "hdl");
    var glucose := GetValue(report, "glucose");
    if !Given(glucose) {
      glucose := GetValue(report, "fasting glucose");
    }
    if !Given(glucose) {
      glucose := GetValue(report, "blood sugar");
    }
    var sbp := GetValue(report, "systolic");
    if !Given(sbp) {
      sbp := GetValue(report, "blood pressure");
    }
    r := JudgeMetabolic(MetInputs(tg, hdl, glucose, sbp), Lower(p.gender), p.history);
  }

  /** The five criteria in turn, each appending its detail, counting when
      met and recording missing data; then level, text and advice. */
  method JudgeMetabolic(m: MetInputs, gender: string, history: seq<string>) returns (r: MetabolicSyndrome)
    ensures r == MetabolicOf(m, gender, history)
  {
    var count, details, missing, available := Criteria(m, gender, history);
    var level;
    if count >= 4 {
      level := "Very High";
    } else if count >= 3 {
      level := "High";
    } else if count >= 2 {
      level := "Moderate";
    } else if count >= 1 {
      level := "Low-Moderate";
    } else {
      level := "Low";
    }
    assert level == MetLevel(count);
    var recommendations := MetRecommend(m, gender, count);
    ghost var ds := Details(m, gender, history);
    assert count == CountMet(ds) && missing == MissingData(ds) && available == Assessed(ds);
    r := MetabolicSyndrome(available, count, details, count >= 3, level, MetMessage(count),
      recommendations, missing);
  }

  /** The recommendations, given once two or more criteria are met (the
      source tests `has_metabolic_syndrome or criteria_count >= 2`). */
  method MetRecommend(m: MetInputs, gender: string, count: nat) returns (recommendations: seq<string>)
    ensures recommendations == MetAdvice(m, gender, count)
  {
    recommendations := [];
    if count >= 3 || count >= 2 {
      recommendations := LifestyleAdvice;
      if Given(m.tg) && m.tg.value >= 150.0 {
        recommendations := recommendations + [TgAdvice];
      }
      assert recommendations == LifestyleAdvice + When(Given(m.tg) && m.tg.value >= 150.0, TgAdvice);
      if HdlAdvised(m.hdl, gender) {
        recommendations := recommendations + [HdlRaiseAdvice];
      }
      assert recommendations == LifestyleAdvice + When(Given(m.tg) && m.tg.value >= 150.0, TgAdvice)
        + When(HdlAdvised(m.hdl, gender), HdlRaiseAdvice);
      if Given(m.glucose) && m.glucose.value >= 100.0 {
        recommendations := recommendations + [GlucoseAdvice];
      }
    }
  }

  /** The criteria blocks of `detect_metabolic_syndrome`, each updating the
      count, the details, the missing data and the availability flag. */
  method Criteria(m: MetInputs, gender: string, history: seq<string>)
    returns (count: nat, details: seq<CriterionResult>, missing: seq<string>, available: bool)
    ensures details == Details(m, gender, history)
    ensures count == CountMet(details)
    ensures missing == MissingData(details)
    ensures available == Assessed(details)
  {
    ghost var ds := Details(m, gender, history);
    count, details, missing, available := 0, [], [], false;
    count, details, missing := ObesityBlock(history, count, details, missing);
    count, details, missing, available := TgBlock(m.tg, count, details, missing, available);
    count, details, missing, available := HdlBlock(m.hdl, gender, count, details, missing, available);
    count, details, missing, available := BpBlock(m.sbp, "Hypertension" in history, count, details, missing, available);
    count, details, missing, available := GlucoseBlock(m.glucose, "Diabetes" in history, count, details, missing, available);
    assert details == ds;
    assert available == Assessed(details) by {
      if available {
        assert !ds[1].evidence.NotAvailable? || !ds[2].evidence.NotAvailable?
          || !ds[3].evidence.NotAvailable? || !ds[4].evidence.NotAvailable?;
      }
    }
  }

  /** The count and the missing data agree with the details so far. */
  predicate InStep(count: nat, details: seq<CriterionResult>, missing: seq<string>) {
    count == CountMet(details) && missing == MissingData(details)
  }

  /** What one criterion block does to the accumulators. */
  predicate Appended(d: CriterionResult, count: nat, details: seq<CriterionResult>, missing: seq<string>,
                     count': nat, details': seq<CriterionResult>, missing': seq<string>)
  {
    count' == count + (if d.met then 1 else 0) &&
    details' == details + [d] &&
    missing' == missing + When(d.evidence.NotAvailable?, MissingLabel(d.criterion))
  }

  method ObesityBlock(history: seq<string>, count: nat, details: seq<CriterionResult>, missing: seq<string>)
    returns (count': nat, details': seq<CriterionResult>, missing': seq<string>)
    requires InStep(count, details, missing)
    ensures Appended(ObesityResult(history), count, details, missing, count', details', missing')
    ensures InStep(count', details', missing')
  {
    count', details', missing' := count, details, missing;
    if "Diabetes" in history || "Hypertension" in history {
      count' := count' + 1;
      details' := details' + [CriterionResult(Obesity, true, FromHistory, ProxyPresent)];
    } else {
      details' := details' + [CriterionResult(Obesity, false, NotAvailable, WaistCutoff)];
      missing' := missing' + ["Waist circumference"];
    }
    AppendedKeeps(ObesityResult(history), count, details, missing, count', details', missing');
  }

  method TgBlock(tg: Option<real>, count: nat, details: seq<CriterionResult>, missing: seq<string>, available: bool)
    returns (count': nat, details': seq<CriterionResult>, missing': seq<string>, available': bool)
    requires InStep(count, details, missing)
    ensures Appended(TgResult(tg), count, details, missing, count', details', missing')
    ensures available' == (available || tg.Some?)
    ensures InStep(count', details', missing')
  {
    count', details', missing', available' := count, details, missing, available;
    if tg.Some? {
      available' := true;
      var met := tg.value >= 150.0;
      if met {
        count' := count' + 1;
      }
      details' := details' + [CriterionResult(Triglycerides, met, Measured(tg.value), TgCutoff)];
    } else {
      missing' := missing' + ["Triglycerides"];
      details' := details' + [CriterionResult(Triglycerides, false, NotAvailable, TgCutoff)];
    }
    AppendedKeeps(TgResult(tg), count, details, missing, count', details', missing');
  }

  method HdlBlock(hdl: Option<real>, gender: string, count: nat, details: seq<CriterionResult>, missing: seq<string>, available: bool)
    returns (count': nat, details': seq<CriterionResult>, missing': seq<string>, available': bool)
    requires InStep(count, details, missing)
    ensures Appended(HdlResult(hdl, gender), count, details, missing, count', details', missing')
    ensures available' == (available || hdl.Some?)
    ensures InStep(count', details', missing')
  {
    count', details', missing', available' := count, details, missing, available;
    if hdl.Some? {
      available' := true;
      var met, threshold;
      if gender == "male" {
        met, threshold := hdl.value < 40.0, HdlMale;
      } else {
        met, threshold := hdl.value < 50.0, HdlFemale;
      }
      if met {
        count' := count' + 1;
      }
      details' := details' + [CriterionResult(LowHdl, met, Measured(hdl.value), threshold)];
    } else {
      missing' := missing' + ["HDL Cholesterol"];
      details' := details' + [CriterionResult(LowHdl, false, NotAvailable, HdlEither)];
    }
    AppendedKeeps(HdlResult(hdl, gender), count, details, missing, count', details', missing');
  }

  method BpBlock(sbp: Option<real>, hypertension: bool, count: nat, details: seq<CriterionResult>, missing: seq<string>, available: bool)
    returns (count': nat, details': seq<CriterionResult>, missing': seq<string>, available': bool)
    requires InStep(count, details, missing)
    ensures Appended(BpResult(sbp, hypertension), count, details, missing, count', details', missing')
    ensures available' == (available || sbp.Some? || hypertension)
    ensures InStep(count', details', missing')
  {
    count', details', missing', available' := count, details, missing, available;
    if sbp.Some? {
      available' := true;
      var met := sbp.value >= 130.0 || hypertension;
      if met {
        count' := count' + 1;
      }
      details' := details' + [CriterionResult(BloodPressure, met, Measured(sbp.value), BpOrTreated)];
    } else if hypertension {
      available' := true;
      count' := count' + 1;
      details' := details' + [CriterionResult(BloodPressure, true, FromHistory, BpOrTreated)];
    } else {
      missing' := missing' + ["Blood Pressure"];
      details' := details' + [CriterionResult(BloodPressure, false, NotAvailable, BpCutoff)];
    }
    AppendedKeeps(BpResult(sbp, hypertension), count, details, missing, count', details', missing');
  }

  method GlucoseBlock(glucose: Option<real>, diabetes: bool, count: nat, details: seq<CriterionResult>, missing: seq<string>, available: bool)
    returns (count': nat, details': seq<CriterionResult>, missing': seq<string>, available': bool)
    requires InStep(count, details, missing)
    ensures Appended(GlucoseResult(glucose, diabetes), count, details, missing, count', details', missing')
    ensures available' == (available || glucose.Some? || diabetes)
    ensures InStep(count', details', missing')
  {
    count', details', missing', available' := count, details, missing, available;
    if glucose.Some? {
      available' := true;
      var met := glucose.value >= 100.0 || diabetes;
      if met {
        count' := count' + 1;
      }
      details' := details' + [CriterionResult(FastingGlucose, met, Measured(glucose.value), GlucoseOrTreated)];
    } else if diabetes {
      available' := true;
      count' := count' + 1;
      details' := details' + [CriterionResult(FastingGlucose, true, FromHistory, GlucoseOrTreated)];
    } else {
      missing' := missing' + ["Fasting Glucose"];
      details' := details' + [CriterionResult(FastingGlucose, false, NotAvailable, GlucoseCutoff)];
    }
    AppendedKeeps(GlucoseResult(glucose, diabetes), count, details, missing, count', details', missing');
  }

  lemma {:induction false} CountAppend(a: seq<CriterionResult>, b: seq<CriterionResult>)
    ensures CountMet(a + b) == CountMet(a) + CountMet(b)
    ensures MissingData(a + b) == MissingData(a) + MissingData(b)
  {
    if |a| == 0 {
      assert a + b == b;
    } else {
      assert (a + b)[1..] == a[1..] + b;
      CountAppend(a[1..], b);
    }
  }

  /** A criterion block keeps the count and the missing data in step with
      the details. */
  lemma AppendedKeeps(d: CriterionResult, count: nat, details: seq<CriterionResult>, missing: seq<string>,
                      count': nat, details': seq<CriterionResult>, missing': seq<string>)
    requires Appended(d, count, details, missing, count', details', missing')
    requires count == CountMet(details) && missing == MissingData(details)
    ensures count' == CountMet(details') && missing' == MissingData(details')
  {
    CountAppend(details, [d]);
    assert [d][1..] == [];
  }

  // Properties of the metabolic syndrome assessment

  lemma {:induction false} CountBound(ds: seq<CriterionResult>)
    ensures CountMet(ds) <= |ds|
  {
    if |ds| > 0 {
      CountBound(ds[1..]);
    }
  }

  /** Five criteria are always reported, in the source's order, and the
      count is the number of them that are met. */
  lemma MetShape(m: MetInputs, gender: string, history: seq<string>)
    ensures var r := MetabolicOf(m, gender, history);
      |r.details| == 5 && r.criteriaMet <= 5 &&
      r.details[0].criterion == Obesity && r.details[1].criterion == Triglycerides &&
      r.details[2].criterion == LowHdl && r.details[3].criterion == BloodPressure &&
      r.details[4].criterion == FastingGlucose &&
      (r.hasSyndrome <==> r.criteriaMet >= 3)
  {
    CountBound(Details(m, gender, history));
  }

  /** A hypertension history meets the pressure criterion and a diabetes
      history the glucose one, whatever the readings say. */
  lemma HistoryMeets(m: MetInputs, gender: string, history: seq<string>)
    ensures "Hypertension" in history ==> MetabolicOf(m, gender, history).details[3].met
    ensures "Diabetes" in history ==> MetabolicOf(m, gender, history).details[4].met
  {
  }

  /** The obesity proxy never stands alone: the history that meets it also
      meets the pressure or the glucose criterion, so it counts twice. */
  lemma ProxyCountsTwice(m: MetInputs, gender: string, history: seq<string>)
    requires MetabolicOf(m, gender, history).details[0].met
    ensures MetabolicOf(m, gender, history).criteriaMet >= 2
  {
    CountFive(Details(m, gender, history));
  }

  lemma CountFrom(ds: seq<CriterionResult>, i: nat)
    requires i < |ds|
    ensures CountMet(ds[i..]) == (if ds[i].met then 1 else 0) + CountMet(ds[i + 1..])
  {
    assert ds[i..][1..] == ds[i + 1..];
  }

  lemma CountFive(ds: seq<CriterionResult>)
    requires |ds| == 5
    ensures CountMet(ds) == (if ds[0].met then 1 else 0) + (if ds[1].met then 1 else 0)
      + (if ds[2].met then 1 else 0) + (if ds[3].met then 1 else 0) + (if ds[4].met then 1 else 0)
  {
    assert ds[0..] == ds;
    CountFrom(ds, 0);
    CountFrom(ds, 1);
    CountFrom(ds, 2);
    CountFrom(ds, 3);
    CountFrom(ds, 4);
  }

  /** A man's HDL is low below 40 mg/dL; anyone else's below 50. */
  lemma HdlThreshold(m: MetInputs, gender: string, history: seq<string>)
    requires m.hdl.Some?
    ensures MetabolicOf(m, gender, history).details[2].met <==>
      m.hdl.value < (if gender == "male" then 40.0 else 50.0)
  {
  }

  /** The HDL advice only knows the two genders: for any other gender the
      criterion can be met without the advice being given. */
  lemma HdlAdviceNeedsGender(m: MetInputs, gender: string, history: seq<string>)
    requires gender != "male" && gender != "female"
    ensures HdlRaiseAdvice !in MetabolicOf(m, gender, history).recommendations
  {
    var r := MetabolicOf(m, gender, history);
    if r.criteriaMet >= 2 {
      assert HdlRaiseAdvice !in LifestyleAdvice;
      assert HdlRaiseAdvice != TgAdvice && HdlRaiseAdvice != GlucoseAdvice;
    }
  }

  /** Advice is given exactly when at least two criteria are met, and then
      it opens with the six lifestyle measures. */
  lemma MetAdviceIff(m: MetInputs, gender: string, history: seq<string>)
    ensures var r := MetabolicOf(m, gender, history);
      (|r.recommendations| > 0 <==> r.criteriaMet >= 2) &&
      (r.criteriaMet >= 2 ==> r.recommendations[..6] == LifestyleAdvice)
  {
  }

  /** The assessment is available exactly when some reading was found or
      the history speaks to pressure or glucose. */
  lemma MetAvailable(m: MetInputs, gender: string, history: seq<string>)
    ensures MetabolicOf(m, gender, history).available <==>
      m.tg.Some? || m.hdl.Some? || m.sbp.Some? || m.glucose.Some? ||
      "Hypertension" in history || "Diabetes" in history
  {
    var ds := Details(m, gender, history);
    if m.tg.Some? || m.hdl.Some? || m.sbp.Some? || m.glucose.Some? ||
      "Hypertension" in history || "Diabetes" in history {
      assert !ds[1].evidence.NotAvailable? || !ds[2].evidence.NotAvailable?
        || !ds[3].evidence.NotAvailable? || !ds[4].evidence.NotAvailable?;
    }
  }

  /** The metabolic risk level never falls as more criteria are met. */
  lemma MetLevelMonotone(p: nat, q: nat)
    requires p <= q
    ensures LevelRank(MetLevel(p)) <= LevelRank(MetLevel(q))
  {
  }

  // ---------------------------------------------------------------------
  // All three together

  datatype AllRisks = AllRisks(lipidRatios: LipidResult, framingham: Framingham, metabolic: MetabolicSyndrome)

  /** `calculate_all_advanced_risks`: the three assessments of one report. */
  method CalculateAllAdvancedRisks(report: Dict<Entry>, p: Patient, log10: real -> real) returns (r: AllRisks)
    ensures r == AllRisks(LipidSpec(report, log10), FraminghamSpec(report, p), MetabolicSpec(report, p))
  {
    var lipids := CalculateLipidRatios(report, log10);
    var framingham := CalculateFramingham(report, p);
    var metabolic := DetectMetabolicSyndrome(report, p);
    r := AllRisks(lipids, framingham, metabolic);
  }
}
