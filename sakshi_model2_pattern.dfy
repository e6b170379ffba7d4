/** The threshold messages of `sakshi/model2_pattern.py`: one message per
    present CBC reading in its band, a differential message when both
    counts are present, and a short list of named patterns. */
module SakshiModel2Pattern {
  import opened Common

  const LowHb := "Low hemoglobin - possible anemia"
  const HighHb := "High hemoglobin - possible dehydration or polycythemia"
  const NormalHb := "Hemoglobin within normal range"
  const LowWbc := "Low WBC count - possible immunosuppression"
  const HighWbc := "High WBC count - possible infection or inflammation"
  const NormalWbc := "WBC count within normal range"
  const LowPlatelets := "Low platelet count - bleeding risk"
  const HighPlatelets := "High platelet count - thrombosis risk"
  const NormalPlatelets := "Platelet count within normal range"
  const NeutrophiliaLymphopenia := "Neutrophilia with lymphopenia - possible infection or stress response"
  const NeutropeniaLymphocytosis := "Neutropenia with lymphocytosis - possible viral infection"
  const HighMchc := "High MCHC - possible dehydration or RBC membrane disorder"
  const LowMchc := "Low MCHC - possible iron deficiency or thalassemia"
  const NormalMchc := "MCHC within normal range"
  const AllNormal := "All parameters appear within normal ranges"

  /** A three-way check on an optional reading, the low bound tested
      first: below `low`, above `high`, or in between; nothing when the
      reading is absent. */
  function Banded(v: Option<real>, low: real, high: real, lowMsg: string, highMsg: string, okMsg: string): (r: seq<string>)
    requires low <= high
    requires lowMsg != highMsg && lowMsg != okMsg && highMsg != okMsg
    ensures v.None? ==> r == []
    ensures v.Some? ==>
      && |r| == 1
      && (r[0] == lowMsg <==> v.value < low)
      && (r[0] == highMsg <==> v.value > high)
      && (r[0] == okMsg <==> low <= v.value <= high)
  {
    match v
    case None => []
    case Some(x) => [if x < low then lowMsg else if x > high then highMsg else okMsg]
  }

  /** The MCHC check, which tests the high bound first. */
  function MchcBand(v: Option<real>): (r: seq<string>)
    ensures v.None? ==> r == []
    ensures v.Some? ==>
      && |r| == 1
      && (r[0] == HighMchc <==> v.value > 35.0)
      && (r[0] == LowMchc <==> v.value < 32.0)
      && (r[0] == NormalMchc <==> 32.0 <= v.value <= 35.0)
  {
    match v
    case None => []
    case Some(x) => [if x > 35.0 then HighMchc else if x < 32.0 then LowMchc else NormalMchc]
  }

  /** The differential check: it needs both counts. */
  function Differential(neut: Option<real>, lymph: Option<real>): (r: seq<string>)
    ensures |r| <= 1
    ensures r == [NeutrophiliaLymphopenia] <==>
      neut.Some? && lymph.Some? && neut.value > 75.0 && lymph.value < 20.0
    ensures r == [NeutropeniaLymphocytosis] <==>
      neut.Some? && lymph.Some? && !(neut.value > 75.0 && lymph.value < 20.0)
      && neut.value < 50.0 && lymph.value > 40.0
  {
    if neut.Some? && lymph.Some? then
      if neut.value > 75.0 && lymph.value < 20.0 then [NeutrophiliaLymphopenia]
      else if neut.value < 50.0 && lymph.value > 40.0 then [NeutropeniaLymphocytosis]
      else []
    else []
  }

  /** The messages before the fallback, in the order the checks run. */
  function Findings(data: Dict<real>): seq<string> {
    Banded(Get(data, "Hemoglobin"), 12.0, 16.0, LowHb, HighHb, NormalHb)
      + Banded(Get(data, "WBC"), 4000.0, 11000.0, LowWbc, HighWbc, NormalWbc)
      + Banded(Get(data, "Platelets"), 150000.0, 450000.0, LowPlatelets, HighPlatelets, NormalPlatelets)
      + Differential(Get(data, "Neutrophils"), Get(data, "Lymphocytes"))
      + MchcBand(Get(data, "MCHC"))
  }

  /** `pattern_risk_analysis(data)` */
  function PatternRiskAnalysis(data: Dict<real>): (r: seq<string>)
    ensures |r| > 0
  {
    var found := Findings(data);
    if found == [] then [AllNormal] else found
  }

  /** The fallback message is the whole answer exactly when no reading is
      present and the differential does not fire; otherwise each present
      banded reading contributes exactly one message. */
  lemma RiskAnalysisShape(data: Dict<real>)
    ensures PatternRiskAnalysis(data) == [AllNormal] <==>
      && !HasKey(data, "Hemoglobin") && !HasKey(data, "WBC") && !HasKey(data, "Platelets")
      && !HasKey(data, "MCHC")
      && Differential(Get(data, "Neutrophils"), Get(data, "Lymphocytes")) == []
    ensures |PatternRiskAnalysis(data)| ==
      if Findings(data) == [] then 1
      else
        (if HasKey(data, "Hemoglobin") then 1 else 0) + (if HasKey(data, "WBC") then 1 else 0)
        + (if HasKey(data, "Platelets") then 1 else 0) + (if HasKey(data, "MCHC") then 1 else 0)
        + |Differential(Get(data, "Neutrophils"), Get(data, "Lymphocytes"))|
  {
    var hb := Banded(Get(data, "Hemoglobin"), 12.0, 16.0, LowHb, HighHb, NormalHb);
    var wbc := Banded(Get(data, "WBC"), 4000.0, 11000.0, LowWbc, HighWbc, NormalWbc);
    var plt := Banded(Get(data, "Platelets"), 150000.0, 450000.0, LowPlatelets, HighPlatelets, NormalPlatelets);
    var diff := Differential(Get(data, "Neutrophils"), Get(data, "Lymphocytes"));
    var mchc := MchcBand(Get(data, "MCHC"));
    var found := hb + wbc + plt + diff + mchc;
    assert Findings(data) == found;
    assert AllNormal !in hb && AllNormal !in wbc && AllNormal !in plt;
    assert AllNormal !in diff && AllNormal !in mchc;
    assert AllNormal !in found;
  }

  /** The hemoglobin message names the band the reading is in. */
  lemma HemoglobinMessage(data: Dict<real>)
    requires HasKey(data, "Hemoglobin")
    ensures var hb := Get(data, "Hemoglobin").value;
      var m := PatternRiskAnalysis(data)[0];
      && (m == LowHb <==> hb < 12.0)
      && (m == HighHb <==> hb > 16.0)
      && (m == NormalHb <==> 12.0 <= hb <= 16.0)
  {
    var found := Findings(data);
    assert found[0] == Banded(Get(data, "Hemoglobin"), 12.0, 16.0, LowHb, HighHb, NormalHb)[0];
  }

  // ---------------------------------------------------------------------
  // detect_patterns

  const LowHbPattern := "Low hemoglobin (possible mild anemia)"
  const HighPcvPattern := "High PCV (possible dehydration or hemoconcentration)"
  const BorderlinePlatelets := "Borderline platelet count"

  /** `detect_patterns(data)`: a missing hemoglobin reads as 100, missing
      PCV and platelets as 0. */
  function DetectPatterns(data: Dict<real>): (r: seq<string>)
    ensures |r| <= 3
  {
    When(GetOr(data, "Hemoglobin", 100.0) < 13.0, LowHbPattern)
      + When(GetOr(data, "PCV", 0.0) > 50.0, HighPcvPattern)
      + When(150000.0 <= GetOr(data, "Platelets", 0.0) <= 180000.0, BorderlinePlatelets)
  }

  /** Each pattern is reported exactly when its reading is present and in
      range; the platelet range includes both ends. */
  lemma DetectPatternsIff(data: Dict<real>)
    ensures LowHbPattern in DetectPatterns(data) <==>
      HasKey(data, "Hemoglobin") && Get(data, "Hemoglobin").value < 13.0
    ensures HighPcvPattern in DetectPatterns(data) <==>
      HasKey(data, "PCV") && Get(data, "PCV").value > 50.0
    ensures BorderlinePlatelets in DetectPatterns(data) <==>
      HasKey(data, "Platelets") && 150000.0 <= Get(data, "Platelets").value <= 180000.0
  {
    var a := When(GetOr(data, "Hemoglobin", 100.0) < 13.0, LowHbPattern);
    var b := When(GetOr(data, "PCV", 0.0) > 50.0, HighPcvPattern);
    var c := When(150000.0 <= GetOr(data, "Platelets", 0.0) <= 180000.0, BorderlinePlatelets);
    assert DetectPatterns(data) == a + b + c;
    assert LowHbPattern != HighPcvPattern && LowHbPattern != BorderlinePlatelets;
    assert HighPcvPattern != BorderlinePlatelets;
  }
}
