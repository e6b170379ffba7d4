/** The recommendation node (nodes/recommendations.py): a fixed rule table
    from pattern names to advice lines, with two default lines when no rule
    applies. */
module NodesRecommendations {
  import opened NodesPatterns

  const AnemiaAdvice: seq<string> := [
    "Consult a physician for further evaluation of anemia.",
    "Additional blood tests such as iron studies or vitamin levels may be required if advised by a doctor."]

  const InfectionAdvice: string := "Clinical correlation is advised to rule out infection or inflammation."

  const BleedingAdvice: string := "Avoid activities with bleeding risk and consult a healthcare professional promptly."

  const DefaultAdvice: seq<string> := [
    "Maintain a balanced diet, adequate hydration, and routine health checkups.",
    "Seek medical advice if symptoms such as fatigue, fever, or weakness develop."]

  /** The three rules, each on the pattern names it looks for. */
  predicate SizedAnemia(patterns: seq<string>) {
    "Microcytic anemia" in patterns || "Normocytic anemia" in patterns || "Macrocytic anemia" in patterns
  }

  predicate Inflammatory(patterns: seq<string>) {
    "Leukocytosis" in patterns || "Neutrophilia" in patterns
  }

  predicate LowPlatelets(patterns: seq<string>) {
    "Thrombocytopenia" in patterns
  }

  /** The advice lines of the rules that fire, in rule order. */
  function RuleAdvice(patterns: seq<string>): seq<string> {
    (if SizedAnemia(patterns) then AnemiaAdvice else [])
    + (if Inflammatory(patterns) then [InfectionAdvice] else [])
    + (if LowPlatelets(patterns) then [BleedingAdvice] else [])
  }

  /** `recommendations_node(state)` */
  function Recommendations(patterns: seq<string>): (r: seq<string>)
    ensures |r| > 0
    ensures forall i :: 0 <= i < |r| ==>
      r[i] in AnemiaAdvice || r[i] == InfectionAdvice || r[i] == BleedingAdvice || r[i] in DefaultAdvice
  {
    var advice := RuleAdvice(patterns);
    if |advice| == 0 then DefaultAdvice else advice
  }

  // ---------------------------------------------------------------------
  // Properties

  /** The list is never empty, and it is the default pair exactly when no
      rule fired. */
  lemma DefaultsIffNoRule(patterns: seq<string>)
    ensures |Recommendations(patterns)| > 0
    ensures Recommendations(patterns) == DefaultAdvice <==>
      !SizedAnemia(patterns) && !Inflammatory(patterns) && !LowPlatelets(patterns)
  {
    var advice := RuleAdvice(patterns);
    if |advice| > 0 {
      assert advice[0] in AnemiaAdvice || advice[0] == InfectionAdvice || advice[0] == BleedingAdvice;
      assert advice[0] != DefaultAdvice[0];
    }
  }

  /** Each rule contributes its lines exactly when it fires: the anemia
      pair, one inflammation line, one bleeding line. */
  lemma AdviceCounted(patterns: seq<string>)
    ensures |RuleAdvice(patterns)| ==
      (if SizedAnemia(patterns) then 2 else 0) + (if Inflammatory(patterns) then 1 else 0)
      + (if LowPlatelets(patterns) then 1 else 0)
    ensures InfectionAdvice in Recommendations(patterns) <==> Inflammatory(patterns)
    ensures BleedingAdvice in Recommendations(patterns) <==> LowPlatelets(patterns)
  {
    DefaultsIffNoRule(patterns);
    assert InfectionAdvice !in AnemiaAdvice && InfectionAdvice != BleedingAdvice;
    assert BleedingAdvice !in AnemiaAdvice;
    assert InfectionAdvice !in DefaultAdvice && BleedingAdvice !in DefaultAdvice;
  }

  /** Plain "Anemia" (low hemoglobin with MCV missing) is not one of the
      sized names, so on its own it gets only the default lines. */
  lemma PlainAnemiaDefaults()
    ensures Recommendations(["Anemia"]) == DefaultAdvice
  {
    assert !SizedAnemia(["Anemia"]);
    assert !Inflammatory(["Anemia"]);
    assert !LowPlatelets(["Anemia"]);
  }

  /** Downstream of the CBC pattern node: the anemia advice is given
      exactly when hemoglobin is below 12 and MCV is known. */
  lemma AnemiaAdviceFromReadings(r: Readings)
    ensures var patterns := Report(Findings(r)).patterns;
      SizedAnemia(patterns) <==> r.hb.Some? && r.hb.value < 12.0 && r.mcv.Some?
  {
    var fs := Findings(r);
    AnemiaSized(r);
    NamedIffFired(fs, MicrocyticAnemia);
    NamedIffFired(fs, NormocyticAnemia);
    NamedIffFired(fs, MacrocyticAnemia);
  }
}
