/** The confidence aggregator (model2/pipeline/confidence.py): parameter
    presence, pattern strength and the top graph score combined with fixed
    weights, plus a threshold-driven explanation. */
module Confidence {
  import opened Common
  import opened Severity
  import opened PatternEngine
  import opened ProbableCauses

  /** Keys that are metadata rather than laboratory parameters. */
  const Ignored: set<string> := {"age", "gender", "patient_id", "filename", "report_date"}

  /** The number of non-metadata keys among the entries. */
  function Counted(params: Dict<Value>): (n: nat)
    ensures n <= |params|
  {
    if |params| == 0 then 0
    else Counted(params[..|params| - 1]) + (if params[|params| - 1].0 in Ignored then 0 else 1)
  }

  /** The number of non-metadata keys whose value is not None. */
  function Present(params: Dict<Value>): (n: nat)
    ensures n <= Counted(params)
  {
    if |params| == 0 then 0
    else
      var e := params[|params| - 1];
      Present(params[..|params| - 1]) + (if e.0 !in Ignored && !e.1.VNone? then 1 else 0)
  }

  /** The presence score: present / total, capped at 1 and rounded, 0 with
      no parameters. */
  function PresenceScore(params: Dict<Value>): real {
    var total := Counted(params);
    if total == 0 then 0.0 else Round(Min(1.0, Present(params) as real / total as real), 3)
  }

  /** `_parameter_presence_score`: the counting loop. */
  method ParameterPresenceScore(params: Dict<Value>) returns (score: real)
    ensures score == PresenceScore(params)
  {
    var total := 0;
    var present := 0;
    var i := 0;
    while i < |params|
      invariant 0 <= i <= |params|
      invariant total == Counted(params[..i]) && present == Present(params[..i])
    {
      var (k, v) := params[i];
      assert params[..i + 1][..i] == params[..i];
      if k !in Ignored {
        total := total + 1;
        if !v.VNone? {
          present := present + 1;
        }
      }
      i := i + 1;
    }
    assert params[..i] == params;
    if total == 0 {
      return 0.0;
    }
    score := Round(Min(1.0, present as real / total as real), 3);
  }

  /** A pattern's weight: 1 when its severity names a severe label, 0.5
      otherwise (patterns without a severity included). */
  function Weight(info: PatternInfo): real {
    if info.severity.Some? && Contains(Name(info.severity.value), "severe") then 1.0 else 0.5
  }

  /** The number of present patterns. */
  function PresentCount(ps: Patterns): (n: nat)
    ensures n <= |ps|
  {
    if |ps| == 0 then 0
    else PresentCount(ps[..|ps| - 1]) + (if ps[|ps| - 1].1.present then 1 else 0)
  }

  /** The summed weight of the present patterns. */
  function PresentWeight(ps: Patterns): real {
    if |ps| == 0 then 0.0
    else
      var info := ps[|ps| - 1].1;
      PresentWeight(ps[..|ps| - 1]) + (if info.present then Weight(info) else 0.0)
  }

  /** The pattern strength: the mean weight of the present patterns,
      capped at 1 and rounded; 0 when none is present. */
  function PatternScore(ps: Patterns): real {
    var count := PresentCount(ps);
    if count == 0 then 0.0 else Round(Min(1.0, PresentWeight(ps) / count as real), 3)
  }

  /** `_pattern_strength`: the weighting loop. */
  method PatternStrength(ps: Patterns) returns (score: real)
    ensures score == PatternScore(ps)
  {
    if |ps| == 0 {
      return 0.0;
    }
    var weight := 0.0;
    var count := 0;
    var i := 0;
    while i < |ps|
      invariant 0 <= i <= |ps|
      invariant count == PresentCount(ps[..i]) && weight == PresentWeight(ps[..i])
    {
      var info := ps[i].1;
      assert ps[..i + 1][..i] == ps[..i];
      if info.present {
        count := count + 1;
        if info.severity.Some? && Contains(Name(info.severity.value), "severe") {
          weight := weight + 1.0;
        } else {
          weight := weight + 0.5;
        }
      }
      i := i + 1;
    }
    assert ps[..i] == ps;
    if count == 0 {
      return 0.0;
    }
    score := Round(Min(1.0, weight / count as real), 3);
  }

  /** `_kg_top_score`: the first cause's score, 0 for no causes. */
  function KgTopScore(causes: seq<Cause>): (r: real)
    ensures |causes| == 0 ==> r == 0.0
    ensures |causes| > 0 ==> r == causes[0].score
  {
    if |causes| == 0 then 0.0 else causes[0].score
  }

  const FullConfidence := "High confidence due to complete and consistent laboratory evidence."
  const FewParameters := "several relevant laboratory parameters are missing, limiting diagnostic certainty"
  const WeakPatterns := "some detected patterns overlap or lack confirmatory markers"

  /** The missing-parameters caveat: the first six names, and "..." when
      there are more. */
  function MissingCaveat(missing: seq<string>): string {
    "missing parameters include: " + Join(Take(missing, 6), ", ") + (if |missing| > 6 then "..." else "")
  }

  /** The caveats, in order. */
  function Reasons(presence: real, pattern: real, missing: seq<string>): (rs: seq<string>)
    ensures |rs| == 0 <==> presence >= 0.5 && pattern >= 0.7 && |missing| == 0
    ensures |rs| <= 3
  {
    (if presence < 0.5 then [FewParameters] else [])
    + (if pattern < 0.7 then [WeakPatterns] else [])
    + (if |missing| > 0 then [MissingCaveat(missing)] else [])
  }

  /** `build_confidence_explanation(presence, pattern, missing_params)` */
  function Explanation(presence: real, pattern: real, missing: seq<string>): (r: string)
    ensures presence >= 0.5 && pattern >= 0.7 && |missing| == 0 ==> r == FullConfidence
    ensures !(presence >= 0.5 && pattern >= 0.7 && |missing| == 0) ==>
      r == "Moderate confidence because " + Join(Reasons(presence, pattern, missing), "; ") + "."
  {
    var reasons := Reasons(presence, pattern, missing);
    if |reasons| == 0 then FullConfidence
    else "Moderate confidence because " + Join(reasons, "; ") + "."
  }

  /** The confidence record: score, its three components, explanation. */
  datatype Result = Result(score: real, presence: real, pattern: real, kg: real, explanation: string)

  /** The weighted sum, fixed by the source. */
  function Combine(presence: real, pattern: real, kg: real): real {
    Round(0.4 * presence + 0.4 * pattern + 0.2 * kg, 3)
  }

  /** `compute_confidence(params, patterns, probable_causes, missing_params)` */
  method ComputeConfidence(params: Dict<Value>, ps: Patterns, causes: seq<Cause>, missing: seq<string>)
    returns (r: Result)
    ensures r.presence == PresenceScore(params) && r.pattern == PatternScore(ps) && r.kg == KgTopScore(causes)
    ensures r.score == Combine(r.presence, r.pattern, r.kg)
    ensures r.explanation == Explanation(r.presence, r.pattern, missing)
  {
    var presence := ParameterPresenceScore(params);
    var pattern := PatternStrength(ps);
    var kg := KgTopScore(causes);
    r := Result(Combine(presence, pattern, kg), presence, pattern, kg, Explanation(presence, pattern, missing));
  }

  // ---------------------------------------------------------------------
  // Properties

  /** The presence score is a fraction in [0, 1]. */
  lemma PresenceUnit(params: Dict<Value>)
    ensures 0.0 <= PresenceScore(params) <= 1.0
  {
    var total := Counted(params);
    if total > 0 {
      var x := Min(1.0, Present(params) as real / total as real);
      assert 0.0 <= x <= 1.0;
      RoundUnit(x, 3);
    }
  }

  lemma {:induction false} WeightBounds(ps: Patterns)
    ensures 0.5 * PresentCount(ps) as real <= PresentWeight(ps) <= PresentCount(ps) as real
  {
    if |ps| > 0 {
      WeightBounds(ps[..|ps| - 1]);
    }
  }

  lemma MeanBounds(w: real, c: real)
    requires c > 0.0 && 0.5 * c <= w <= c
    ensures 0.5 <= w / c <= 1.0
  {
  }

  /** The pattern strength is 0 with no present pattern and lies in
      [0.5, 1] otherwise. */
  lemma PatternBounds(ps: Patterns)
    ensures PresentCount(ps) == 0 ==> PatternScore(ps) == 0.0
    ensures PresentCount(ps) > 0 ==> 0.5 <= PatternScore(ps) <= 1.0
  {
    var count := PresentCount(ps);
    if count > 0 {
      WeightBounds(ps);
      MeanBounds(PresentWeight(ps), count as real);
      var x := Min(1.0, PresentWeight(ps) / count as real);
      RoundFixed();
      RoundMonotone(0.5, x, 3);
      RoundMonotone(x, 1.0, 3);
    }
  }

  /** A graph score in [0, 1] gives a confidence score in [0, 1]. */
  lemma ScoreUnit(params: Dict<Value>, ps: Patterns, causes: seq<Cause>)
    requires 0.0 <= KgTopScore(causes) <= 1.0
    ensures 0.0 <= Combine(PresenceScore(params), PatternScore(ps), KgTopScore(causes)) <= 1.0
  {
    PresenceUnit(params);
    PatternBounds(ps);
    var x := 0.4 * PresenceScore(params) + 0.4 * PatternScore(ps) + 0.2 * KgTopScore(causes);
    assert 0.0 <= x <= 1.0;
    RoundUnit(x, 3);
  }

  /** No parameters, no present pattern and no cause give a score of 0. */
  lemma EmptyScoresZero(ps: Patterns)
    requires PresentCount(ps) == 0
    ensures Combine(PresenceScore([]), PatternScore(ps), KgTopScore([])) == 0.0
  {
    RoundFixed();
  }
}
