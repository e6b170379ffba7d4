/** The contextual insights of `sakshi/model3_context.py`: each detected
    pattern name is matched, without regard to case, against five rules in
    a fixed order, and the first rule that matches contributes one
    sentence. */
module SakshiContext {
  import opened Common

  const AnemiaFemale := "Low hemoglobin may indicate iron deficiency, which is more common in females"
  const AnemiaOther := "Low hemoglobin may suggest mild anemia; dietary iron intake should be reviewed"
  const ElevatedPcv := "Elevated PCV may be associated with dehydration or reduced plasma volume"
  const BorderlinePlatelet := "Borderline platelet count may be transient; monitoring and repeat testing can be considered"

  predicate NeutrophiliaRule(low: string) { Contains(low, "neutrophilia") }
  predicate AnemiaRule(low: string) { Contains(low, "low hemoglobin") || Contains(low, "anemia") }
  predicate PcvRule(low: string) { Contains(low, "high pcv") }
  predicate PlateletRule(low: string) { Contains(low, "borderline platelet") }
  predicate MchcRule(low: string) { Contains(low, "high mchc") }

  /** Some rule matches the lower-cased pattern name. */
  predicate Matched(p: string) {
    var low := Lower(p);
    NeutrophiliaRule(low) || AnemiaRule(low) || PcvRule(low) || PlateletRule(low) || MchcRule(low)
  }

  /** The neutrophilia sentence, which names the age as formatted and the
      lower-cased gender. */
  function StressInsight(age: Value, gender: string, show: Value -> string): string {
    "Suggests possible infection or stress response in a " + Str(age, show) + "-year-old " + Lower(gender)
  }

  /** The MCHC sentence, which names the lower-cased gender. */
  function MchcInsight(gender: string): string {
    "Elevated MCHC in " + Lower(gender) + " patients may indicate dehydration or RBC membrane disorders"
  }

  /** The one sentence the first matching rule gives for pattern `p`, if
      any rule matches. */
  function Insight(p: string, age: Value, gender: string, show: Value -> string): Option<string> {
    var low := Lower(p);
    if NeutrophiliaRule(low) then Some(StressInsight(age, gender, show))
    else if AnemiaRule(low) then Some(if Lower(gender) == "female" then AnemiaFemale else AnemiaOther)
    else if PcvRule(low) then Some(ElevatedPcv)
    else if PlateletRule(low) then Some(BorderlinePlatelet)
    else if MchcRule(low) then Some(MchcInsight(gender))
    else None
  }

  /** The sentences for a list of patterns, in pattern order. */
  function Insights(ps: seq<string>, age: Value, gender: string, show: Value -> string): seq<string>
    decreases |ps|
  {
    if |ps| == 0 then []
    else
      var last := Insight(ps[|ps| - 1], age, gender, show);
      Insights(ps[..|ps| - 1], age, gender, show) + (if last.Some? then [last.value] else [])
  }

  /** `contextualize_patterns(patterns, age, gender)`; `show` formats the
      age the way an f-string does. */
  method ContextualizePatterns(patterns: seq<string>, age: Value, gender: string, show: Value -> string)
    returns (insights: seq<string>)
    ensures insights == Insights(patterns, age, gender, show)
  {
    insights := [];
    var i := 0;
    while i < |patterns|
      invariant 0 <= i <= |patterns|
      invariant insights == Insights(patterns[..i], age, gender, show)
    {
      assert patterns[..i + 1][..i] == patterns[..i];
      var low := Lower(patterns[i]);
      if NeutrophiliaRule(low) {
        insights := insights + [StressInsight(age, gender, show)];
      } else if AnemiaRule(low) {
        if Lower(gender) == "female" {
          insights := insights + [AnemiaFemale];
        } else {
          insights := insights + [AnemiaOther];
        }
      } else if PcvRule(low) {
        insights := insights + [ElevatedPcv];
      } else if PlateletRule(low) {
        insights := insights + [BorderlinePlatelet];
      } else if MchcRule(low) {
        insights := insights + [MchcInsight(gender)];
      }
      i := i + 1;
    }
    assert patterns[..|patterns|] == patterns;
  }

  /** A pattern gives a sentence exactly when some rule matches it. */
  lemma InsightIff(p: string, age: Value, gender: string, show: Value -> string)
    ensures Insight(p, age, gender, show).Some? <==> Matched(p)
  {
  }

  /** The sentences are exactly those of the matched patterns, one each, in
      input order: unmatched patterns add nothing, so there are never more
      sentences than patterns. */
  lemma {:induction false} InsightsFilter(ps: seq<string>, age: Value, gender: string, show: Value -> string)
    ensures |Insights(ps, age, gender, show)| == |Filter(ps, Matched)| <= |ps|
    ensures forall j :: 0 <= j < |Filter(ps, Matched)| ==>
      Some(Insights(ps, age, gender, show)[j]) == Insight(Filter(ps, Matched)[j], age, gender, show)
  {
    if |ps| > 0 {
      var init := ps[..|ps| - 1];
      var last := ps[|ps| - 1];
      InsightsFilter(init, age, gender, show);
      InsightIff(last, age, gender, show);
      var r := Insight(last, age, gender, show);
      assert Insights(ps, age, gender, show)
        == Insights(init, age, gender, show) + (if r.Some? then [r.value] else []);
      assert Filter(ps, Matched) == Filter(init, Matched) + When(Matched(last), last);
    }
  }

  /** Running the rules over two lists one after the other is running them
      over the joined list. */
  lemma {:induction false} InsightsAppend(ps: seq<string>, qs: seq<string>, age: Value, gender: string,
                                          show: Value -> string)
    ensures Insights(ps + qs, age, gender, show) == Insights(ps, age, gender, show) + Insights(qs, age, gender, show)
    decreases |qs|
  {
    if |qs| == 0 {
      assert ps + qs == ps;
    } else {
      var init := qs[..|qs| - 1];
      var r := Insight(qs[|qs| - 1], age, gender, show);
      var tail := if r.Some? then [r.value] else [];
      assert (ps + qs)[..|ps + qs| - 1] == ps + init;
      assert (ps + qs)[|ps + qs| - 1] == qs[|qs| - 1];
      assert Insights(ps + qs, age, gender, show) == Insights(ps + init, age, gender, show) + tail;
      InsightsAppend(ps, init, age, gender, show);
    }
  }

  lemma LowerTwice(s: string)
    ensures Lower(Lower(s)) == Lower(s)
  {
  }

  /** The rules ignore the case of the pattern name. */
  lemma InsightIgnoresCase(p: string, age: Value, gender: string, show: Value -> string)
    ensures Insight(Lower(p), age, gender, show) == Insight(p, age, gender, show)
  {
    LowerTwice(p);
  }

  /** The rules ignore the case of the gender too. */
  lemma InsightIgnoresGenderCase(p: string, age: Value, gender: string, show: Value -> string)
    ensures Insight(p, age, Lower(gender), show) == Insight(p, age, gender, show)
  {
    LowerTwice(gender);
  }

  /** The anemia sentence depends only on whether the gender lower-cases to
      "female", and names neither the age nor the gender. */
  lemma AnemiaWording(p: string, age1: Value, age2: Value, g1: string, g2: string, show: Value -> string)
    requires !NeutrophiliaRule(Lower(p)) && AnemiaRule(Lower(p))
    ensures Insight(p, age1, g1, show) == Some(if Lower(g1) == "female" then AnemiaFemale else AnemiaOther)
    ensures (Lower(g1) == "female" <==> Lower(g2) == "female") ==>
      Insight(p, age1, g1, show) == Insight(p, age2, g2, show)
    ensures AnemiaFemale != AnemiaOther
  {
  }

  /** The neutrophilia sentence ends with the age, as formatted, and the
      lower-cased gender. */
  lemma StressContext(p: string, age: Value, gender: string, show: Value -> string)
    requires NeutrophiliaRule(Lower(p))
    ensures EndsWith(Insight(p, age, gender, show).value, Str(age, show) + "-year-old " + Lower(gender))
  {
    var s := StressInsight(age, gender, show);
    var tail := Str(age, show) + "-year-old " + Lower(gender);
    assert s == "Suggests possible infection or stress response in a " + tail;
    assert s[|s| - |tail|..] == tail;
  }

  /** The MCHC sentence, given when no earlier rule matches, opens by naming
      the lower-cased gender. */
  lemma MchcContext(p: string, age: Value, gender: string, show: Value -> string)
    requires MchcRule(Lower(p)) && !NeutrophiliaRule(Lower(p)) && !AnemiaRule(Lower(p))
    requires !PcvRule(Lower(p)) && !PlateletRule(Lower(p))
    ensures StartsWith(Insight(p, age, gender, show).value, "Elevated MCHC in " + Lower(gender))
  {
    var m := MchcInsight(gender);
    var head := "Elevated MCHC in " + Lower(gender);
    assert m[..|head|] == head;
  }
}
