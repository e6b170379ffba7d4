/** The findings synthesis and the recommendation list of
    `sakshi/milestone3_synthesis.py`. */
module SakshiSynthesis {
  import opened Common

  // ---------------------------------------------------------------------
  // synthesize_findings

  /** One entry of the model-1 output: its status (a missing status is
      given as "") and its value. */
  datatype Info = Info(status: string, value: Value)

  /** The status as compared and printed: lower-cased. */
  function StatusOf(info: Info): string {
    Lower(info.status)
  }

  predicate Abnormal(e: (string, Info)) {
    StatusOf(e.1) != "normal"
  }

  /** `f"{param} is {status} with a value of {value}."` */
  function Point(e: (string, Info), show: Value -> string): string {
    e.0 + " is " + StatusOf(e.1) + " with a value of " + Str(e.1.value, show) + "."
  }

  /** The sentences of the parameter loop, in input order. */
  function ParamPoints(d: Dict<Info>, show: Value -> string): seq<string>
    decreases |d|
  {
    if |d| == 0 then []
    else ParamPoints(d[..|d| - 1], show) + When(Abnormal(d[|d| - 1]), Point(d[|d| - 1], show))
  }

  /** The j-th parameter sentence describes the j-th entry whose status is
      not "normal": exactly those entries, in input order. */
  lemma {:induction false} ParamPointsFilter(d: Dict<Info>, show: Value -> string)
    ensures |ParamPoints(d, show)| == |Filter(d, Abnormal)|
    ensures forall j :: 0 <= j < |ParamPoints(d, show)| ==>
      ParamPoints(d, show)[j] == Point(Filter(d, Abnormal)[j], show)
  {
    if |d| > 0 {
      var init := d[..|d| - 1];
      var last := d[|d| - 1];
      ParamPointsFilter(init, show);
      var p := ParamPoints(init, show);
      var f := Filter(init, Abnormal);
      assert ParamPoints(d, show) == p + When(Abnormal(last), Point(last, show));
      assert Filter(d, Abnormal) == f + When(Abnormal(last), last);
    }
  }

  const PatternsLead := "Identified clinical patterns include: "
  const AllWithinLimits := "All analyzed blood parameters appear to be within normal limits."

  /** The summary points: parameter sentences, one pattern sentence when
      there are patterns, the contextual insights; the default sentence
      when nothing was collected. */
  function Points(d: Dict<Info>, patterns: seq<string>, contextual: seq<string>, show: Value -> string): seq<string> {
    var collected := ParamPoints(d, show)
      + When(|patterns| > 0, PatternsLead + Join(patterns, ", ") + ".") + contextual;
    if collected == [] then [AllWithinLimits] else collected
  }

  /** The default sentence stands alone exactly when there is nothing to
      say; otherwise each parameter sentence, the pattern sentence and each
      insight appear once, insights verbatim at the end. */
  lemma PointsShape(d: Dict<Info>, patterns: seq<string>, contextual: seq<string>, show: Value -> string)
    ensures ParamPoints(d, show) == [] && patterns == [] && contextual == [] ==>
      Points(d, patterns, contextual, show) == [AllWithinLimits]
    ensures ParamPoints(d, show) != [] || patterns != [] || contextual != [] ==>
      var r := Points(d, patterns, contextual, show);
      && |r| == |ParamPoints(d, show)| + (if patterns != [] then 1 else 0) + |contextual|
      && r[..|ParamPoints(d, show)|] == ParamPoints(d, show)
      && r[|r| - |contextual|..] == contextual
  {
    var p := ParamPoints(d, show);
    var mid := When(|patterns| > 0, PatternsLead + Join(patterns, ", ") + ".");
    var collected := p + mid + contextual;
    if p != [] || patterns != [] || contextual != [] {
      assert |collected| > 0;
      assert collected[..|p|] == p;
      assert collected[|collected| - |contextual|..] == contextual;
    }
  }

  /** `synthesize_findings(model1_output, milestone2_output)`, given the
      model-1 entries and the `identified_patterns` and
      `contextual_insights` lists (each [] when missing). */
  method SynthesizeFindings(model1: Dict<Info>, patterns: seq<string>, contextual: seq<string>,
                            show: Value -> string) returns (summary: string)
    ensures summary == Join(Points(model1, patterns, contextual, show), " ")
  {
    var points: seq<string> := [];
    var i := 0;
    while i < |model1|
      invariant 0 <= i <= |model1|
      invariant points == ParamPoints(model1[..i], show)
    {
      assert model1[..i + 1][..i] == model1[..i];
      if StatusOf(model1[i].1) != "normal" {
        points := points + [Point(model1[i], show)];
      }
      i := i + 1;
    }
    assert model1[..|model1|] == model1;
    if |patterns| > 0 {
      points := points + [PatternsLead + Join(patterns, ", ") + "."];
    }
    var j := 0;
    ghost var before := points;
    while j < |contextual|
      invariant 0 <= j <= |contextual|
      invariant points == before + contextual[..j]
    {
      points := points + [contextual[j]];
      assert contextual[..j + 1] == contextual[..j] + [contextual[j]];
      j := j + 1;
    }
    assert contextual[..|contextual|] == contextual;
    if |points| == 0 {
      points := [AllWithinLimits];
    }
    summary := Join(points, " ");
  }

  // ---------------------------------------------------------------------
  // generate_recommendations

  const AnemiaAdvice: seq<string> := [
    "Include iron-rich foods such as leafy greens, lentils, and dates.",
    "Avoid skipping meals and maintain a balanced diet.",
    "Consult a healthcare professional if fatigue or weakness persists."
  ]
  const PlateletAdvice: seq<string> := [
    "Stay well hydrated throughout the day.",
    "Avoid smoking and excessive alcohol consumption.",
    "Follow up with a doctor if unusual bruising or clotting occurs."
  ]
  const InfectionAdvice: seq<string> := [
    "Ensure adequate rest and hydration.",
    "Monitor for fever or signs of infection.",
    "Seek medical advice if symptoms worsen."
  ]
  const AgeAdvice := "Regular health check-ups are recommended due to increased age-related risks."
  const FemaleAdvice := "Ensure adequate iron and calcium intake as nutritional needs may be higher."
  const Fallback := "Maintain a healthy lifestyle with a balanced diet and regular physical activity."

  predicate AnemiaCue(low: string) { Contains(low, "hemoglobin") || Contains(low, "anemia") }
  predicate PlateletCue(low: string) { Contains(low, "platelet") }
  predicate InfectionCue(low: string) { Contains(low, "wbc") || Contains(low, "infection") }
  predicate OlderAge(age: Option<real>) { age.Some? && age.value > 45.0 }
  predicate Female(gender: Option<string>) { gender.Some? && Lower(gender.value) == "female" }

  /** The advice groups that fire, in the order the checks run. */
  function Triggered(anemia: bool, platelet: bool, infection: bool, older: bool, female: bool): seq<string> {
    (if anemia then AnemiaAdvice else [])
      + (if platelet then PlateletAdvice else [])
      + (if infection then InfectionAdvice else [])
      + When(older, AgeAdvice)
      + When(female, FemaleAdvice)
  }

  /** The advice lines before de-duplication. */
  function RawAdvice(summary: string, age: Option<real>, gender: Option<string>): seq<string> {
    var low := Lower(summary);
    Triggered(AnemiaCue(low), PlateletCue(low), InfectionCue(low), OlderAge(age), Female(gender))
  }

  /** `generate_recommendations(summary_text, age, gender)` */
  function Recommendations(summary: string, age: Option<real>, gender: Option<string>): (r: seq<string>)
    ensures |r| > 0
    ensures forall i, j :: 0 <= i < j < |r| ==> r[i] != r[j]
  {
    var raw := RawAdvice(summary, age, gender);
    var r := Dedupe(if raw == [] then [Fallback] else raw);
    assert (if raw == [] then [Fallback] else raw)[0] in r;
    r
  }

  /** De-duplicating a list without repeats changes nothing. */
  lemma {:induction false} DedupeDistinct<T(!new)>(xs: seq<T>, seen: seq<T>)
    requires Distinct(seen) && Distinct(xs)
    requires forall x :: x in xs ==> x !in seen
    ensures DedupeFrom(xs, seen) == seen + xs
    decreases |xs|
  {
    if |xs| > 0 {
      assert xs[0] in xs;
      var next := seen + [xs[0]];
      SnocDistinct(seen, xs[0]);
      TailDistinct(xs);
      TailFresh(xs, seen);
      DedupeStep(xs, seen);
      DedupeDistinct(xs[1..], next);
      ConsTail(xs, seen);
    }
  }

  /** A first line not seen yet is kept and marked as seen. */
  lemma DedupeStep<T(!new)>(xs: seq<T>, seen: seq<T>)
    requires |xs| > 0 && Distinct(seen) && xs[0] !in seen
    ensures DedupeFrom(xs, seen) == DedupeFrom(xs[1..], seen + [xs[0]])
  {
  }

  lemma ConsTail<T>(xs: seq<T>, seen: seq<T>)
    requires |xs| > 0
    ensures seen + [xs[0]] + xs[1..] == seen + xs
  {
    assert xs == [xs[0]] + xs[1..];
  }

  lemma SnocDistinct<T>(seen: seq<T>, x: T)
    requires Distinct(seen) && x !in seen
    ensures Distinct(seen + [x])
  {
    var next := seen + [x];
    forall i, j | 0 <= i < j < |next|
      ensures next[i] != next[j]
    {
      if j == |seen| {
        assert next[i] in seen;
      }
    }
  }

  lemma TailDistinct<T>(xs: seq<T>)
    requires |xs| > 0 && Distinct(xs)
    ensures Distinct(xs[1..])
  {
    forall i, j | 0 <= i < j < |xs[1..]|
      ensures xs[1..][i] != xs[1..][j]
    {
      assert xs[1..][i] == xs[i + 1] && xs[1..][j] == xs[j + 1];
    }
  }

  /** The rest of a list without repeats, none of it seen, is still unseen
      after its first line is added. */
  lemma TailFresh<T>(xs: seq<T>, seen: seq<T>)
    requires |xs| > 0 && Distinct(xs)
    requires forall x :: x in xs ==> x !in seen
    ensures forall x :: x in xs[1..] ==> x !in seen + [xs[0]]
  {
    forall x | x in xs[1..]
      ensures x !in seen + [xs[0]]
    {
      var k :| 0 <= k < |xs[1..]| && xs[1..][k] == x;
      assert xs[k + 1] == x;
    }
  }

  predicate Distinct<T(==)>(xs: seq<T>) {
    forall i, j :: 0 <= i < j < |xs| ==> xs[i] != xs[j]
  }

  /** Two lists without repeats and without a common line join into a list
      without repeats. */
  lemma DistinctConcat<T>(a: seq<T>, b: seq<T>)
    requires Distinct(a) && Distinct(b)
    requires forall x :: x in a ==> x !in b
    ensures Distinct(a + b)
  {
    forall i, j | 0 <= i < j < |a + b|
      ensures (a + b)[i] != (a + b)[j]
    {
      if j < |a| {
        assert (a + b)[i] == a[i] && (a + b)[j] == a[j];
      } else if i >= |a| {
        assert (a + b)[i] == b[i - |a|] && (a + b)[j] == b[j - |a|];
      } else {
        assert a[i] in a && b[j - |a|] in b;
        assert (a + b)[i] == a[i] && (a + b)[j] == b[j - |a|];
      }
    }
  }

  /** Lines of pairwise different lengths never repeat. */
  predicate LengthsDiffer(xs: seq<string>) {
    forall i, j :: 0 <= i < j < |xs| ==> |xs[i]| != |xs[j]|
  }

  /** Three lines of the given pairwise different lengths. */
  lemma ThreeLengths(xs: seq<string>, l0: int, l1: int, l2: int)
    requires |xs| == 3 && |xs[0]| == l0 && |xs[1]| == l1 && |xs[2]| == l2
    requires l0 != l1 && l0 != l2 && l1 != l2
    ensures LengthsAmong(xs, l0, l1, l2) && LengthsDiffer(xs)
  {
  }

  /** The lengths of the advice lines: every line has its own length, which
      also tells each line from the fallback (80 characters). */
  lemma AnemiaLengths()
    ensures LengthsAmong(AnemiaAdvice, 65, 50, 66)
    ensures LengthsDiffer(AnemiaAdvice)
  {
    ThreeLengths(AnemiaAdvice, 65, 50, 66);
  }

  lemma PlateletLengths()
    ensures LengthsAmong(PlateletAdvice, 38, 48, 63)
    ensures LengthsDiffer(PlateletAdvice)
  {
    ThreeLengths(PlateletAdvice, 38, 48, 63);
  }

  lemma InfectionLengths()
    ensures LengthsAmong(InfectionAdvice, 35, 40, 39)
    ensures LengthsDiffer(InfectionAdvice)
  {
    ThreeLengths(InfectionAdvice, 35, 40, 39);
  }

  lemma SingleLengths()
    ensures |AgeAdvice| == 76 && |FemaleAdvice| == 75 && |Fallback| == 80
  {
  }

  /** The lines of a group of three, or none, have one of the group's
      lengths. */
  predicate LengthsAmong(xs: seq<string>, l0: int, l1: int, l2: int) {
    forall x :: x in xs ==> |x| == l0 || |x| == l1 || |x| == l2
  }

  /** Five groups of lines, each without repeats and with lengths no other
      group uses, join into a list without repeats. */
  lemma GroupsDistinct(a: seq<string>, b: seq<string>, c: seq<string>, d: seq<string>, e: seq<string>)
    requires LengthsDiffer(a) && LengthsDiffer(b) && LengthsDiffer(c) && |d| <= 1 && |e| <= 1
    requires LengthsAmong(a, 65, 50, 66) && LengthsAmong(b, 38, 48, 63) && LengthsAmong(c, 35, 40, 39)
    requires LengthsAmong(d, 76, 76, 76) && LengthsAmong(e, 75, 75, 75)
    ensures Distinct(a + b + c + d + e)
  {
    DistinctConcat(a, b);
    DistinctConcat(a + b, c);
    DistinctConcat(a + b + c, d);
    DistinctConcat(a + b + c + d, e);
  }

  /** A group that may not fire keeps the lengths of its lines. */
  function Optional(fire: bool, g: seq<string>, l0: int, l1: int, l2: int): (r: seq<string>)
    requires LengthsDiffer(g) && LengthsAmong(g, l0, l1, l2)
    ensures LengthsDiffer(r) && LengthsAmong(r, l0, l1, l2)
    ensures r == if fire then g else []
  {
    if fire then g else []
  }

  /** A single line that may not fire keeps its length. */
  lemma OptionalLine(fire: bool, s: string)
    ensures |When(fire, s)| <= 1 && LengthsAmong(When(fire, s), |s|, |s|, |s|)
  {
  }

  /** The triggered advice lines never repeat. */
  lemma TriggeredDistinct(anemia: bool, platelet: bool, infection: bool, older: bool, female: bool)
    ensures Distinct(Triggered(anemia, platelet, infection, older, female))
  {
    AnemiaLengths();
    PlateletLengths();
    InfectionLengths();
    SingleLengths();
    OptionalLine(older, AgeAdvice);
    OptionalLine(female, FemaleAdvice);
    var a := Optional(anemia, AnemiaAdvice, 65, 50, 66);
    var b := Optional(platelet, PlateletAdvice, 38, 48, 63);
    var c := Optional(infection, InfectionAdvice, 35, 40, 39);
    var d := When(older, AgeAdvice);
    var e := When(female, FemaleAdvice);
    GroupsDistinct(a, b, c, d, e);
  }

  /** The advice lines never repeat, so de-duplication keeps every line:
      the result is the triggered groups in order, or the fallback line
      alone. */
  lemma RecommendationsKeepAll(summary: string, age: Option<real>, gender: Option<string>)
    ensures var raw := RawAdvice(summary, age, gender);
      Recommendations(summary, age, gender) == if raw == [] then [Fallback] else raw
  {
    var raw := RawAdvice(summary, age, gender);
    if raw == [] {
      DedupeDistinct([Fallback], []);
    } else {
      var low := Lower(summary);
      TriggeredDistinct(AnemiaCue(low), PlateletCue(low), InfectionCue(low), OlderAge(age), Female(gender));
      DedupeDistinct(raw, []);
    }
  }

  /** The fallback line appears exactly when no cue fires. */
  lemma FallbackIff(summary: string, age: Option<real>, gender: Option<string>)
    ensures var low := Lower(summary);
      Recommendations(summary, age, gender) == [Fallback] <==>
        !AnemiaCue(low) && !PlateletCue(low) && !InfectionCue(low) && !OlderAge(age) && !Female(gender)
  {
    RecommendationsKeepAll(summary, age, gender);
    var low := Lower(summary);
    FallbackNotTriggered(AnemiaCue(low), PlateletCue(low), InfectionCue(low), OlderAge(age), Female(gender));
  }

  /** No group holds the fallback line, and the groups are all empty only
      when no cue fires. */
  lemma FallbackNotTriggered(anemia: bool, platelet: bool, infection: bool, older: bool, female: bool)
    ensures Fallback !in Triggered(anemia, platelet, infection, older, female)
    ensures Triggered(anemia, platelet, infection, older, female) == [] <==>
      !anemia && !platelet && !infection && !older && !female
  {
    AnemiaLengths();
    PlateletLengths();
    InfectionLengths();
    SingleLengths();
    OptionalLine(older, AgeAdvice);
    OptionalLine(female, FemaleAdvice);
    var a := Optional(anemia, AnemiaAdvice, 65, 50, 66);
    var b := Optional(platelet, PlateletAdvice, 38, 48, 63);
    var c := Optional(infection, InfectionAdvice, 35, 40, 39);
    var d := When(older, AgeAdvice);
    var e := When(female, FemaleAdvice);
    assert Triggered(anemia, platelet, infection, older, female) == a + b + c + d + e;
    assert Fallback !in a && Fallback !in b && Fallback !in c && Fallback !in d && Fallback !in e;
  }
}
