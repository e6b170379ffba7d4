/** The demographic context node (nodes/model3_context.py): a fixed
    opening sentence, optional age and gender sentences, and the concerns
    taken from the patterns. */
module NodesModel3Context {
  import opened Common

  /** The node's "context_analysis" record. */
  datatype Context = Context(analysis: string, concerns: seq<string>)

  const Opening: string := "CBC values interpreted using standard adult reference ranges."
  const Deviation: string := " Some parameters deviate from expected ranges and may require clinical correlation."
  const NoAbnormality: string := " No clinically significant abnormalities detected."

  function AgeSentence(age: Value, show: Value -> string): string {
    " Patient age: " + Str(age, show) + "."
  }

  function GenderSentence(gender: Value, show: Value -> string): string {
    " Gender-specific reference ranges were considered for " + Str(gender, show) + "."
  }

  /** The age and gender sentences for truthy values, age first. */
  function Sentences(age: Value, gender: Value, show: Value -> string): string {
    (if Truthy(age) then AgeSentence(age, show) else "")
    + (if Truthy(gender) then GenderSentence(gender, show) else "")
  }

  /** The opening plus the demographic sentences. */
  function Demographics(age: Value, gender: Value, show: Value -> string): string {
    Opening + Sentences(age, gender, show)
  }

  /** `model3_context_node(state)` on the patient's "Age" and "Gender"
      (None when absent) and the pattern names; `show` renders a
      non-string value as Python's f-string would. */
  function Model3Context(age: Value, gender: Value, patterns: seq<string>, show: Value -> string): (c: Context)
    ensures StartsWith(c.analysis, Opening)
    ensures |c.analysis| == |Demographics(age, gender, show)| + (if |patterns| > 0 then |Deviation| else |NoAbnormality|)
    ensures c.concerns == patterns
  {
    OpensWith(age, gender, show);
    var base := Demographics(age, gender, show);
    Framed(base, if |patterns| > 0 then Deviation else NoAbnormality, Opening);
    if |patterns| > 0 then Context(base + Deviation, patterns)
    else Context(base + NoAbnormality, [])
  }

  // ---------------------------------------------------------------------
  // Properties

  /** The analysis always opens with the fixed sentence and closes with the
      sentence for the pattern case; the concerns are the patterns, or
      empty. */
  lemma AnalysisFrame(age: Value, gender: Value, patterns: seq<string>, show: Value -> string)
    ensures var c := Model3Context(age, gender, patterns, show);
      StartsWith(c.analysis, Opening) &&
      EndsWith(c.analysis, if |patterns| > 0 then Deviation else NoAbnormality) &&
      c.concerns == (if |patterns| > 0 then patterns else [])
  {
    var base := Demographics(age, gender, show);
    var tail := if |patterns| > 0 then Deviation else NoAbnormality;
    OpensWith(age, gender, show);
    Framed(base, tail, Opening);
  }

  lemma OpensWith(age: Value, gender: Value, show: Value -> string)
    ensures StartsWith(Demographics(age, gender, show), Opening)
  {
    var rest := Sentences(age, gender, show);
    assert (Opening + rest)[..|Opening|] == Opening;
  }

  lemma Framed(base: string, tail: string, head: string)
    requires StartsWith(base, head)
    ensures StartsWith(base + tail, head) && EndsWith(base + tail, tail)
  {
    assert (base + tail)[..|head|] == base[..|head|];
    assert (base + tail)[|base + tail| - |tail|..] == tail;
  }

  /** Falsy age and gender (None, 0, "") add no sentence. */
  lemma FalsyDemographicsSilent(age: Value, gender: Value, patterns: seq<string>, show: Value -> string)
    requires !Truthy(age) && !Truthy(gender)
    ensures Model3Context(age, gender, patterns, show).analysis ==
      Opening + (if |patterns| > 0 then Deviation else NoAbnormality)
  {
    assert Sentences(age, gender, show) == "" + "";
    assert Opening + "" + "" == Opening;
  }

  /** Each truthy demographic adds exactly its sentence. */
  lemma DemographicsLength(age: Value, gender: Value, show: Value -> string)
    ensures |Demographics(age, gender, show)| == |Opening|
      + (if Truthy(age) then |AgeSentence(age, show)| else 0)
      + (if Truthy(gender) then |GenderSentence(gender, show)| else 0)
  {
  }

  /** The age sentence, when there is one, comes first. */
  lemma AgeFirst(age: Value, gender: Value, show: Value -> string)
    requires Truthy(age)
    ensures StartsWith(Sentences(age, gender, show), AgeSentence(age, show))
  {
    var a := AgeSentence(age, show);
    var g := if Truthy(gender) then GenderSentence(gender, show) else "";
    assert (a + g)[..|a|] == a;
  }
}
