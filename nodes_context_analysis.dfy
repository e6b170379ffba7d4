/** The context-analysis node (nodes/context_analysis.py): three fixed
    outcomes, chosen by whether there are parameters and patterns. */
module NodesContextAnalysis {
  import opened Common

  /** The node's "context_analysis" record. */
  datatype ContextAnalysis = ContextAnalysis(analysis: string, concerns: string)

  const NoDataAnalysis: string := "No laboratory data available for contextual analysis."
  const NoDataConcerns: string := "Insufficient data."
  const NormalAnalysis: string :=
    "The reported CBC parameters are within typical adult reference ranges. No overt anemia, infection, or hematological abnormality is suggested by the available values."
  const NormalConcerns: string :=
    "Clinical interpretation should still consider patient age, sex, symptoms, medications, and comorbid conditions."
  const DeviationAnalysis: string :=
    "Certain CBC parameters show deviations from reference ranges, which may warrant further clinical correlation."

  /** `context_analysis_node(state)` on the interpretation map and the
      pattern names. */
  function Analyse<V>(params: Dict<V>, patterns: seq<string>): (r: ContextAnalysis)
    ensures |params| == 0 ==> r.concerns == NoDataConcerns
    ensures |params| > 0 && |patterns| == 0 ==> r.concerns == NormalConcerns
    ensures |params| > 0 && |patterns| > 0 ==> StartsWith(r.concerns, patterns[0])
  {
    if |params| == 0 then ContextAnalysis(NoDataAnalysis, NoDataConcerns)
    else if |patterns| == 0 then ContextAnalysis(NormalAnalysis, NormalConcerns)
    else
      JoinHead(patterns, "; ");
      ContextAnalysis(DeviationAnalysis, Join(patterns, "; "))
  }

  // ---------------------------------------------------------------------
  // Properties

  /** The analysis text tells the three cases apart: no data (whatever the
      patterns), data without patterns, and data with patterns. */
  lemma AnalysisIdentifiesCase<V>(params: Dict<V>, patterns: seq<string>)
    ensures Analyse(params, patterns).analysis == NoDataAnalysis <==> |params| == 0
    ensures Analyse(params, patterns).analysis == NormalAnalysis <==> |params| > 0 && |patterns| == 0
    ensures Analyse(params, patterns).analysis == DeviationAnalysis <==> |params| > 0 && |patterns| > 0
  {
    assert |NoDataAnalysis| != |NormalAnalysis| && |NoDataAnalysis| != |DeviationAnalysis|;
    assert |NormalAnalysis| != |DeviationAnalysis|;
  }

  /** With patterns, the concerns list them in order: the first pattern
      leads, and each further one follows a "; ". */
  lemma ConcernsListPatterns<V>(params: Dict<V>, patterns: seq<string>, p: string)
    requires |params| > 0 && |patterns| > 0
    ensures StartsWith(Analyse(params, patterns).concerns, patterns[0])
    ensures Analyse(params, patterns + [p]).concerns == Analyse(params, patterns).concerns + "; " + p
  {
    JoinHead(patterns, "; ");
    JoinSnoc(patterns, p, "; ");
  }
}
