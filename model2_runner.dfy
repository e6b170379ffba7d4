/** The Model-2 orchestrator (model2/model2_runner.py): the flat parameter
    map, the observations handed to the knowledge graph, the missing list,
    the severity map, the output document and its text summary. File
    handling, logging and the derived-metric and cardio-risk engines stay
    outside; their results are inputs. */
module Runner {
  import opened Common
  import opened Severity
  import opened Loader
  import opened PatternEngine
  import opened ProbableCauses
  import opened Confidence
  import opened Guardrails

  /** The parameters whose Model-1 status flag is consulted, in order. */
  const KeyParams: seq<string> :=
    ["Hemoglobin", "Platelets", "MCV", "RDW", "LDL", "Total_Cholesterol",
     "Triglycerides", "HDL", "Creatinine", "CRP", "Glucose_Fasting", "HbA1c",
     "Neutrophils", "Lymphocytes"]

  const Disclaimer :=
    "Model-2 deterministic + KG reasoning. This output is not a diagnosis. Refer to clinician."

  // ---------------------------------------------------------------------
  // flat_params and missing_params

  /** The loaded parameters, then "age" and "gender" when the loaded
      document has those exact (lower-case) keys. */
  function FlatParams(m: Loaded): Dict<Value> {
    var withAge := match Get(m.meta, "age")
      case Some(a) => Put(m.parameters, "age", a)
      case None => m.parameters;
    match Get(m.meta, "gender")
    case Some(g) => Put(withAge, "gender", g)
    case None => withAge
  }

  /** The parameter names whose value is None, in order. */
  function MissingParams(params: Dict<Value>): (r: seq<string>)
    ensures forall k :: k in r <==> (k, VNone) in params
  {
    if |params| == 0 then []
    else
      var rest := MissingParams(params[1..]);
      assert forall e :: e in params <==> e == params[0] || e in params[1..];
      (if params[0].1.VNone? then [params[0].0] else []) + rest
  }

  // ---------------------------------------------------------------------
  // Observations

  /** An explicit status flag: "LOW" anywhere in it wins over "HIGH";
      any other flag yields nothing. */
  function StatusToken(param: string, st: string): Option<string> {
    var up := Upper(st);
    if Contains(up, "LOW") then Some(param + "_LOW")
    else if Contains(up, "HIGH") then Some(param + "_HIGH")
    else None
  }

  /** The severity-label fallback: a label starting with "low" or "high",
      or mentioning "severe", yields a token, and only a "low…" label
      yields the _LOW one. */
  function FallbackToken(param: string, l: Label): Option<string> {
    var n := Name(l);
    if StartsWith(n, "low") || StartsWith(n, "high") || Contains(n, "severe") then
      Some(if StartsWith(n, "low") then param + "_LOW" else param + "_HIGH")
    else None
  }

  /** The observation one key parameter contributes, if any. */
  function KeyObservation(ranges: RangeLookup, status: Dict<string>, flat: Dict<Value>, param: string)
    : Option<string>
  {
    var st := GetOr(status, param, "");
    if st != "" then StatusToken(param, st)
    else
      var v := GetOr(flat, param, VNone);
      if IsNumeric(v) then
        var c := LabelFromRange(ranges, param, v, GetOr(flat, "age", VNone), GetOr(flat, "gender", VNone));
        FallbackToken(param, c.grade)
      else None
  }

  function OptionList(o: Option<string>): seq<string> {
    if o.Some? then [o.value] else []
  }

  /** The support lists of the present patterns, concatenated in map order. */
  function PatternObservations(pats: Patterns): seq<string> {
    if |pats| == 0 then []
    else
      var last := pats[|pats| - 1].1;
      PatternObservations(pats[..|pats| - 1]) + (if last.present then last.support else [])
  }

  /** The tokens of the given key parameters, in order. */
  function KeyObservations(ranges: RangeLookup, status: Dict<string>, flat: Dict<Value>, ps: seq<string>)
    : seq<string>
  {
    if |ps| == 0 then []
    else KeyObservations(ranges, status, flat, ps[..|ps| - 1])
         + OptionList(KeyObservation(ranges, status, flat, ps[|ps| - 1]))
  }

  /** The observation list of `run`: pattern support first, then the key
      parameters. */
  function Observations(ranges: RangeLookup, pats: Patterns, status: Dict<string>, flat: Dict<Value>)
    : seq<string>
  {
    PatternObservations(pats) + KeyObservations(ranges, status, flat, KeyParams)
  }

  method CollectPatternSupport(pats: Patterns) returns (obs: seq<string>)
    ensures obs == PatternObservations(pats)
  {
    obs := [];
    var i := 0;
    while i < |pats|
      invariant 0 <= i <= |pats|
      invariant obs == PatternObservations(pats[..i])
    {
      assert pats[..i + 1][..i] == pats[..i];
      var info := pats[i].1;
      if info.present {
        obs := obs + info.support;
      }
      i := i + 1;
    }
    assert pats[..|pats|] == pats;
  }

  /** The loop over the key parameters `ps`. */
  method CollectKeyObservations(ranges: RangeLookup, status: Dict<string>, flat: Dict<Value>, ps: seq<string>)
    returns (fromKeys: seq<string>)
    ensures fromKeys == KeyObservations(ranges, status, flat, ps)
  {
    fromKeys := [];
    var i := 0;
    while i < |ps|
      invariant 0 <= i <= |ps|
      invariant fromKeys == KeyObservations(ranges, status, flat, ps[..i])
    {
      assert ps[..i + 1][..i] == ps[..i];
      var token := KeyObservation(ranges, status, flat, ps[i]);
      if token.Some? {
        fromKeys := fromKeys + [token.value];
      }
      i := i + 1;
    }
    assert ps[..|ps|] == ps;
  }

  /** The observation-assembly loops of `run`. */
  method CollectObservations(ranges: RangeLookup, pats: Patterns, status: Dict<string>, flat: Dict<Value>)
    returns (obs: seq<string>)
    ensures obs == Observations(ranges, pats, status, flat)
  {
    var fromPatterns := CollectPatternSupport(pats);
    var fromKeys := CollectKeyObservations(ranges, status, flat, KeyParams);
    obs := fromPatterns + fromKeys;
  }

  // ---------------------------------------------------------------------
  // The severity map

  /** The classification of every int/float-valued parameter, keyed by its
      name; other parameters are skipped. */
  function SeverityEntries(ranges: RangeLookup, params: Dict<Value>, age: Value, gender: Value)
    : Dict<Classification>
  {
    if |params| == 0 then []
    else
      var before := SeverityEntries(ranges, params[..|params| - 1], age, gender);
      var (k, v) := params[|params| - 1];
      if IsNumeric(v) then Put(before, k, LabelFromRange(ranges, k, v, age, gender)) else before
  }

  method SeverityMap(ranges: RangeLookup, params: Dict<Value>, age: Value, gender: Value)
    returns (m: Dict<Classification>)
    ensures m == SeverityEntries(ranges, params, age, gender)
  {
    m := [];
    var i := 0;
    while i < |params|
      invariant 0 <= i <= |params|
      invariant m == SeverityEntries(ranges, params[..i], age, gender)
    {
      assert params[..i + 1][..i] == params[..i];
      var (k, v) := params[i];
      if IsNumeric(v) {
        m := Put(m, k, LabelFromRange(ranges, k, v, age, gender));
      }
      i := i + 1;
    }
    assert params[..|params|] == params;
  }

  // ---------------------------------------------------------------------
  // The output document

  /** `str(x)` of a scalar as the f-strings render it; the float and int
      renderings are left to `render`. */
  function Text(j: Json, render: Json -> string): string {
    if j.JStr? then j.s else render(j)
  }

  function ValueJson(v: Value): Json {
    match v
    case VNone => JNull
    case VBool(b) => JBool(b)
    case VInt(i) => JInt(i)
    case VFloat(r) => JNum(r)
    case VStr(s) => JStr(s)
  }

  function OptionJson(o: Option<real>): Json {
    if o.Some? then JNum(o.value) else JNull
  }

  /** The severity note as the classifier writes it. */
  function NoteText(n: Note, render: Json -> string): string {
    match n
    case NoValue => "No value"
    case NoRange => "No reference range"
    case Verbatim(raw) => Text(ValueJson(raw), render)
    case RangeNote(v, units, low, high) =>
      render(JNum(v)) + " " + units + " (reference " + render(JNum(low)) + " - "
        + render(JNum(high)) + " " + units + ")"
  }

  function ClassificationJson(c: Classification, render: Json -> string): Json {
    JObj([("value", ValueJson(c.value)), ("label", JStr(Name(c.grade))),
          ("note", JStr(NoteText(c.note, render))), ("distance", OptionJson(c.distance))])
  }

  function StringList(xs: seq<string>): (r: Json)
    ensures r.JList? && |r.items| == |xs|
  {
    JList(seq(|xs|, i requires 0 <= i < |xs| => JStr(xs[i])))
  }

  function SeverityJson(l: Option<Label>): Json {
    if l.Some? then JStr(Name(l.value)) else JNull
  }

  /** One pattern's dict, with the keys in the order each rule writes them. */
  function PatternJson(name: string, p: PatternInfo, render: Json -> string): Json {
    var present := ("present", JBool(p.present));
    var support := ("support", StringList(p.support));
    var severity := ("severity", SeverityJson(p.severity));
    if name == "anemia" then
      JObj([present, ("type", if p.kind.Some? then JStr(p.kind.value) else JNull), support, severity,
            ("note", if p.note.Some? then JStr(NoteText(p.note.value, render)) else JNull)])
    else if name == "thrombocytopenia" then
      JObj([present, ("isolated", JBool(p.isolated == Some(true))), severity, support])
    else if name == "dyslipidemia" then
      JObj([present, support, ("details", JObj(seq(|p.details|, i requires 0 <= i < |p.details| =>
        (p.details[i].0, ClassificationJson(p.details[i].1, render)))))])
    else if name == "metabolic_syndrome_signals" then
      JObj([present, support])
    else
      JObj([present, severity, support])
  }

  function PatternsJson(pats: Patterns, render: Json -> string): Json {
    JObj([("patterns", JObj(seq(|pats|, i requires 0 <= i < |pats| =>
      (pats[i].0, PatternJson(pats[i].0, pats[i].1, render)))))])
  }

  function CauseJson(c: Cause): Json {
    JObj([("cause", JStr(c.cause)), ("score", JNum(c.score)),
          ("support", StringList(c.support)), ("source", JStr(c.source))])
  }

  function ProbableJson(causes: seq<Cause>, raw: Dict<real>): Json {
    JObj([("causes", JList(seq(|causes|, i requires 0 <= i < |causes| => CauseJson(causes[i])))),
          ("raw_scores", JObj(seq(|raw|, i requires 0 <= i < |raw| => (raw[i].0, JNum(raw[i].1)))))])
  }

  function ConfidenceJson(r: Confidence.Result): Json {
    JObj([("score", JNum(r.score)),
          ("components", JObj([("presence", JNum(r.presence)), ("pattern", JNum(r.pattern)), ("kg", JNum(r.kg))])),
          ("explanation", JStr(r.explanation))])
  }

  function StringDict(d: Dict<string>): Json {
    JObj(seq(|d|, i requires 0 <= i < |d| => (d[i].0, JStr(d[i].1))))
  }

  function ValueDict(d: Dict<Value>): Json {
    JObj(seq(|d|, i requires 0 <= i < |d| => (d[i].0, ValueJson(d[i].1))))
  }

  /** The dict literal of `run`, entry by entry: a repeated key keeps its
      first position and takes its last value, as in a Python literal. */
  function DictLiteral(entries: seq<(string, Json)>): Dict<Json> {
    if |entries| == 0 then []
    else
      var last := entries[|entries| - 1];
      Put(DictLiteral(entries[..|entries| - 1]), last.0, last.1)
  }

  /** The pieces of the output document. */
  datatype Parts = Parts(
    inputPath: string, base: string, loaded: Loaded, derived: Json, patterns: Patterns,
    causes: seq<Cause>, rawScores: Dict<real>, cardio: Json, severity: Dict<Classification>,
    confidence: Confidence.Result)

  function OutputEntries(p: Parts, render: Json -> string): seq<(string, Json)> {
    [("metadata", JObj([("input_file", JStr(p.inputPath)), ("base", JStr(p.base))])),
     ("parameters", ValueDict(p.loaded.parameters)),
     ("status", StringDict(p.loaded.status)),
     ("notes", StringDict(p.loaded.notes)),
     ("derived", p.derived),
     ("patterns", PatternsJson(p.patterns, render)),
     ("probable_causes", ProbableJson(p.causes, p.rawScores)),
     ("cardio", p.cardio),
     ("severity", JObj(seq(|p.severity|, i requires 0 <= i < |p.severity| =>
        (p.severity[i].0, ClassificationJson(p.severity[i].1, render))))),
     ("confidence", ConfidenceJson(p.confidence)),
     ("notes", JStr(Disclaimer))]
  }

  function Output(p: Parts, render: Json -> string): Dict<Json> {
    DictLiteral(OutputEntries(p, render))
  }

  /** The document `run` returns, before and after the guardrail, given the
      loaded input, the collaborators and the results of the derived-metric
      and cardio engines; None where `detect_patterns` raises. */
  function RunSpec(ranges: RangeLookup, kg: seq<Edge>, priors: Dict<real>, m: Loaded,
                   inputPath: string, base: string, derived: Json, cardio: Json, render: Json -> string)
    : Option<Dict<Json>>
  {
    var flat := FlatParams(m);
    match DetectPatterns(ranges, flat)
    case None => None
    case Some(pats) =>
      var obs := Observations(ranges, pats, m.status, flat);
      var evidence := Accumulate(kg, obs);
      var raw := FinalScores(evidence, priors);
      var causes := Ranked(raw, evidence.support);
      var missing := MissingParams(m.parameters);
      var sev := SeverityEntries(ranges, m.parameters, GetOr(flat, "age", VNone), GetOr(flat, "gender", VNone));
      var presence := PresenceScore(flat);
      var pattern := PatternScore(pats);
      var kgScore := KgTopScore(causes);
      var conf := Confidence.Result(Combine(presence, pattern, kgScore), presence, pattern, kgScore,
                                    Explanation(presence, pattern, missing));
      Some(Sanitized(Output(Parts(inputPath, base, m, derived, pats, causes, raw, cardio, sev, conf), render)))
  }

  /** `run` after loading: each stage in order, then the guardrail. */
  method Run(ranges: RangeLookup, kg: seq<Edge>, priors: Dict<real>, m: Loaded,
             inputPath: string, base: string, derived: Json, cardio: Json, render: Json -> string)
    returns (out: Option<Dict<Json>>)
    ensures out == RunSpec(ranges, kg, priors, m, inputPath, base, derived, cardio, render)
  {
    var flat := FlatParams(m);
    var missing := MissingParams(m.parameters);
    var detected := DetectPatterns(ranges, flat);
    if detected.None? {
      return None;
    }
    var pats := detected.value;
    var obs := CollectObservations(ranges, pats, m.status, flat);
    var causes, raw := InferProbableCauses(kg, obs, priors);
    var sev := SeverityMap(ranges, m.parameters, GetOr(flat, "age", VNone), GetOr(flat, "gender", VNone));
    var conf := ComputeConfidence(flat, pats, causes, missing);
    var doc := Output(Parts(inputPath, base, m, derived, pats, causes, raw, cardio, sev, conf), render);
    var safe := SanitizeOutput(doc);
    out := Some(safe);
  }

  // ---------------------------------------------------------------------
  // human_summary

  /** `d.get(k, dflt)` on a dict; anything else yields the default. */
  function JGet(j: Json, k: string, dflt: Json): Json {
    if j.JObj? then GetOr(j.fields, k, dflt) else dflt
  }

  predicate JTruthy(j: Json) {
    match j
    case JNull => false
    case JBool(b) => b
    case JInt(i) => i != 0
    case JNum(r) => r != 0.0
    case JStr(s) => s != ""
    case JList(items) => items != []
    case JObj(fields) => fields != []
  }

  function Items(j: Json): seq<Json> {
    if j.JList? then j.items else []
  }

  function Texts(xs: seq<Json>, render: Json -> string): (r: seq<string>)
    ensures |r| == |xs|
  {
    seq(|xs|, i requires 0 <= i < |xs| => Text(xs[i], render))
  }

  /** The support shown for a pattern: its first three entries. */
  function ShownSupport(support: Json, render: Json -> string): string {
    Join(Texts(Take(Items(support), 3), render), ", ")
  }

  /** The trace shown for a cause: its first two entries. */
  function ShownTrace(support: Json, render: Json -> string): string {
    Join(Texts(Take(Items(support), 2), render), ", ")
  }

  function PatternLine(name: string, info: Json, render: Json -> string): string {
    var kind := JGet(info, "type", JNull);
    var sev := JGet(info, "severity", JNull);
    var shown := if JTruthy(kind) then kind else if JTruthy(sev) then sev else JStr("");
    "- " + name + ": " + Text(shown, render) + " (support: "
      + ShownSupport(JGet(info, "support", JList([])), render) + ")"
  }

  /** One line per pattern whose "present" entry is truthy, in order. */
  function PatternLines(pats: seq<(string, Json)>, render: Json -> string): seq<string> {
    if |pats| == 0 then []
    else
      var (name, info) := pats[0];
      (if JTruthy(JGet(info, "present", JNull)) then [PatternLine(name, info, render)] else [])
        + PatternLines(pats[1..], render)
  }

  function PresentEntries(pats: seq<(string, Json)>): nat {
    if |pats| == 0 then 0
    else (if JTruthy(JGet(pats[0].1, "present", JNull)) then 1 else 0) + PresentEntries(pats[1..])
  }

  function CauseLine(c: Json, render: Json -> string): string {
    "- " + Text(JGet(c, "cause", JNull), render) + " (score: " + Text(JGet(c, "score", JNull), render)
      + ") support: " + ShownTrace(JGet(c, "support", JList([])), render)
  }

  /** The first five causes, one line each. */
  function CauseLines(causes: seq<Json>, render: Json -> string): (r: seq<string>)
    ensures |r| == if |causes| < 5 then |causes| else 5
  {
    var top := Take(causes, 5);
    seq(|top|, i requires 0 <= i < |top| => CauseLine(top[i], render))
  }

  /** The pattern entries the summary lists: `out["patterns"]["patterns"]`. */
  function SummaryPatterns(out: Dict<Json>): seq<(string, Json)> {
    var pats := JGet(JGet(JObj(out), "patterns", JObj([])), "patterns", JObj([]));
    if pats.JObj? then pats.fields else []
  }

  /** The causes the summary lists: `out["probable_causes"]["causes"]`. */
  function SummaryCauses(out: Dict<Json>): seq<Json> {
    Items(JGet(JGet(JObj(out), "probable_causes", JObj([])), "causes", JList([])))
  }

  /** The confidence explanation, printed only when truthy. */
  function SummaryExplanation(out: Dict<Json>): Json {
    JGet(JGet(JObj(out), "confidence", JObj([])), "explanation", JNull)
  }

  /** The report line and the pattern header. */
  function SummaryHead(out: Dict<Json>, render: Json -> string): (h: seq<string>)
    ensures |h| == 3 && StartsWith(h[0], "Report: ") && h[1] == "" && h[2] == "Key Patterns Detected:"
  {
    var md := JGet(JObj(out), "metadata", JObj([]));
    ["Report: " + Text(JGet(md, "base", JNull), render), "", "Key Patterns Detected:"]
  }

  /** The blank line and the cardiovascular and confidence lines. */
  function SummaryScores(out: Dict<Json>, render: Json -> string): (s: seq<string>)
    ensures |s| == 3 && s[0] == ""
    ensures StartsWith(s[1], "Cardiovascular risk band: ") && StartsWith(s[2], "Overall confidence: ")
  {
    var cardio := JGet(JObj(out), "cardio", JObj([]));
    var conf := JGet(JObj(out), "confidence", JObj([]));
    ["", "Cardiovascular risk band: " + Text(JGet(cardio, "band", JNull), render)
           + " (score " + Text(JGet(cardio, "score", JNull), render) + ")",
     "Overall confidence: " + Text(JGet(conf, "score", JNull), render)]
  }

  /** One line per present pattern. */
  function SummaryPatternLines(out: Dict<Json>, render: Json -> string): (l: seq<string>)
    ensures |l| == PresentEntries(SummaryPatterns(out))
  {
    PatternLinesCount(SummaryPatterns(out), render);
    PatternLines(SummaryPatterns(out), render)
  }

  /** One line for each of the first five causes. */
  function SummaryCauseLines(out: Dict<Json>, render: Json -> string): (l: seq<string>)
    ensures |l| == if |SummaryCauses(out)| < 5 then |SummaryCauses(out)| else 5
  {
    CauseLines(SummaryCauses(out), render)
  }

  /** The explanation line, when the explanation is truthy. */
  function SummaryExplanationLines(out: Dict<Json>, render: Json -> string): (e: seq<string>)
    ensures |e| == if JTruthy(SummaryExplanation(out)) then 1 else 0
  {
    var explanation := SummaryExplanation(out);
    if JTruthy(explanation) then ["Confidence explanation: " + Text(explanation, render)] else []
  }

  /** The notes section, last. */
  function SummaryTail(out: Dict<Json>, render: Json -> string): (t: seq<string>)
    ensures |t| == 3 && t[0] == "" && t[1] == "Notes:"
  {
    ["", "Notes:", Text(JGet(JObj(out), "notes", JStr("")), render)]
  }

  /** The text report, line by line: eleven fixed lines, one per present
      pattern, one per cause up to five, and the explanation when there is
      one. */
  function SummaryLines(out: Dict<Json>, render: Json -> string): (r: seq<string>)
    ensures |r| == 11 + PresentEntries(SummaryPatterns(out))
                  + (if |SummaryCauses(out)| < 5 then |SummaryCauses(out)| else 5)
                  + (if JTruthy(SummaryExplanation(out)) then 1 else 0)
  {
    SummaryHead(out, render)
      + SummaryPatternLines(out, render)
      + ["", "Top Probable Causes:"]
      + SummaryCauseLines(out, render)
      + SummaryScores(out, render)
      + SummaryExplanationLines(out, render)
      + SummaryTail(out, render)
  }

  /** `human_summary(out)`: the lines joined by newlines, so the text opens
      with the report line. */
  function HumanSummary(out: Dict<Json>, render: Json -> string): (s: string)
    ensures StartsWith(s, SummaryLines(out, render)[0])
  {
    var lines := SummaryLines(out, render);
    JoinHead(lines, "\n");
    Join(lines, "\n")
  }

  // ---------------------------------------------------------------------
  // Properties

  /** The fallback's tokens: _LOW only for a plain "low" label, _HIGH for
      "high" and for every severe label, low ones included. */
  lemma FallbackTokens(param: string, l: Label)
    ensures FallbackToken(param, l) == Some(param + "_LOW") <==> l == Low
    ensures FallbackToken(param, l) == Some(param + "_HIGH") <==> l == High || Severe(l)
    ensures FallbackToken(param, l) == None <==> !(l == Low || l == High || Severe(l))
  {
    StartsLow(l);
    StartsHigh(l);
    MentionsSevere(l);
    assert |param + "_LOW"| != |param + "_HIGH"|;
  }

  /** A severe_low fallback label is reported as `<param>_HIGH`. */
  lemma SevereLowReportedHigh(param: string)
    ensures FallbackToken(param, SevereLow) == Some(param + "_HIGH")
  {
    FallbackTokens(param, SevereLow);
  }

  /** An explicit status decides alone: the value, the ranges and the
      fallback play no part. */
  lemma StatusTakesPrecedence(ranges: RangeLookup, ranges': RangeLookup, status: Dict<string>,
                              flat: Dict<Value>, flat': Dict<Value>, param: string)
    requires GetOr(status, param, "") != ""
    ensures KeyObservation(ranges, status, flat, param) == KeyObservation(ranges', status, flat', param)
    ensures KeyObservation(ranges, status, flat, param) == StatusToken(param, GetOr(status, param, ""))
  {
  }

  /** A "NORMAL" status adds nothing and suppresses the fallback. */
  lemma NormalStatusSilent(ranges: RangeLookup, status: Dict<string>, flat: Dict<Value>, param: string)
    requires GetOr(status, param, "") == "NORMAL"
    ensures KeyObservation(ranges, status, flat, param) == None
  {
    var up := Upper("NORMAL");
    assert up == "NORMAL";
    assert 'W' !in up && 'H' !in up;
    MissingChar(up, "LOW", 2);
    MissingChar(up, "HIGH", 0);
  }

  /** Without a status and without an int/float value nothing is added. */
  lemma NoStatusNoNumber(ranges: RangeLookup, status: Dict<string>, flat: Dict<Value>, param: string)
    requires GetOr(status, param, "") == "" && !IsNumeric(GetOr(flat, param, VNone))
    ensures KeyObservation(ranges, status, flat, param) == None
  {
  }

  /** Every key-parameter token is `<param>_LOW` or `<param>_HIGH` for one
      of the parameters, and each parameter adds at most one. */
  lemma {:induction false} KeyObservationsShape(ranges: RangeLookup, status: Dict<string>, flat: Dict<Value>, ps: seq<string>)
    ensures |KeyObservations(ranges, status, flat, ps)| <= |ps|
    ensures forall t :: t in KeyObservations(ranges, status, flat, ps) ==>
      exists p :: p in ps && (t == p + "_LOW" || t == p + "_HIGH")
  {
    if |ps| > 0 {
      var init := ps[..|ps| - 1];
      var p := ps[|ps| - 1];
      KeyObservationsShape(ranges, status, flat, init);
      var tok := KeyObservation(ranges, status, flat, p);
      assert tok.Some? ==> tok.value == p + "_LOW" || tok.value == p + "_HIGH" by {
        if GetOr(status, p, "") == "" && IsNumeric(GetOr(flat, p, VNone)) {
          var c := LabelFromRange(ranges, p, GetOr(flat, p, VNone), GetOr(flat, "age", VNone), GetOr(flat, "gender", VNone));
          FallbackTokens(p, c.grade);
        }
      }
      forall t | t in KeyObservations(ranges, status, flat, ps)
        ensures exists q :: q in ps && (t == q + "_LOW" || t == q + "_HIGH")
      {
        if t in KeyObservations(ranges, status, flat, init) {
          var q :| q in init && (t == q + "_LOW" || t == q + "_HIGH");
          assert q in ps;
        } else {
          assert p in ps;
        }
      }
    }
  }

  /** A token a key parameter yields is in the list. */
  lemma {:induction false} KeyObservationIncluded(ranges: RangeLookup, status: Dict<string>, flat: Dict<Value>, ps: seq<string>, j: nat)
    requires j < |ps| && KeyObservation(ranges, status, flat, ps[j]).Some?
    ensures KeyObservation(ranges, status, flat, ps[j]).value in KeyObservations(ranges, status, flat, ps)
  {
    if j < |ps| - 1 {
      var init := ps[..|ps| - 1];
      assert init[j] == ps[j];
      KeyObservationIncluded(ranges, status, flat, init, j);
    }
  }

  /** The pattern half holds exactly the support tokens of present
      patterns. */
  lemma {:induction false} PatternObservationsExact(pats: Patterns)
    ensures forall t :: t in PatternObservations(pats) <==>
      exists i :: 0 <= i < |pats| && pats[i].1.present && t in pats[i].1.support
  {
    if |pats| > 0 {
      var init := pats[..|pats| - 1];
      PatternObservationsExact(init);
      forall t
        ensures t in PatternObservations(pats) <==>
          exists i :: 0 <= i < |pats| && pats[i].1.present && t in pats[i].1.support
      {
        if t in PatternObservations(init) {
          var i :| 0 <= i < |init| && init[i].1.present && t in init[i].1.support;
          assert pats[i] == init[i];
        }
        if exists i :: 0 <= i < |pats| && pats[i].1.present && t in pats[i].1.support {
          var i :| 0 <= i < |pats| && pats[i].1.present && t in pats[i].1.support;
          if i < |init| {
            assert init[i] == pats[i];
          }
        }
      }
    }
  }

  /** A LOW status on Hemoglobin yields "Hemoglobin_LOW" among the key
      tokens. */
  lemma HemoglobinStatusLow(ranges: RangeLookup, status: Dict<string>, flat: Dict<Value>)
    requires GetOr(status, "Hemoglobin", "") == "LOW"
    ensures "Hemoglobin_LOW" in KeyObservations(ranges, status, flat, KeyParams)
  {
    assert Upper("LOW") == "LOW";
    assert "LOW"[..3] == "LOW";
    assert Contains(Upper("LOW"), "LOW");
    assert "Hemoglobin" + "_LOW" == "Hemoglobin_LOW";
    assert StatusToken("Hemoglobin", "LOW") == Some("Hemoglobin_LOW");
    assert KeyObservation(ranges, status, flat, "Hemoglobin") == Some("Hemoglobin_LOW");
    assert KeyParams[0] == "Hemoglobin";
    KeyObservationIncluded(ranges, status, flat, KeyParams, 0);
  }

  lemma TwiceInConcat(a: seq<string>, b: seq<string>, x: string)
    requires x in a && x in b
    ensures multiset(a + b)[x] >= 2
  {
    assert multiset(a + b) == multiset(a) + multiset(b);
  }

  /** The same token can be observed twice: a present pattern supporting
      "Hemoglobin_LOW" and a status flag saying LOW both add it. */
  lemma HemoglobinTwice(ranges: RangeLookup, pats: Patterns, status: Dict<string>, flat: Dict<Value>, i: nat)
    requires i < |pats| && pats[i].1.present && "Hemoglobin_LOW" in pats[i].1.support
    requires GetOr(status, "Hemoglobin", "") == "LOW"
    ensures multiset(Observations(ranges, pats, status, flat))["Hemoglobin_LOW"] >= 2
  {
    PatternObservationsExact(pats);
    HemoglobinStatusLow(ranges, status, flat);
    TwiceInConcat(PatternObservations(pats), KeyObservations(ranges, status, flat, KeyParams), "Hemoglobin_LOW");
  }

  /** missing_params lists None-valued parameters and nothing else. */
  lemma MissingExact(params: Dict<Value>, k: string)
    ensures k in MissingParams(params) <==> (k, VNone) in params
  {
  }

  /** Some entry for `k` holds an int/float value. */
  predicate NumericEntry(params: Dict<Value>, k: string) {
    exists i :: 0 <= i < |params| && params[i].0 == k && IsNumeric(params[i].1)
  }

  /** Some int/float entry for `e.0` is classified as `e.1`. */
  predicate ClassifiedEntry(ranges: RangeLookup, params: Dict<Value>, age: Value, gender: Value,
                            e: (string, Classification)) {
    exists i :: 0 <= i < |params| && params[i].0 == e.0 && IsNumeric(params[i].1)
      && e.1 == LabelFromRange(ranges, e.0, params[i].1, age, gender)
  }

  /** The severity map has exactly the int/float-valued parameters as keys. */
  lemma {:induction false} SeverityKeys(ranges: RangeLookup, params: Dict<Value>, age: Value, gender: Value, k: string)
    ensures HasKey(SeverityEntries(ranges, params, age, gender), k) <==> NumericEntry(params, k)
  {
    if |params| > 0 {
      var init := params[..|params| - 1];
      var before := SeverityEntries(ranges, init, age, gender);
      var (k1, v) := params[|params| - 1];
      SeverityKeys(ranges, init, age, gender, k);
      if IsNumeric(v) {
        var c := LabelFromRange(ranges, k1, v, age, gender);
        PutKeys(before, k1, c);
        assert HasKey(Put(before, k1, c), k) <==> k in Keys(Put(before, k1, c));
        assert HasKey(before, k) <==> k in Keys(before);
      }
      if NumericEntry(init, k) {
        var i :| 0 <= i < |init| && init[i].0 == k && IsNumeric(init[i].1);
        assert params[i] == init[i];
      }
      if NumericEntry(params, k) {
        var i :| 0 <= i < |params| && params[i].0 == k && IsNumeric(params[i].1);
        if i < |init| {
          assert init[i] == params[i];
        }
      }
    }
  }

  /** Each entry of the severity map classifies one of that parameter's
      int/float values. */
  lemma {:induction false} SeverityValues(ranges: RangeLookup, params: Dict<Value>, age: Value, gender: Value)
    ensures forall e :: e in SeverityEntries(ranges, params, age, gender) ==>
      ClassifiedEntry(ranges, params, age, gender, e)
  {
    if |params| > 0 {
      var init := params[..|params| - 1];
      var before := SeverityEntries(ranges, init, age, gender);
      var (k, v) := params[|params| - 1];
      SeverityValues(ranges, init, age, gender);
      if IsNumeric(v) {
        PutEntries(before, k, LabelFromRange(ranges, k, v, age, gender));
      }
      forall e | e in before
        ensures ClassifiedEntry(ranges, params, age, gender, e)
      {
        var i :| 0 <= i < |init| && init[i].0 == e.0 && IsNumeric(init[i].1)
          && e.1 == LabelFromRange(ranges, e.0, init[i].1, age, gender);
        assert params[i] == init[i];
      }
    }
  }

  /** Gender reaches the flat parameters only under the exact key
      "gender". */
  lemma FlatGender(m: Loaded)
    ensures HasKey(FlatParams(m), "gender") <==> HasKey(m.meta, "gender") || HasKey(m.parameters, "gender")
  {
    var withAge := match Get(m.meta, "age")
      case Some(a) => Put(m.parameters, "age", a)
      case None => m.parameters;
    if HasKey(m.meta, "age") {
      GetPutOther(m.parameters, "age", Get(m.meta, "age").value, "gender");
    }
    assert HasKey(withAge, "gender") <==> HasKey(m.parameters, "gender");
    if HasKey(m.meta, "gender") {
      PutGet(withAge, "gender", Get(m.meta, "gender").value);
    }
  }

  /** A CSV "gender" column is stored as "Gender", so it never reaches the
      flat parameters. */
  lemma CsvGenderDropped(acc: Loaded, cell: Option<string>)
    requires !HasKey(acc.meta, "gender") && !HasKey(acc.parameters, "gender")
    ensures !HasKey(FlatParams(RouteCsvColumn(acc, "gender", cell)), "gender")
  {
    var v := if cell.None? then VNone else VStr(CellText(cell));
    CsvGenderKey(acc, cell);
    GetPutOther(acc.meta, "Gender", v, "gender");
    FlatGender(RouteCsvColumn(acc, "gender", cell));
  }

  const OutputKeys: seq<string> :=
    ["metadata", "parameters", "status", "notes", "derived", "patterns",
     "probable_causes", "cardio", "severity", "confidence"]

  lemma OutputKeysDistinct()
    ensures forall i, j :: 0 <= i < j < |OutputKeys| ==> OutputKeys[i] != OutputKeys[j]
  {
  }

  /** Ten keys, "notes" fourth, and the disclaimer as its value: the second
      "notes" entry of the literal overrides the per-parameter notes. */
  lemma OutputNotes(p: Parts, render: Json -> string)
    ensures Keys(Output(p, render)) == OutputKeys
    ensures Get(Output(p, render), "notes") == Some(JStr(Disclaimer))
  {
    var es := OutputEntries(p, render);
    var first := es[..10];
    assert Keys(first) == OutputKeys;
    OutputKeysDistinct();
    DistinctLiteral(first);
    assert es[..10] == first && es[10] == ("notes", JStr(Disclaimer));
    assert first[3].0 == "notes";
    PutKeys(first, "notes", JStr(Disclaimer));
    PutGet(first, "notes", JStr(Disclaimer));
  }

  /** A literal with distinct keys is its own dict. */
  lemma {:induction false} DistinctLiteral(entries: seq<(string, Json)>)
    requires forall i, j :: 0 <= i < j < |entries| ==> Keys(entries)[i] != Keys(entries)[j]
    ensures DictLiteral(entries) == entries
  {
    if |entries| > 0 {
      var init := entries[..|entries| - 1];
      var last := entries[|entries| - 1];
      forall i, j | 0 <= i < j < |init|
        ensures Keys(init)[i] != Keys(init)[j]
      {
        assert Keys(init)[i] == Keys(entries)[i] && Keys(init)[j] == Keys(entries)[j];
      }
      DistinctLiteral(init);
      forall i | 0 <= i < |init|
        ensures init[i].0 != last.0
      {
        assert Keys(entries)[i] != Keys(entries)[|entries| - 1];
      }
      assert init + [last] == entries;
    }
  }

  /** `r` lays out the given sections in order: `head` first, then `pl`,
      `mid`, `cl` and `scores`, and `tail` last (an optional line may
      sit between `scores` and `tail`). */
  predicate Layout(r: seq<string>, head: seq<string>, pl: seq<string>, mid: seq<string>, cl: seq<string>,
                   scores: seq<string>, tail: seq<string>)
  {
    var p := |pl|;
    var c := |cl|;
    |head| == 3 && |mid| == 2 && |scores| == 3 && |tail| == 3 && 11 + p + c <= |r| &&
    r[..3] == head && r[3..3 + p] == pl && r[3 + p..5 + p] == mid && r[5 + p..5 + p + c] == cl &&
    r[5 + p + c..8 + p + c] == scores && r[|r| - 3..] == tail
  }

  /** The summary's sections come in the order `human_summary` appends
      them: the report line and the pattern header, the pattern lines, the
      cause header, the cause lines, the cardiovascular and confidence
      lines, and the notes last. */
  lemma SummaryOrder(out: Dict<Json>, render: Json -> string)
    ensures Layout(SummaryLines(out, render), SummaryHead(out, render), SummaryPatternLines(out, render),
                   ["", "Top Probable Causes:"], SummaryCauseLines(out, render), SummaryScores(out, render),
                   SummaryTail(out, render))
  {
    SectionsAt(SummaryLines(out, render), SummaryHead(out, render), SummaryPatternLines(out, render),
               ["", "Top Probable Causes:"], SummaryCauseLines(out, render), SummaryScores(out, render),
               SummaryExplanationLines(out, render), SummaryTail(out, render));
  }

  /** Where each section of the summary sits in the concatenation. */
  lemma SectionsAt(r: seq<string>, head: seq<string>, pl: seq<string>, mid: seq<string>, cl: seq<string>,
                   scores: seq<string>, expl: seq<string>, tail: seq<string>)
    requires r == head + pl + mid + cl + scores + expl + tail
    requires |head| == 3 && |mid| == 2 && |scores| == 3 && |tail| == 3
    ensures Layout(r, head, pl, mid, cl, scores, tail)
  {
  }

  /** The text splits back into its lines when no line holds a newline. */
  lemma SummaryRoundTrip(out: Dict<Json>, render: Json -> string)
    requires forall i :: 0 <= i < |SummaryLines(out, render)| ==> '\n' !in SummaryLines(out, render)[i]
    ensures Split(HumanSummary(out, render), '\n') == SummaryLines(out, render)
  {
    SplitJoinOn(SummaryLines(out, render), '\n');
  }

  /** Only the first five causes and the first two traces of each reach
      the report. */
  lemma CausesBeyondFiveIgnored(causes: seq<Json>, more: seq<Json>, render: Json -> string)
    requires |causes| >= 5
    ensures CauseLines(causes + more, render) == CauseLines(causes, render)
  {
    assert (causes + more)[..5] == causes[..5];
  }

  lemma TracesBeyondTwoIgnored(trace: seq<Json>, more: seq<Json>, render: Json -> string)
    requires |trace| >= 2
    ensures ShownTrace(JList(trace + more), render) == ShownTrace(JList(trace), render)
  {
    assert (trace + more)[..2] == trace[..2];
  }

  lemma SupportBeyondThreeIgnored(support: seq<Json>, more: seq<Json>, render: Json -> string)
    requires |support| >= 3
    ensures ShownSupport(JList(support + more), render) == ShownSupport(JList(support), render)
  {
    assert (support + more)[..3] == support[..3];
  }

  /** One pattern line per present pattern. */
  lemma {:induction false} PatternLinesCount(pats: seq<(string, Json)>, render: Json -> string)
    ensures |PatternLines(pats, render)| == PresentEntries(pats)
  {
    if |pats| > 0 {
      PatternLinesCount(pats[1..], render);
    }
  }
}
