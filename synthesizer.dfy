/** The organ-wise clinical summary of `synthesizer.py`
    (`synthesize_findings`): the abnormal parameters, the detected patterns
    with their risk scores, one interpretation paragraph per organ system
    that a pattern name points to, and the user context, as sections
    separated by blank lines. */
module Synthesizer {
  import opened Common

  /** One classified parameter; a missing unit is given as `VStr("")`. */
  datatype Classified = Classified(parameter: string, classification: string, value: Value, unit: Value)

  /** One detected pattern with its optional adjusted and plain risk
      scores (a key that is absent is `None`). */
  datatype Pattern = Pattern(name: string, adjusted: Option<Value>, risk: Option<Value>)

  const AbnormalHeader := "\U{1F9EA} **Key Abnormal Parameters Detected:**\n- "
  const AllNormalText := "\U{1F9EA} **All measured laboratory parameters are within normal reference ranges.**"
  const PatternHeader := "\U{1F9E0} **Detected Clinical Patterns:**\n- "
  const ConcernHeader := "\n" + "\U{26A0}\U{FE0F} **Higher concern patterns:** "
  const NoPatternText := "\U{1F9E0} **No significant clinical patterns detected.**"
  const ContextHeader := "\U{1F464}" + " **User Context Considered:** "

  // ---------------------------------------------------------------------
  // Parameters

  /** Only the exact classifications "Low" and "High" count as abnormal. */
  predicate IsAbnormal(c: Classified) {
    c.classification == "Low" || c.classification == "High"
  }

  /** `f"{Parameter} is {classification.lower()} ({Value} {Unit})"` */
  function AbnormalLine(c: Classified, show: Value -> string): string {
    c.parameter + " is " + Lower(c.classification) + " (" + Str(c.value, show) + " " + Str(c.unit, show) + ")"
  }

  /** The abnormality lines of the first loop, in input order. */
  function AbnormalLines(items: seq<Classified>, show: Value -> string): seq<string>
    decreases |items|
  {
    if |items| == 0 then []
    else
      var last := items[|items| - 1];
      AbnormalLines(items[..|items| - 1], show) + When(IsAbnormal(last), AbnormalLine(last, show))
  }

  // ---------------------------------------------------------------------
  // Patterns

  /** `p.get("Adjusted_Risk_Score", p.get("Risk_Score", "N/A"))`: the
      adjusted score when its key is present (even if it holds None), else
      the plain score, else "N/A". */
  function RiskOf(p: Pattern): Value {
    if p.adjusted.Some? then p.adjusted.value
    else if p.risk.Some? then p.risk.value
    else VStr("N/A")
  }

  /** The score as printed: a number rounded to two decimals (`round` of an
      int or a bool gives an int), anything else as `str` shows it. */
  function RiskText(risk: Value, show: Value -> string): string {
    match risk
    case VBool(b) => show(VInt(if b then 1 else 0))
    case VInt(i) => show(VInt(i))
    case VFloat(x) => show(VFloat(Round(x, 2)))
    case _ => Str(risk, show)
  }

  /** A numeric score of at least 0.7 marks a higher-concern pattern. */
  predicate HighRisk(p: Pattern) {
    IsNumeric(RiskOf(p)) && AsReal(RiskOf(p)) >= 0.7
  }

  function PatternLine(p: Pattern, show: Value -> string): string {
    p.name + " (Risk Score: " + RiskText(RiskOf(p), show) + ")"
  }

  /** The pattern lines of the second loop, one per pattern. */
  function PatternLines(ps: seq<Pattern>, show: Value -> string): (r: seq<string>)
    ensures |r| == |ps|
    ensures forall j :: 0 <= j < |ps| ==> r[j] == PatternLine(ps[j], show)
    decreases |ps|
  {
    if |ps| == 0 then []
    else PatternLines(ps[..|ps| - 1], show) + [PatternLine(ps[|ps| - 1], show)]
  }

  /** The names the second loop collects as higher concern, in order. */
  function HighRiskNames(ps: seq<Pattern>): seq<string>
    decreases |ps|
  {
    if |ps| == 0 then []
    else HighRiskNames(ps[..|ps| - 1]) + When(HighRisk(ps[|ps| - 1]), ps[|ps| - 1].name)
  }

  function Names(ps: seq<Pattern>): (r: seq<string>)
    ensures |r| == |ps| && forall j :: 0 <= j < |ps| ==> r[j] == ps[j].name
  {
    seq(|ps|, j requires 0 <= j < |ps| => ps[j].name)
  }

  // ---------------------------------------------------------------------
  // Organ systems

  /** An organ paragraph and the name fragments (case-sensitive) that call
      for it. */
  datatype Organ = Organ(cues: seq<string>, text: string)

  const BloodText := "\U{1FA78}" + " **Blood Health:** Findings suggest altered red blood cell or hemoglobin levels consistent with anemia-related patterns."
  const ImmuneText := "\U{1F9A0}" + " **Immune System:** White blood cell patterns indicate possible infection or immune activation."
  const GlucoseText := "\U{1F36C}" + " **Glucose Metabolism:** Blood sugar control appears impaired, suggesting dysglycemia or diabetes risk."
  const CardioText := "\U{1FAC0}" + " **Cardiovascular Risk:** Lipid profile patterns suggest increased cardiovascular risk factors."
  const KidneyText := "\U{1F7E4}" + " **Kidney Function:** Markers indicate possible reduced renal clearance or kidney stress."
  const LiverText := "\U{1F7E0}" + " **Liver Function:** Liver enzymes or bilirubin levels suggest hepatic stress or inflammation."
  const ThyroidText := "\U{1F7E1}" + " **Thyroid Function:** Thyroid hormone regulation may be altered."
  const ElectrolyteText := "\U{1F535}" + " **Electrolyte Balance:** Electrolyte disturbances may affect cardiac and neurological function."

  const Organs: seq<Organ> := [
    Organ(["Anemia"], BloodText),
    Organ(["Infection", "Leuk"], ImmuneText),
    Organ(["Diabetes", "Hyperglycemia"], GlucoseText),
    Organ(["Cholesterol", "Dyslipidemia", "Cardio"], CardioText),
    Organ(["Renal", "Kidney"], KidneyText),
    Organ(["Liver", "Hepatic"], LiverText),
    Organ(["Thyroid"], ThyroidText),
    Organ(["Electrolyte", "Sodium", "Potassium"], ElectrolyteText)
  ]

  /** `any(cue in p for p in names)` over the organ's cues. */
  predicate Fires(o: Organ, names: seq<string>) {
    exists p, c :: p in names && c in o.cues && Contains(p, c)
  }

  /** The paragraphs of the organs that fire, in table order. (Each
      paragraph is written as its symbol and the rest, so that its first
      character is easy to name.) */
  function Sections(table: seq<Organ>, names: seq<string>): (r: seq<string>)
    ensures |r| <= |table|
    decreases |table|
  {
    if |table| == 0 then []
    else When(Fires(table[0], names), table[0].text) + Sections(table[1..], names)
  }

  /** Every paragraph of the table opens with its own symbol. */
  predicate HeadsDistinct(table: seq<Organ>) {
    (forall i :: 0 <= i < |table| ==> |table[i].text| > 0)
    && forall i, j :: 0 <= i < j < |table| ==> table[i].text[0] != table[j].text[0]
  }

  /** Every section is the paragraph of some organ of the table that
      fires. */
  lemma {:induction false} SectionsFrom(table: seq<Organ>, names: seq<string>, s: string)
    requires s in Sections(table, names)
    ensures exists i :: 0 <= i < |table| && table[i].text == s && Fires(table[i], names)
    decreases |table|
  {
    var rest := Sections(table[1..], names);
    if s in When(Fires(table[0], names), table[0].text) {
      assert table[0].text == s;
    } else {
      assert s in rest;
      SectionsFrom(table[1..], names, s);
      var i :| 0 <= i < |table[1..]| && table[1..][i].text == s && Fires(table[1..][i], names);
      assert table[i + 1] == table[1..][i];
    }
  }

  /** An organ's paragraph appears exactly when one of its cues occurs in
      a pattern name. */
  lemma {:induction false} SectionsIff(table: seq<Organ>, names: seq<string>, i: nat)
    requires i < |table| && HeadsDistinct(table)
    ensures table[i].text in Sections(table, names) <==> Fires(table[i], names)
    decreases |table|
  {
    var head := When(Fires(table[0], names), table[0].text);
    var rest := Sections(table[1..], names);
    assert Sections(table, names) == head + rest;
    if i == 0 {
      forall s | s in rest
        ensures s != table[0].text
      {
        SectionsFrom(table[1..], names, s);
        var k :| 0 <= k < |table[1..]| && table[1..][k].text == s && Fires(table[1..][k], names);
        assert table[1..][k] == table[k + 1];
        assert s[0] != table[0].text[0];
      }
    } else {
      assert HeadsDistinct(table[1..]) by {
        forall a, b | 0 <= a < b < |table[1..]|
          ensures table[1..][a].text[0] != table[1..][b].text[0]
        {
          assert table[1..][a] == table[a + 1] && table[1..][b] == table[b + 1];
        }
      }
      assert table[1..][i - 1] == table[i];
      SectionsIff(table[1..], names, i - 1);
      assert table[i].text[0] != table[0].text[0];
    }
  }

  /** Two organs that both fire appear in table order. */
  lemma {:induction false} SectionsOrdered(table: seq<Organ>, names: seq<string>, i: nat, j: nat)
    requires i < j < |table| && HeadsDistinct(table)
    requires Fires(table[i], names) && Fires(table[j], names)
    ensures exists a, b ::
      && 0 <= a < b < |Sections(table, names)|
      && Sections(table, names)[a] == table[i].text && Sections(table, names)[b] == table[j].text
    decreases |table|
  {
    var head := When(Fires(table[0], names), table[0].text);
    var rest := Sections(table[1..], names);
    var r := Sections(table, names);
    assert r == head + rest;
    assert HeadsDistinct(table[1..]) by {
      forall a, b | 0 <= a < b < |table[1..]|
        ensures table[1..][a].text[0] != table[1..][b].text[0]
      {
        assert table[1..][a] == table[a + 1] && table[1..][b] == table[b + 1];
      }
    }
    assert table[1..][j - 1] == table[j];
    SectionsIff(table[1..], names, j - 1);
    var b :| 0 <= b < |rest| && rest[b] == table[j].text;
    if i == 0 {
      assert r[0] == table[0].text && r[1 + b] == table[j].text;
    } else {
      assert table[1..][i - 1] == table[i];
      SectionsOrdered(table[1..], names, i - 1, j - 1);
      var a', b' :| 0 <= a' < b' < |rest| && rest[a'] == table[i].text && rest[b'] == table[j].text;
      assert r[|head| + a'] == table[i].text && r[|head| + b'] == table[j].text;
    }
  }

  /** The symbol each organ paragraph opens with. */
  lemma TextHeads()
    ensures |BloodText| > 0 && BloodText[0] == '\U{1FA78}'
    ensures |ImmuneText| > 0 && ImmuneText[0] == '\U{1F9A0}'
    ensures |GlucoseText| > 0 && GlucoseText[0] == '\U{1F36C}'
    ensures |CardioText| > 0 && CardioText[0] == '\U{1FAC0}'
    ensures |KidneyText| > 0 && KidneyText[0] == '\U{1F7E4}'
    ensures |LiverText| > 0 && LiverText[0] == '\U{1F7E0}'
    ensures |ThyroidText| > 0 && ThyroidText[0] == '\U{1F7E1}'
    ensures |ElectrolyteText| > 0 && ElectrolyteText[0] == '\U{1F535}'
  {
  }

  /** The eight organ paragraphs open with eight different symbols. */
  lemma OrgansHeads()
    ensures HeadsDistinct(Organs)
  {
    TextHeads();
    EightHeads(Organs, '\U{1FA78}', '\U{1F9A0}', '\U{1F36C}', '\U{1FAC0}',
      '\U{1F7E4}', '\U{1F7E0}', '\U{1F7E1}', '\U{1F535}');
  }

  lemma EightHeads(t: seq<Organ>, c0: char, c1: char, c2: char, c3: char, c4: char, c5: char, c6: char, c7: char)
    requires |t| == 8 && forall i :: 0 <= i < 8 ==> |t[i].text| > 0
    requires t[0].text[0] == c0 && t[1].text[0] == c1 && t[2].text[0] == c2 && t[3].text[0] == c3
    requires t[4].text[0] == c4 && t[5].text[0] == c5 && t[6].text[0] == c6 && t[7].text[0] == c7
    requires c0 != c1 && c0 != c2 && c0 != c3 && c0 != c4 && c0 != c5 && c0 != c6 && c0 != c7
    requires c1 != c2 && c1 != c3 && c1 != c4 && c1 != c5 && c1 != c6 && c1 != c7
    requires c2 != c3 && c2 != c4 && c2 != c5 && c2 != c6 && c2 != c7
    requires c3 != c4 && c3 != c5 && c3 != c6 && c3 != c7
    requires c4 != c5 && c4 != c6 && c4 != c7
    requires c5 != c6 && c5 != c7 && c6 != c7
    ensures HeadsDistinct(t)
  {
  }

  // ---------------------------------------------------------------------
  // User context

  /** `f"{k.capitalize()}: {v}"` for every entry whose value is not None. */
  function ContextItems(ctx: Dict<Value>, show: Value -> string): seq<string>
    decreases |ctx|
  {
    if |ctx| == 0 then []
    else
      var last := ctx[|ctx| - 1];
      ContextItems(ctx[..|ctx| - 1], show) + When(last.1 != VNone, Capitalize(last.0) + ": " + Str(last.1, show))
  }

  /** The user-context section: present when the context is a non-empty
      dict with at least one value that is not None. */
  function ContextSection(ctx: Option<Dict<Value>>, show: Value -> string): seq<string> {
    if ctx.Some? && |ctx.value| > 0 then
      var items := ContextItems(ctx.value, show);
      When(|items| > 0, ContextHeader + Join(items, "; "))
    else []
  }

  // ---------------------------------------------------------------------
  // The summary

  /** The parameter section: the abnormal list, or the all-normal
      sentence. */
  function ParamSection(abn: seq<string>): string {
    if abn != [] then AbnormalHeader + Join(abn, "\n- ") else AllNormalText
  }

  /** The pattern sections: the pattern list and, when some pattern is of
      higher concern, the concern line; or the no-pattern sentence. */
  function PatternSection(pl: seq<string>, hr: seq<string>): seq<string> {
    if pl != [] then [PatternHeader + Join(pl, "\n- ")] + When(hr != [], ConcernHeader + Join(hr, ", "))
    else [NoPatternText]
  }

  /** The sections of the summary, in the order they are appended. */
  function Parts(items: seq<Classified>, ps: seq<Pattern>, ctx: Option<Dict<Value>>, show: Value -> string): seq<string> {
    Assemble(AbnormalLines(items, show), PatternLines(ps, show), HighRiskNames(ps),
      Sections(Organs, Names(ps)) + ContextSection(ctx, show))
  }

  /** The parameter section, the pattern sections, then the organ and
      context sections. */
  function Assemble(abn: seq<string>, pl: seq<string>, hr: seq<string>, tail: seq<string>): seq<string> {
    [ParamSection(abn)] + PatternSection(pl, hr) + tail
  }

  /** The first loop of `synthesize_findings`: one line per item
      classified "Low" or "High". */
  method CollectAbnormal(items: seq<Classified>, show: Value -> string) returns (abnormalities: seq<string>)
    ensures abnormalities == AbnormalLines(items, show)
  {
    abnormalities := [];
    var i := 0;
    while i < |items|
      invariant 0 <= i <= |items|
      invariant abnormalities == AbnormalLines(items[..i], show)
    {
      assert items[..i + 1][..i] == items[..i];
      var item := items[i];
      if item.classification == "Low" || item.classification == "High" {
        abnormalities := abnormalities + [AbnormalLine(item, show)];
      }
      i := i + 1;
    }
    assert items[..|items|] == items;
  }

  /** The second loop: a line per pattern, and the names of the patterns
      of higher concern. */
  method CollectPatterns(ps: seq<Pattern>, show: Value -> string) returns (patternList: seq<string>, highRisk: seq<string>)
    ensures patternList == PatternLines(ps, show)
    ensures highRisk == HighRiskNames(ps)
  {
    patternList := [];
    highRisk := [];
    var j := 0;
    while j < |ps|
      invariant 0 <= j <= |ps|
      invariant patternList == PatternLines(ps[..j], show)
      invariant highRisk == HighRiskNames(ps[..j])
    {
      assert ps[..j + 1][..j] == ps[..j];
      var risk := RiskOf(ps[j]);
      patternList := patternList + [ps[j].name + " (Risk Score: " + RiskText(risk, show) + ")"];
      if IsNumeric(risk) && AsReal(risk) >= 0.7 {
        highRisk := highRisk + [ps[j].name];
      }
      j := j + 1;
    }
    assert ps[..|ps|] == ps;
  }

  /** The parameter summary and the pattern summary. */
  method LeadingSections(abnormalities: seq<string>, patternList: seq<string>, highRisk: seq<string>)
    returns (parts: seq<string>)
    ensures parts == [ParamSection(abnormalities)] + PatternSection(patternList, highRisk)
  {
    if |abnormalities| > 0 {
      parts := [AbnormalHeader + Join(abnormalities, "\n- ")];
    } else {
      parts := [AllNormalText];
    }
    if |patternList| > 0 {
      parts := parts + [PatternHeader + Join(patternList, "\n- ")];
      if |highRisk| > 0 {
        parts := parts + [ConcernHeader + Join(highRisk, ", ")];
      }
    } else {
      parts := parts + [NoPatternText];
    }
  }

  /** `synthesize_findings(classified_data, patterns, user_context)`;
      `show` formats a value the way an f-string does. */
  method SynthesizeFindings(items: seq<Classified>, ps: seq<Pattern>, ctx: Option<Dict<Value>>,
                            show: Value -> string) returns (summary: string)
    ensures summary == Join(Parts(items, ps, ctx, show), "\n\n")
  {
    var abnormalities := CollectAbnormal(items, show);
    var patternList, highRisk := CollectPatterns(ps, show);

    var parts := LeadingSections(abnormalities, patternList, highRisk);
    ghost var sections := Sections(Organs, Names(ps));
    ghost var context := ContextSection(ctx, show);
    parts := parts + Sections(Organs, Names(ps));
    parts := parts + ContextSection(ctx, show);
    assert parts == Assemble(abnormalities, patternList, highRisk, sections + context);
    summary := Join(parts, "\n\n");
  }

  // ---------------------------------------------------------------------
  // Properties

  /** The abnormality lines describe exactly the items classified "Low" or
      "High", one line each, in input order. */
  lemma {:induction false} AbnormalLinesFilter(items: seq<Classified>, show: Value -> string)
    ensures |AbnormalLines(items, show)| == |Filter(items, IsAbnormal)|
    ensures forall j :: 0 <= j < |AbnormalLines(items, show)| ==>
      AbnormalLines(items, show)[j] == AbnormalLine(Filter(items, IsAbnormal)[j], show)
  {
    if |items| > 0 {
      var init := items[..|items| - 1];
      var last := items[|items| - 1];
      AbnormalLinesFilter(init, show);
      assert AbnormalLines(items, show) == AbnormalLines(init, show) + When(IsAbnormal(last), AbnormalLine(last, show));
      assert Filter(items, IsAbnormal) == Filter(init, IsAbnormal) + When(IsAbnormal(last), last);
    }
  }

  /** The higher-concern names are the names of exactly the patterns whose
      score is a number of at least 0.7, in input order. */
  lemma {:induction false} HighRiskFilter(ps: seq<Pattern>)
    ensures |HighRiskNames(ps)| == |Filter(ps, HighRisk)|
    ensures forall j :: 0 <= j < |HighRiskNames(ps)| ==> HighRiskNames(ps)[j] == Filter(ps, HighRisk)[j].name
  {
    if |ps| > 0 {
      var init := ps[..|ps| - 1];
      var last := ps[|ps| - 1];
      HighRiskFilter(init);
      assert HighRiskNames(ps) == HighRiskNames(init) + When(HighRisk(last), last.name);
      assert Filter(ps, HighRisk) == Filter(init, HighRisk) + When(HighRisk(last), last);
    }
  }

  /** The context items are the non-None entries, one each, in order. */
  lemma {:induction false} ContextItemsFilter(ctx: Dict<Value>, show: Value -> string)
    ensures |ContextItems(ctx, show)| == |Filter(ctx, Present)|
    ensures forall j :: 0 <= j < |ContextItems(ctx, show)| ==>
      ContextItems(ctx, show)[j] == Capitalize(Filter(ctx, Present)[j].0) + ": " + Str(Filter(ctx, Present)[j].1, show)
  {
    if |ctx| > 0 {
      var init := ctx[..|ctx| - 1];
      var last := ctx[|ctx| - 1];
      ContextItemsFilter(init, show);
      assert Filter(ctx, Present) == Filter(init, Present) + When(Present(last), last);
    }
  }

  predicate Present(e: (string, Value)) { e.1 != VNone }

  /** Exactly one of the abnormal list and the all-normal sentence opens the
      summary, and exactly one of the pattern list and the no-pattern
      sentence follows it; the concern line follows the pattern list
      exactly when some pattern is of higher concern. */
  lemma PartsShape(items: seq<Classified>, ps: seq<Pattern>, ctx: Option<Dict<Value>>, show: Value -> string)
    ensures var r := Parts(items, ps, ctx, show);
      && |r| >= 2
      && (r[0] == AllNormalText <==> Filter(items, IsAbnormal) == [])
      && (StartsWith(r[0], AbnormalHeader) <==> Filter(items, IsAbnormal) != [])
      && (r[1] == NoPatternText <==> ps == [])
      && (StartsWith(r[1], PatternHeader) <==> ps != [])
      && (ps != [] ==> (|r| > 2 && StartsWith(r[2], ConcernHeader) <==> Filter(ps, HighRisk) != []))
  {
    AbnormalLinesFilter(items, show);
    HighRiskFilter(ps);
    var tail := Sections(Organs, Names(ps)) + ContextSection(ctx, show);
    SectionsNotConcern(Organs, Names(ps));
    ContextNotConcern(ctx, show);
    AssembleShape(AbnormalLines(items, show), PatternLines(ps, show), HighRiskNames(ps), tail);
  }

  /** The shape of the assembled sections, for any section contents. */
  lemma AssembleShape(abn: seq<string>, pl: seq<string>, hr: seq<string>, tail: seq<string>)
    requires forall s :: s in tail ==> !StartsWith(s, ConcernHeader)
    ensures var r := Assemble(abn, pl, hr, tail);
      && |r| >= 2
      && (r[0] == AllNormalText <==> abn == [])
      && (StartsWith(r[0], AbnormalHeader) <==> abn != [])
      && (r[1] == NoPatternText <==> pl == [])
      && (StartsWith(r[1], PatternHeader) <==> pl != [])
      && (pl != [] ==> (|r| > 2 && StartsWith(r[2], ConcernHeader) <==> hr != []))
  {
    ParamShape(abn);
    PatternShape(pl, hr, tail);
    var rest := PatternSection(pl, hr) + tail;
    var r := Assemble(abn, pl, hr, tail);
    assert r == [ParamSection(abn)] + rest;
    assert r[1..] == rest;
  }

  /** Exactly one of the abnormal list and the all-normal sentence. */
  lemma ParamShape(abn: seq<string>)
    ensures ParamSection(abn) == AllNormalText <==> abn == []
    ensures StartsWith(ParamSection(abn), AbnormalHeader) <==> abn != []
  {
    HeadersDiffer();
    if abn != [] {
      assert (AbnormalHeader + Join(abn, "\n- "))[..|AbnormalHeader|] == AbnormalHeader;
    }
  }

  /** Exactly one of the pattern list and the no-pattern sentence, then the
      concern line exactly when there are names of higher concern, given
      that nothing after it looks like a concern line. */
  lemma PatternShape(pl: seq<string>, hr: seq<string>, tail: seq<string>)
    requires forall s :: s in tail ==> !StartsWith(s, ConcernHeader)
    ensures var r := PatternSection(pl, hr) + tail;
      && |r| >= 1
      && (r[0] == NoPatternText <==> pl == [])
      && (StartsWith(r[0], PatternHeader) <==> pl != [])
      && (pl != [] ==> (|r| > 1 && StartsWith(r[1], ConcernHeader) <==> hr != []))
  {
    HeadersDiffer();
    if pl != [] {
      assert (PatternHeader + Join(pl, "\n- "))[..|PatternHeader|] == PatternHeader;
      if hr != [] {
        assert (ConcernHeader + Join(hr, ", "))[..|ConcernHeader|] == ConcernHeader;
      } else if |tail| > 0 {
        assert tail[0] in tail;
      }
    }
  }

  /** The fixed openings tell the sections apart. */
  lemma HeadersDiffer()
    ensures !StartsWith(AllNormalText, AbnormalHeader) && AllNormalText != AbnormalHeader
    ensures !StartsWith(NoPatternText, PatternHeader)
  {
    assert AllNormalText[41] != AbnormalHeader[41];
    assert NoPatternText[35] != PatternHeader[35];
  }

  /** No organ paragraph starts like the concern line. */
  lemma {:induction false} SectionsNotConcern(table: seq<Organ>, names: seq<string>)
    requires forall o :: o in table ==> o in Organs
    ensures forall s :: s in Sections(table, names) ==> !StartsWith(s, ConcernHeader)
  {
    forall s | s in Sections(table, names)
      ensures !StartsWith(s, ConcernHeader)
    {
      SectionsFrom(table, names, s);
      var i :| 0 <= i < |table| && table[i].text == s && Fires(table[i], names);
      assert table[i] in Organs;
      OrganNotConcern(table[i]);
    }
  }

  lemma OrganNotConcern(o: Organ)
    requires o in Organs
    ensures !StartsWith(o.text, ConcernHeader)
  {
    assert ConcernHeader[0] == '\n';
    TextHeads();
  }

  /** The user-context line does not start like the concern line. */
  lemma ContextNotConcern(ctx: Option<Dict<Value>>, show: Value -> string)
    ensures forall s :: s in ContextSection(ctx, show) ==> !StartsWith(s, ConcernHeader)
  {
    assert ConcernHeader[0] == '\n' && ContextHeader[0] != '\n';
    if ctx.Some? && |ctx.value| > 0 {
      var items := ContextItems(ctx.value, show);
      assert (ContextHeader + Join(items, "; "))[0] == ContextHeader[0];
    }
  }

  /** Each organ paragraph appears exactly when one of its name fragments
      occurs in some pattern name. */
  lemma OrganSectionIff(ps: seq<Pattern>, i: nat)
    requires i < |Organs|
    ensures Organs[i].text in Sections(Organs, Names(ps)) <==>
      exists p, c :: p in ps && c in Organs[i].cues && Contains(p.name, c)
  {
    OrgansHeads();
    SectionsIff(Organs, Names(ps), i);
    var names := Names(ps);
    if Fires(Organs[i], names) {
      var n, c :| n in names && c in Organs[i].cues && Contains(n, c);
      var k :| 0 <= k < |names| && names[k] == n;
      assert ps[k] in ps && Contains(ps[k].name, c);
    }
    if exists p, c :: p in ps && c in Organs[i].cues && Contains(p.name, c) {
      var p, c :| p in ps && c in Organs[i].cues && Contains(p.name, c);
      var k :| 0 <= k < |ps| && ps[k] == p;
      assert names[k] in names;
    }
  }
}
