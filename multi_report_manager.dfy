/**
 * Comparison of several analysed reports held by one session: the
 * parameters every report shares, the report-to-report change of a shared
 * parameter, the overall trend of each parameter, the sorting of trends
 * into improving, worsening, stable and mixed, the overall assessment, and
 * the most significant changes.
 */
module MultiReportManager {
  import opened Common
  import opened Numeric

  /** The part of one report's analysis result that the comparison reads:
      its `validated_data`, parameter name to parameter record. */
  datatype Analysis = Analysis(validated: Dict<Dict<Value>>)

  /** The keys of a dict, as a set (`set(d.keys())`). */
  function KeySet<V>(d: Dict<V>): (ks: set<string>)
    ensures forall k :: k in ks <==> HasKey(d, k)
  {
    set i | 0 <= i < |d| :: d[i].0
  }

  // ---------------------------------------------------------------------
  // Common parameters

  /** The keys shared by the analyses stored so far, intersected left to
      right starting from the first analysis. */
  function SharedKeys(rs: Dict<Analysis>): set<string>
    requires |rs| > 0
  {
    if |rs| == 1 then KeySet(rs[0].1.validated)
    else SharedKeys(rs[..|rs| - 1]) * KeySet(rs[|rs| - 1].1.validated)
  }

  /** What `_find_common_parameters` returns: nothing without reports. */
  function CommonParameters(rs: Dict<Analysis>): set<string> {
    if |rs| == 0 then {} else SharedKeys(rs)
  }

  /** `p` is a parameter of every stored analysis. */
  predicate InAll(rs: Dict<Analysis>, p: string) {
    forall i :: 0 <= i < |rs| ==> HasKey(rs[i].1.validated, p)
  }

  lemma {:induction false} SharedKeysIff(rs: Dict<Analysis>, p: string)
    requires |rs| > 0
    ensures p in SharedKeys(rs) <==> InAll(rs, p)
  {
    if |rs| > 1 {
      var init := rs[..|rs| - 1];
      SharedKeysIff(init, p);
      assert forall i :: 0 <= i < |init| ==> init[i] == rs[i];
    }
  }

  /** A parameter is common exactly when there is at least one report and
      every report has it. */
  lemma CommonParametersIff(rs: Dict<Analysis>, p: string)
    ensures p in CommonParameters(rs) <==> |rs| > 0 && InAll(rs, p)
  {
    if |rs| > 0 {
      SharedKeysIff(rs, p);
    }
  }

  // ---------------------------------------------------------------------
  // Comparing one parameter across reports

  /** One numeric value of a parameter in one report. */
  datatype Reading = Reading(reportId: string, value: real, unit: Value, status: Value)

  /** The record of `param` in the analysis stored under `id`, or the empty
      record when the report lacks the parameter. */
  function RecordIn(rs: Dict<Analysis>, param: string, id: string): Dict<Value>
    requires HasKey(rs, id)
  {
    GetOr(Get(rs, id).value.validated, param, [])
  }

  /** The reading of `param` in report `id`: `float` of the record's value,
      where a missing value reads as 0; nothing when `float` fails. The unit
      defaults to "" and the status to "UNKNOWN". */
  function ReadingIn(rs: Dict<Analysis>, param: string, id: string): (r: Option<Reading>)
    requires HasKey(rs, id)
    ensures r.Some? ==> r.value.reportId == id
    ensures !HasKey(RecordIn(rs, param, id), "value") ==> r.Some? && r.value.value == 0.0
    ensures GetOr(RecordIn(rs, param, id), "value", VInt(0)).VNone? ==> r.None?
  {
    var record := RecordIn(rs, param, id);
    match ValueToFloat(GetOr(record, "value", VInt(0)))
    case None => None
    case Some(v) =>
      Some(Reading(id, v, GetOr(record, "unit", VStr("")), GetOr(record, "status", VStr("UNKNOWN"))))
  }

  /** Every listed report id has a stored analysis. */
  predicate AllStored(rs: Dict<Analysis>, ids: seq<string>) {
    forall i :: 0 <= i < |ids| ==> HasKey(rs, ids[i])
  }

  /** The readings of `param`, one per report whose value converts, in the
      order of `ids`. */
  function ReadingsOf(rs: Dict<Analysis>, param: string, ids: seq<string>): (r: seq<Reading>)
    requires AllStored(rs, ids)
    ensures |r| <= |ids|
    ensures forall k :: 0 <= k < |r| ==> r[k].reportId in ids
  {
    if |ids| == 0 then []
    else
      var init := ids[..|ids| - 1];
      assert forall i :: 0 <= i < |init| ==> init[i] == ids[i];
      var rest := ReadingsOf(rs, param, init);
      assert forall k :: 0 <= k < |rest| ==> rest[k].reportId in ids;
      match ReadingIn(rs, param, ids[|ids| - 1])
      case None => rest
      case Some(x) => rest + [x]
  }

  /** How a value moved between two consecutive readings ('increase',
      'decrease' or 'stable'). */
  datatype ChangeType = Increase | Decrease | NoChange

  datatype Change = Change(
    fromReport: string, toReport: string,
    fromValue: real, toValue: real,
    absoluteChange: real, percentChange: real,
    changeType: ChangeType)

  /** The percentage change from `prev` to `curr`, 0 when `prev` is 0. */
  function PercentChange(prev: real, curr: real): real {
    if prev != 0.0 then (curr - prev) / prev * 100.0 else 0.0
  }

  /** More than 5% up is an increase, more than 5% down a decrease. */
  function ChangeTypeOf(pct: real): ChangeType {
    if pct > 5.0 then Increase
    else if pct < -5.0 then Decrease
    else NoChange
  }

  /** The change between two consecutive readings. The percentage is
      reported rounded to two places; the type uses the exact percentage. */
  function ChangeBetween(a: Reading, b: Reading): Change {
    var pct := PercentChange(a.value, b.value);
    Change(a.reportId, b.reportId, a.value, b.value, b.value - a.value,
           Round(pct, 2), ChangeTypeOf(pct))
  }

  /** One change per pair of consecutive readings. */
  function Changes(vs: seq<Reading>): seq<Change> {
    if |vs| == 0 then []
    else seq(|vs| - 1, i requires 0 <= i < |vs| - 1 => ChangeBetween(vs[i], vs[i + 1]))
  }

  /** The type of a change, in terms of the two values: from a positive
      value, an increase means rising above 105% and a decrease falling
      below 95%; from a negative value the directions swap; from 0 nothing
      ever changes. */
  lemma ChangeTypeIff(a: Reading, b: Reading)
    ensures var t := ChangeBetween(a, b).changeType;
      && (a.value > 0.0 ==>
            && (t == Increase <==> 20.0 * b.value > 21.0 * a.value)
            && (t == Decrease <==> 20.0 * b.value < 19.0 * a.value))
      && (a.value < 0.0 ==>
            && (t == Increase <==> 20.0 * b.value < 21.0 * a.value)
            && (t == Decrease <==> 20.0 * b.value > 19.0 * a.value))
      && (a.value == 0.0 ==> t == NoChange)
  {
    var p, c := a.value, b.value;
    if p != 0.0 {
      var pct := (c - p) / p * 100.0;
      assert pct * p == (c - p) * 100.0;
      if p > 0.0 {
        assert pct > 5.0 <==> pct * p > 5.0 * p;
        assert pct < -5.0 <==> pct * p < -5.0 * p;
      } else {
        assert pct > 5.0 <==> pct * p < 5.0 * p;
        assert pct < -5.0 <==> pct * p > -5.0 * p;
      }
    }
  }

  /** The overall direction of a parameter ('increasing', 'decreasing' or
      'stable'). */
  datatype Trend = Increasing | Decreasing | Stable

  function CountType(cs: seq<Change>, t: ChangeType): (n: nat)
    ensures n <= |cs|
  {
    if |cs| == 0 then 0
    else CountType(cs[..|cs| - 1], t) + (if cs[|cs| - 1].changeType == t then 1 else 0)
  }

  /** `_determine_overall_trend`: the strict majority of increases over
      decreases, or the reverse; stable on a tie and without changes. */
  function OverallTrend(cs: seq<Change>): Trend {
    if |cs| == 0 then Stable
    else if CountType(cs, Increase) > CountType(cs, Decrease) then Increasing
    else if CountType(cs, Decrease) > CountType(cs, Increase) then Decreasing
    else Stable
  }

  /** The same change in the opposite direction. */
  function MirrorChange(c: Change): Change {
    c.(changeType := match c.changeType
                     case Increase => Decrease
                     case Decrease => Increase
                     case NoChange => NoChange)
  }

  function MirrorChanges(cs: seq<Change>): (r: seq<Change>)
    ensures |r| == |cs|
  {
    seq(|cs|, i requires 0 <= i < |cs| => MirrorChange(cs[i]))
  }

  function FlipTrend(t: Trend): Trend {
    match t
    case Increasing => Decreasing
    case Decreasing => Increasing
    case Stable => Stable
  }

  lemma {:induction false} CountMirror(cs: seq<Change>)
    ensures CountType(MirrorChanges(cs), Increase) == CountType(cs, Decrease)
    ensures CountType(MirrorChanges(cs), Decrease) == CountType(cs, Increase)
  {
    if |cs| > 0 {
      var init := cs[..|cs| - 1];
      CountMirror(init);
      assert MirrorChanges(cs)[..|cs| - 1] == MirrorChanges(init);
    }
  }

  /** The trend is symmetric: reversing every change reverses the trend,
      and a tie stays stable. */
  lemma TrendMirror(cs: seq<Change>)
    ensures OverallTrend(MirrorChanges(cs)) == FlipTrend(OverallTrend(cs))
  {
    CountMirror(cs);
  }

  /** One compared parameter (`_compare_parameter_across_reports`). */
  datatype Comparison = Comparison(
    parameterName: string, values: seq<Reading>, changes: seq<Change>,
    unit: Value, trend: Trend)

  /** The comparison of `param` over the reports `ids`, or nothing when
      fewer than two of them have a numeric value. */
  function CompareSpec(rs: Dict<Analysis>, param: string, ids: seq<string>): Option<Comparison>
    requires AllStored(rs, ids)
  {
    var vs := ReadingsOf(rs, param, ids);
    if |vs| < 2 then None
    else
      var cs := Changes(vs);
      Some(Comparison(param, vs, cs, vs[0].unit, OverallTrend(cs)))
  }

  /** Each change runs from one reading to the next, and its absolute
      change is their difference. */
  predicate Linked(vs: seq<Reading>, cs: seq<Change>) {
    && |cs| == |vs| - 1
    && forall k :: 0 <= k < |cs| ==>
         && cs[k].fromReport == vs[k].reportId
         && cs[k].toReport == vs[k + 1].reportId
         && cs[k].absoluteChange == vs[k + 1].value - vs[k].value
  }

  lemma ChangesLinked(vs: seq<Reading>)
    requires |vs| > 0
    ensures Linked(vs, Changes(vs))
  {
    var cs := Changes(vs);
    forall k | 0 <= k < |cs|
      ensures cs[k] == ChangeBetween(vs[k], vs[k + 1])
    {
    }
  }

  /** A comparison exists exactly when at least two reports have a numeric
      value; it keeps those readings in report order, one change fewer
      than readings, each from one report to the next, and the unit of the
      first reading. */
  lemma CompareShape(rs: Dict<Analysis>, param: string, ids: seq<string>)
    requires AllStored(rs, ids)
    ensures var c := CompareSpec(rs, param, ids);
      && (c.None? <==> |ReadingsOf(rs, param, ids)| < 2)
      && (c.Some? ==>
            && c.value.values == ReadingsOf(rs, param, ids)
            && Linked(c.value.values, c.value.changes)
            && c.value.unit == c.value.values[0].unit)
  {
    var vs := ReadingsOf(rs, param, ids);
    if |vs| >= 2 {
      ChangesLinked(vs);
    }
  }

  // ---------------------------------------------------------------------
  // Trend analysis

  /** `_is_improvement`: falling cholesterol or glucose, or rising
      hemoglobin, judged on the lower-cased name. */
  predicate IsImprovement(name: string, t: Trend) {
    var n := Lower(name);
    || (Contains(n, "cholesterol") && t == Decreasing)
    || (Contains(n, "glucose") && t == Decreasing)
    || (Contains(n, "hemoglobin") && t == Increasing)
  }

  /** `_is_worsening`: the mirror of `IsImprovement`. */
  predicate IsWorsening(name: string, t: Trend) {
    var n := Lower(name);
    || (Contains(n, "cholesterol") && t == Increasing)
    || (Contains(n, "glucose") && t == Increasing)
    || (Contains(n, "hemoglobin") && t == Decreasing)
  }

  /** Worsening is improvement in the opposite direction. */
  lemma WorseningMirror(name: string, t: Trend)
    ensures IsWorsening(name, t) <==> IsImprovement(name, FlipTrend(t))
  {
  }

  /** The four lists of `_analyze_trends`. */
  datatype Group = StableGroup | ImprovingGroup | WorseningGroup | MixedGroup

  /** Stable first, then improvement, then worsening, else mixed. */
  function Classify(name: string, t: Trend): Group {
    if t == Stable then StableGroup
    else if IsImprovement(name, t) then ImprovingGroup
    else if IsWorsening(name, t) then WorseningGroup
    else MixedGroup
  }

  /** For a name that mentions hemoglobin together with cholesterol or
      glucose, a falling trend counts as improving, not worsening, because
      improvement is tested first. For any other name a trend and its
      reverse land in mirrored groups. */
  lemma ClassifyMirror(name: string, t: Trend)
    requires var n := Lower(name);
      !(Contains(n, "hemoglobin") && (Contains(n, "cholesterol") || Contains(n, "glucose")))
    ensures Classify(name, t) == ImprovingGroup <==> Classify(name, FlipTrend(t)) == WorseningGroup
    ensures Classify(name, t) == MixedGroup <==> Classify(name, FlipTrend(t)) == MixedGroup
  {
  }

  function GroupOf(e: (string, Comparison)): Group {
    Classify(e.0, e.1.trend)
  }

  /** The names in group `g`, in comparison order. */
  function Grouped(cs: Dict<Comparison>, g: Group): seq<string> {
    if |cs| == 0 then []
    else Grouped(cs[..|cs| - 1], g) + (if GroupOf(cs[|cs| - 1]) == g then [cs[|cs| - 1].0] else [])
  }

  /** A name is in group `g` exactly when some comparison of that name
      falls into `g`. */
  lemma {:induction false} GroupedMembers(cs: Dict<Comparison>, g: Group, x: string)
    ensures x in Grouped(cs, g) <==> exists j :: 0 <= j < |cs| && cs[j].0 == x && GroupOf(cs[j]) == g
  {
    if |cs| > 0 {
      var init := cs[..|cs| - 1];
      GroupedMembers(init, g, x);
      assert forall j :: 0 <= j < |init| ==> init[j] == cs[j];
      if exists j :: 0 <= j < |cs| && cs[j].0 == x && GroupOf(cs[j]) == g {
        var j :| 0 <= j < |cs| && cs[j].0 == x && GroupOf(cs[j]) == g;
        if j < |init| {
          assert init[j] == cs[j];
        }
      }
    }
  }

  /** The four groups together hold every comparison once. */
  lemma {:induction false} GroupedCount(cs: Dict<Comparison>)
    ensures |Grouped(cs, StableGroup)| + |Grouped(cs, ImprovingGroup)|
          + |Grouped(cs, WorseningGroup)| + |Grouped(cs, MixedGroup)| == |cs|
  {
    if |cs| > 0 {
      GroupedCount(cs[..|cs| - 1]);
    }
  }

  /** With distinct parameter names, each parameter lands in exactly the
      group its trend selects. */
  lemma GroupPartition(cs: Dict<Comparison>, i: nat)
    requires DistinctKeys(cs) && i < |cs|
    ensures forall g :: cs[i].0 in Grouped(cs, g) <==> g == GroupOf(cs[i])
  {
    forall g
      ensures cs[i].0 in Grouped(cs, g) <==> g == GroupOf(cs[i])
    {
      GroupedMembers(cs, g, cs[i].0);
    }
  }

  /** The result of `_analyze_trends`. */
  datatype TrendAnalysis = TrendAnalysis(
    improving: seq<string>, worsening: seq<string>,
    stable: seq<string>, mixed: seq<string>,
    totalParameters: nat, reportSpan: string)

  function TrendAnalysisSpec(cs: Dict<Comparison>, reportIds: seq<string>): TrendAnalysis
    requires |reportIds| > 0
  {
    TrendAnalysis(Grouped(cs, ImprovingGroup), Grouped(cs, WorseningGroup),
                  Grouped(cs, StableGroup), Grouped(cs, MixedGroup),
                  |cs|, reportIds[0] + " to " + reportIds[|reportIds| - 1])
  }

  /** `_analyze_trends`: one pass over the comparisons, appending each
      parameter name to the list of its group. */
  method AnalyzeTrends(cs: Dict<Comparison>, reportIds: seq<string>) returns (r: TrendAnalysis)
    requires |reportIds| > 0
    ensures r == TrendAnalysisSpec(cs, reportIds)
  {
    var improving, worsening, stable, mixed := [], [], [], [];
    var i := 0;
    while i < |cs|
      invariant 0 <= i <= |cs|
      invariant improving == Grouped(cs[..i], ImprovingGroup)
      invariant worsening == Grouped(cs[..i], WorseningGroup)
      invariant stable == Grouped(cs[..i], StableGroup)
      invariant mixed == Grouped(cs[..i], MixedGroup)
    {
      var (name, comparison) := cs[i];
      assert cs[..i + 1][..i] == cs[..i];
      if comparison.trend == Stable {
        stable := stable + [name];
      } else if IsImprovement(name, comparison.trend) {
        improving := improving + [name];
      } else if IsWorsening(name, comparison.trend) {
        worsening := worsening + [name];
      } else {
        mixed := mixed + [name];
      }
      i := i + 1;
    }
    assert cs[..|cs|] == cs;
    r := TrendAnalysis(improving, worsening, stable, mixed, |cs|,
                       reportIds[0] + " to " + reportIds[|reportIds| - 1]);
  }

  // ---------------------------------------------------------------------
  // Overall assessment

  /** 'improving', 'declining' or 'stable'. */
  datatype Assessment = Improving | Declining | Steady

  /** `_get_overall_assessment`: the larger of the improving and
      worsening groups decides; a tie is stable. */
  function OverallAssessment(t: TrendAnalysis): Assessment {
    if |t.improving| > |t.worsening| then Improving
    else if |t.worsening| > |t.improving| then Declining
    else Steady
  }

  /** Swapping the improving and worsening groups swaps the assessment. */
  lemma AssessmentMirror(t: TrendAnalysis)
    ensures var s := t.(improving := t.worsening, worsening := t.improving);
      && (OverallAssessment(t) == Improving <==> OverallAssessment(s) == Declining)
      && (OverallAssessment(t) == Steady <==> OverallAssessment(s) == Steady)
  {
  }

  /** Without compared parameters the assessment is stable. */
  lemma AssessmentEmpty(reportIds: seq<string>)
    requires |reportIds| > 0
    ensures OverallAssessment(TrendAnalysisSpec([], reportIds)) == Steady
  {
  }

  // ---------------------------------------------------------------------
  // Key changes

  /** One entry of `_get_key_changes`. */
  datatype KeyChange = KeyChange(
    parameter: string, changeType: ChangeType, percentChange: real,
    fromReport: string, toReport: string)

  /** The sort key: the size of the rounded percentage. */
  function Magnitude(k: KeyChange): real {
    Abs(k.percentChange)
  }

  function KeyOf(name: string, c: Change): KeyChange {
    KeyChange(name, c.changeType, c.percentChange, c.fromReport, c.toReport)
  }

  /** The changes of one parameter whose rounded percentage exceeds 10 in
      size, in order. */
  function Significant(name: string, cs: seq<Change>): (r: seq<KeyChange>)
    ensures forall k :: 0 <= k < |r| ==> Magnitude(r[k]) > 10.0 && r[k].parameter == name
  {
    if |cs| == 0 then []
    else
      var c := cs[|cs| - 1];
      Significant(name, cs[..|cs| - 1]) + (if Abs(c.percentChange) > 10.0 then [KeyOf(name, c)] else [])
  }

  /** The significant changes of every comparison, in comparison order. */
  function AllSignificant(comps: Dict<Comparison>): (r: seq<KeyChange>)
    ensures forall k :: 0 <= k < |r| ==> Magnitude(r[k]) > 10.0
  {
    if |comps| == 0 then []
    else
      var e := comps[|comps| - 1];
      AllSignificant(comps[..|comps| - 1]) + Significant(e.0, e.1.changes)
  }

  /** A key change of a parameter is exactly a change of it whose rounded
      percentage exceeds 10 in size. */
  lemma {:induction false} SignificantIff(name: string, cs: seq<Change>, x: KeyChange)
    ensures x in Significant(name, cs) <==>
      exists j :: 0 <= j < |cs| && Abs(cs[j].percentChange) > 10.0 && x == KeyOf(name, cs[j])
  {
    if |cs| > 0 {
      var init := cs[..|cs| - 1];
      SignificantIff(name, init, x);
      assert forall j :: 0 <= j < |init| ==> init[j] == cs[j];
      if exists j :: 0 <= j < |cs| && Abs(cs[j].percentChange) > 10.0 && x == KeyOf(name, cs[j]) {
        var j :| 0 <= j < |cs| && Abs(cs[j].percentChange) > 10.0 && x == KeyOf(name, cs[j]);
        if j < |init| {
          assert init[j] == cs[j];
        }
      }
    }
  }

  /** Sizes never increase along the sequence. */
  predicate SortedDesc(s: seq<KeyChange>) {
    forall i, j :: 0 <= i < j < |s| ==> Magnitude(s[i]) >= Magnitude(s[j])
  }

  /** Insertion of `x` ahead of the first entry that is not larger, so that
      equal entries keep their original order. */
  function Insert(x: KeyChange, t: seq<KeyChange>): (r: seq<KeyChange>)
    ensures multiset(r) == multiset(t) + multiset{x}
  {
    if |t| == 0 || Magnitude(x) >= Magnitude(t[0]) then [x] + t
    else
      assert t == [t[0]] + t[1..];
      [t[0]] + Insert(x, t[1..])
  }

  /** `sort(key=abs(percent_change), reverse=True)`, stable. */
  function SortDesc(s: seq<KeyChange>): (r: seq<KeyChange>)
    ensures multiset(r) == multiset(s)
  {
    if |s| == 0 then []
    else
      assert s == [s[0]] + s[1..];
      Insert(s[0], SortDesc(s[1..]))
  }

  /** Dropping the head keeps a sequence sorted. */
  lemma SortedTail(t: seq<KeyChange>)
    requires |t| > 0 && SortedDesc(t)
    ensures SortedDesc(t[1..])
  {
    var rest := t[1..];
    forall i, j | 0 <= i < j < |rest|
      ensures Magnitude(rest[i]) >= Magnitude(rest[j])
    {
      assert rest[i] == t[i + 1] && rest[j] == t[j + 1];
    }
  }

  /** Inserting keeps every entry within a common bound. */
  lemma InsertBounded(x: KeyChange, t: seq<KeyChange>, b: real)
    requires Magnitude(x) <= b
    requires forall k :: 0 <= k < |t| ==> Magnitude(t[k]) <= b
    ensures forall k :: 0 <= k < |Insert(x, t)| ==> Magnitude(Insert(x, t)[k]) <= b
  {
    var ins := Insert(x, t);
    forall k | 0 <= k < |ins|
      ensures Magnitude(ins[k]) <= b
    {
      var y := ins[k];
      assert y in multiset(ins);
      if y != x {
        assert y in multiset(t);
        var m :| 0 <= m < |t| && t[m] == y;
      }
    }
  }

  /** A sorted sequence stays sorted when one more entry goes in front of
      entries no larger than it. */
  lemma SortedCons(h: KeyChange, s: seq<KeyChange>)
    requires SortedDesc(s)
    requires forall k :: 0 <= k < |s| ==> Magnitude(s[k]) <= Magnitude(h)
    ensures SortedDesc([h] + s)
  {
    var r := [h] + s;
    forall i, j | 0 <= i < j < |r|
      ensures Magnitude(r[i]) >= Magnitude(r[j])
    {
      assert r[j] == s[j - 1];
      if i > 0 {
        assert r[i] == s[i - 1];
      }
    }
  }

  lemma {:induction false} InsertSorted(x: KeyChange, t: seq<KeyChange>)
    requires SortedDesc(t)
    ensures SortedDesc(Insert(x, t))
  {
    if |t| == 0 || Magnitude(x) >= Magnitude(t[0]) {
      SortedCons(x, t);
    } else {
      var rest := t[1..];
      SortedTail(t);
      InsertSorted(x, rest);
      assert forall k :: 0 <= k < |rest| ==> rest[k] == t[k + 1];
      InsertBounded(x, rest, Magnitude(t[0]));
      SortedCons(t[0], Insert(x, rest));
    }
  }

  lemma {:induction false} SortDescSorted(s: seq<KeyChange>)
    ensures SortedDesc(SortDesc(s))
  {
    if |s| > 0 {
      SortDescSorted(s[1..]);
      InsertSorted(s[0], SortDesc(s[1..]));
    }
  }

  /** What `_get_key_changes` returns: the significant changes, largest
      first, at most five. */
  function KeyChangesSpec(comps: Dict<Comparison>): seq<KeyChange> {
    Take(SortDesc(AllSignificant(comps)), 5)
  }

  /** The first `n` entries of a sorted sequence are at least as large as
      every entry left out. */
  lemma TakeTop(sorted: seq<KeyChange>, n: nat, x: KeyChange)
    requires SortedDesc(sorted) && x in sorted
    ensures x in Take(sorted, n) || forall k :: 0 <= k < |Take(sorted, n)| ==> Magnitude(x) <= Magnitude(Take(sorted, n)[k])
  {
    var r := Take(sorted, n);
    var m :| 0 <= m < |sorted| && sorted[m] == x;
    if m < |r| {
      assert r[m] == x;
    } else {
      forall k | 0 <= k < |r|
        ensures Magnitude(x) <= Magnitude(r[k])
      {
        assert r[k] == sorted[k];
      }
    }
  }

  /** The key changes are significant, largest first, at most five, drawn
      from the significant changes, and no significant change left out is
      larger than one kept. */
  lemma KeyChangesTop(comps: Dict<Comparison>)
    ensures var r := KeyChangesSpec(comps);
      var all := AllSignificant(comps);
      && |r| == (if |all| < 5 then |all| else 5)
      && SortedDesc(r)
      && (forall k :: 0 <= k < |r| ==> Magnitude(r[k]) > 10.0 && r[k] in all)
      && (forall x :: x in all ==> x in r || forall k :: 0 <= k < |r| ==> Magnitude(x) <= Magnitude(r[k]))
  {
    var all := AllSignificant(comps);
    var sorted := SortDesc(all);
    SortDescSorted(all);
    var r := Take(sorted, 5);
    forall k | 0 <= k < |r|
      ensures Magnitude(r[k]) > 10.0 && r[k] in all
    {
      assert r[k] == sorted[k];
      assert sorted[k] in multiset(sorted);
    }
    forall x | x in all
      ensures x in r || forall k :: 0 <= k < |r| ==> Magnitude(x) <= Magnitude(r[k])
    {
      assert x in multiset(all);
      assert x in multiset(sorted);
      TakeTop(sorted, 5, x);
    }
  }

  /** Appends the significant changes of one parameter to `acc`. */
  method CollectSignificant(name: string, changes: seq<Change>, acc: seq<KeyChange>)
    returns (r: seq<KeyChange>)
    ensures r == acc + Significant(name, changes)
  {
    r := acc;
    var j := 0;
    while j < |changes|
      invariant 0 <= j <= |changes|
      invariant r == acc + Significant(name, changes[..j])
    {
      var change := changes[j];
      assert changes[..j + 1][..j] == changes[..j];
      if Abs(change.percentChange) > 10.0 {
        r := r + [KeyOf(name, change)];
      }
      j := j + 1;
    }
    assert changes[..|changes|] == changes;
  }

  /** `_get_key_changes`: collect over every comparison, sort by size,
      keep the first five. */
  method KeyChanges(comps: Dict<Comparison>) returns (r: seq<KeyChange>)
    ensures r == KeyChangesSpec(comps)
  {
    var found: seq<KeyChange> := [];
    var i := 0;
    while i < |comps|
      invariant 0 <= i <= |comps|
      invariant found == AllSignificant(comps[..i])
    {
      assert comps[..i + 1][..i] == comps[..i];
      found := CollectSignificant(comps[i].0, comps[i].1.changes, found);
      i := i + 1;
    }
    assert comps[..|comps|] == comps;
    r := Take(SortDesc(found), 5);
  }

  // ---------------------------------------------------------------------
  // The session's stored analyses

  /** The report store of one comparison session. */
  class Manager {
    /** `analysis_results`: report id to analysis, in insertion order. */
    var analysisResults: Dict<Analysis>

    ghost predicate Valid()
      reads this
    {
      DistinctKeys(analysisResults)
    }

    constructor ()
      ensures Valid() && analysisResults == []
    {
      analysisResults := [];
    }

    /** Stores the analysis of one processed report under its id. */
    method Store(id: string, a: Analysis)
      requires Valid()
      modifies this
      ensures Valid()
      ensures analysisResults == Put(old(analysisResults), id, a)
      ensures Get(analysisResults, id) == Some(a)
    {
      PutDistinct(analysisResults, id, a);
      PutGet(analysisResults, id, a);
      analysisResults := Put(analysisResults, id, a);
    }

    /** `_find_common_parameters`: the key set of the first analysis,
        intersected with that of every later one. */
    method FindCommonParameters() returns (common: set<string>)
      ensures common == CommonParameters(analysisResults)
    {
      var rs := analysisResults;
      if |rs| == 0 {
        return {};
      }
      common := KeySet(rs[0].1.validated);
      assert rs[..1] == [rs[0]];
      var i := 1;
      while i < |rs|
        invariant 1 <= i <= |rs|
        invariant common == SharedKeys(rs[..i])
      {
        assert rs[..i + 1][..i] == rs[..i];
        common := common * KeySet(rs[i].1.validated);
        i := i + 1;
      }
      assert rs[..|rs|] == rs;
    }

    /** `_compare_parameter_across_reports`: collect the numeric readings
        in report order, then the change between each consecutive pair. */
    method CompareParameter(param: string, reportIds: seq<string>) returns (r: Option<Comparison>)
      requires AllStored(analysisResults, reportIds)
      ensures r == CompareSpec(analysisResults, param, reportIds)
    {
      var rs := analysisResults;
      var values: seq<Reading> := [];
      var i := 0;
      while i < |reportIds|
        invariant 0 <= i <= |reportIds|
        invariant AllStored(rs, reportIds[..i])
        invariant values == ReadingsOf(rs, param, reportIds[..i])
      {
        assert reportIds[..i + 1][..i] == reportIds[..i];
        var reading := ReadingIn(rs, param, reportIds[i]);
        if reading.Some? {
          values := values + [reading.value];
        }
        i := i + 1;
      }
      assert reportIds[..|reportIds|] == reportIds;
      if |values| < 2 {
        return None;
      }
      var changes: seq<Change> := [];
      var j := 1;
      while j < |values|
        invariant 1 <= j <= |values|
        invariant |changes| == j - 1
        invariant forall k :: 0 <= k < j - 1 ==> changes[k] == ChangeBetween(values[k], values[k + 1])
      {
        changes := changes + [ChangeBetween(values[j - 1], values[j])];
        j := j + 1;
      }
      assert changes == Changes(values);
      r := Some(Comparison(param, values, changes, values[0].unit, OverallTrend(changes)));
    }
  }
}
