/** Evidence aggregation over the knowledge graph
    (model2/pipeline/probable_causes.py): damped additive evidence per
    cause, prior fusion, normalisation by the maximum, and a stable ranking. */
module ProbableCauses {
  import opened Common

  /** A knowledge-graph edge from an observation node to a cause. */
  datatype Edge = Edge(source: string, relation: string, target: string, weight: real)

  /** One ranked cause; `source` is always "kg". */
  datatype Cause = Cause(cause: string, score: real, support: seq<string>, source: string)

  /** The accumulated evidence: the score per cause and the support traces
      per cause, both in first-accumulation order. */
  datatype Evidence = Evidence(combined: Dict<real>, support: Dict<seq<string>>)

  /** `kg.query(obs)`: the edges leaving `obs`, in table order. The graph
      itself is an input of this model. */
  function Query(kg: seq<Edge>, obs: string): (r: seq<Edge>)
    ensures forall e :: e in r ==> e in kg && e.source == obs
    ensures |r| <= |kg|
  {
    if |kg| == 0 then []
    else (if kg[0].source == obs then [kg[0]] else []) + Query(kg[1..], obs)
  }

  /** The trace "obs->relation->target". */
  function Trace(obs: string, e: Edge): string {
    obs + "->" + e.relation + "->" + e.target
  }

  /** One edge's contribution: the target's score grows by 0.8 times the
      weight, capped at 1, and the trace is appended to its support. */
  function AddEdge(ev: Evidence, obs: string, e: Edge): Evidence {
    var existing := GetOr(ev.combined, e.target, 0.0);
    Evidence(
      Put(ev.combined, e.target, Min(1.0, existing + e.weight * 0.8)),
      Put(ev.support, e.target, GetOr(ev.support, e.target, []) + [Trace(obs, e)]))
  }

  /** The edges of one observation, in query order. */
  function AddEdges(ev: Evidence, obs: string, es: seq<Edge>): Evidence {
    if |es| == 0 then ev
    else AddEdge(AddEdges(ev, obs, es[..|es| - 1]), obs, es[|es| - 1])
  }

  /** All observations, in input order. */
  function Accumulate(kg: seq<Edge>, observations: seq<string>): Evidence {
    if |observations| == 0 then Evidence([], [])
    else
      var last := observations[|observations| - 1];
      AddEdges(Accumulate(kg, observations[..|observations| - 1]), last, Query(kg, last))
  }

  /** Prior fusion of one score: `min(round(score * (1 + p), 3), 1.0)`. */
  function Fused(score: real, p: real): real {
    Min(Round(score * (1.0 + p), 3), 1.0)
  }

  /** Fusion of every score with its prior (absent priors read as 0). */
  function Fuse(combined: Dict<real>, priors: Dict<real>): (r: Dict<real>)
    ensures |r| == |combined|
    ensures forall i :: 0 <= i < |r| ==> r[i] == (combined[i].0, Fused(combined[i].1, GetOr(priors, combined[i].0, 0.0)))
  {
    seq(|combined|, i requires 0 <= i < |combined| =>
      (combined[i].0, Fused(combined[i].1, GetOr(priors, combined[i].0, 0.0))))
  }

  /** `max(combined.values())`, or 0 for an empty dictionary. */
  function MaxScore(d: Dict<real>): (m: real)
    ensures |d| > 0 ==> exists i :: 0 <= i < |d| && d[i].1 == m
    ensures forall i :: 0 <= i < |d| ==> d[i].1 <= m
  {
    if |d| == 0 then 0.0
    else if |d| == 1 then d[0].1
    else
      var m := MaxScore(d[1..]);
      assert forall i :: 1 <= i < |d| ==> d[i] == d[1..][i - 1];
      Max(d[0].1, m)
  }

  /** Division of every score by `mx`, rounded to 3 places. */
  function Normalize(d: Dict<real>, mx: real): (r: Dict<real>)
    requires mx > 0.0
    ensures |r| == |d|
    ensures forall i :: 0 <= i < |r| ==> r[i] == (d[i].0, Round(d[i].1 / mx, 3))
  {
    seq(|d|, i requires 0 <= i < |d| => (d[i].0, Round(d[i].1 / mx, 3)))
  }

  /** The scores after fusion and normalisation: the `raw_scores` output. */
  function FinalScores(ev: Evidence, priors: Dict<real>): Dict<real> {
    var fused := Fuse(ev.combined, priors);
    var mx := MaxScore(fused);
    if mx > 0.0 then Normalize(fused, mx) else fused
  }

  // ---------------------------------------------------------------------
  // Ranking: `sorted(..., key=score, reverse=True)`, which is stable

  /** Inserts `x` before the first entry that does not score strictly more. */
  function InsertDesc(x: (string, real), ys: seq<(string, real)>): (r: seq<(string, real)>)
    ensures |r| == |ys| + 1
  {
    if |ys| == 0 then [x]
    else if ys[0].1 > x.1 then [ys[0]] + InsertDesc(x, ys[1..])
    else [x] + ys
  }

  function SortDesc(xs: seq<(string, real)>): (r: seq<(string, real)>)
    ensures |r| == |xs|
  {
    if |xs| == 0 then [] else InsertDesc(xs[0], SortDesc(xs[1..]))
  }

  predicate SortedDesc(xs: seq<(string, real)>) {
    forall i, j :: 0 <= i < j < |xs| ==> xs[i].1 >= xs[j].1
  }

  /** The entries scoring exactly `s`, in order. */
  function ScoreClass(xs: seq<(string, real)>, s: real): seq<(string, real)> {
    if |xs| == 0 then []
    else (if xs[0].1 == s then [xs[0]] else []) + ScoreClass(xs[1..], s)
  }

  function Ranked(scores: Dict<real>, support: Dict<seq<string>>): (r: seq<Cause>)
    ensures |r| == |scores|
  {
    var sorted := SortDesc(scores);
    seq(|sorted|, i requires 0 <= i < |sorted| =>
      Cause(sorted[i].0, sorted[i].1, GetOr(support, sorted[i].0, []), "kg"))
  }

  // ---------------------------------------------------------------------
  // infer_probable_causes

  /** The inner evidence loop: the edges of one observation, in order. */
  method AddObservation(combined0: Dict<real>, support0: Dict<seq<string>>, obs: string, edges: seq<Edge>)
    returns (combined: Dict<real>, support: Dict<seq<string>>)
    ensures Evidence(combined, support) == AddEdges(Evidence(combined0, support0), obs, edges)
  {
    combined, support := combined0, support0;
    var j := 0;
    while j < |edges|
      invariant 0 <= j <= |edges|
      invariant Evidence(combined, support) == AddEdges(Evidence(combined0, support0), obs, edges[..j])
    {
      var e := edges[j];
      var next := AddEdge(Evidence(combined, support), obs, e);
      combined, support := next.combined, next.support;
      assert edges[..j + 1][..j] == edges[..j];
      j := j + 1;
    }
    assert edges[..j] == edges;
  }

  /** The evidence loops: every observation in order, every edge of its
      query in order. */
  method AccumulateEvidence(kg: seq<Edge>, observations: seq<string>)
    returns (combined: Dict<real>, support: Dict<seq<string>>)
    ensures Evidence(combined, support) == Accumulate(kg, observations)
  {
    combined, support := [], [];
    var i := 0;
    while i < |observations|
      invariant 0 <= i <= |observations|
      invariant Evidence(combined, support) == Accumulate(kg, observations[..i])
    {
      var obs := observations[i];
      combined, support := AddObservation(combined, support, obs, Query(kg, obs));
      assert observations[..i + 1][..i] == observations[..i];
      i := i + 1;
    }
    assert observations[..i] == observations;
  }

  /** The fusion loop, rewriting each score in place. */
  method FuseScores(combined: Dict<real>, priors: Dict<real>) returns (r: Dict<real>)
    ensures r == Fuse(combined, priors)
  {
    ghost var fused := Fuse(combined, priors);
    r := combined;
    var k := 0;
    while k < |r|
      invariant 0 <= k <= |r| == |combined|
      invariant forall i :: 0 <= i < k ==> r[i] == fused[i]
      invariant forall i :: k <= i < |r| ==> r[i] == combined[i]
    {
      var c := r[k].0;
      var p := GetOr(priors, c, 0.0);
      r := r[k := (c, Fused(r[k].1, p))];
      k := k + 1;
    }
    assert r == fused;
  }

  /** The normalisation loop, dividing each score by the maximum in place. */
  method NormalizeScores(fused: Dict<real>) returns (r: Dict<real>)
    ensures r == (if MaxScore(fused) > 0.0 then Normalize(fused, MaxScore(fused)) else fused)
  {
    r := fused;
    var mx := if |r| > 0 then MaxScore(r) else 0.0;
    if mx > 0.0 {
      var n := 0;
      while n < |r|
        invariant 0 <= n <= |r| == |fused|
        invariant forall i :: 0 <= i < n ==> r[i] == (fused[i].0, Round(fused[i].1 / mx, 3))
        invariant forall i :: n <= i < |r| ==> r[i] == fused[i]
      {
        r := r[n := (r[n].0, Round(r[n].1 / mx, 3))];
        n := n + 1;
      }
      assert r == Normalize(fused, mx);
    }
  }

  /** `infer_probable_causes(observations, patterns, priors)`; the pattern
      details are not read, and the graph's own `infer_causes` result is
      discarded by the source, so neither is modelled. */
  method InferProbableCauses(kg: seq<Edge>, observations: seq<string>, priors: Dict<real>)
    returns (causes: seq<Cause>, rawScores: Dict<real>)
    ensures rawScores == FinalScores(Accumulate(kg, observations), priors)
    ensures causes == Ranked(rawScores, Accumulate(kg, observations).support)
  {
    var combined, support := AccumulateEvidence(kg, observations);
    var fused := FuseScores(combined, priors);
    rawScores := NormalizeScores(fused);
    causes := Ranked(rawScores, support);
  }

  // ---------------------------------------------------------------------
  // The ranking is a stable descending sort

  lemma ScoreClassAppend(a: seq<(string, real)>, b: seq<(string, real)>, s: real)
    ensures ScoreClass(a + b, s) == ScoreClass(a, s) + ScoreClass(b, s)
  {
    if |a| > 0 {
      assert (a + b)[1..] == a[1..] + b;
      ScoreClassAppend(a[1..], b, s);
    } else {
      assert a + b == b;
    }
  }

  lemma {:induction false} InsertDescHead(x: (string, real), ys: seq<(string, real)>)
    requires |ys| > 0
    ensures InsertDesc(x, ys)[0] == ys[0] || InsertDesc(x, ys)[0] == x
  {
  }

  lemma {:induction false} InsertDescSorted(x: (string, real), ys: seq<(string, real)>)
    requires SortedDesc(ys)
    ensures SortedDesc(InsertDesc(x, ys))
  {
    if |ys| > 0 && ys[0].1 > x.1 {
      var rest := InsertDesc(x, ys[1..]);
      InsertDescSorted(x, ys[1..]);
      if |ys| > 1 {
        InsertDescHead(x, ys[1..]);
      }
      assert forall j :: 0 <= j < |rest| ==> ys[0].1 >= rest[j].1 by {
        InsertDescMembers(x, ys[1..]);
      }
    }
  }

  lemma {:induction false} InsertDescMembers(x: (string, real), ys: seq<(string, real)>)
    ensures multiset(InsertDesc(x, ys)) == multiset(ys) + multiset{x}
    ensures forall y :: y in InsertDesc(x, ys) ==> y in ys || y == x
  {
    if |ys| > 0 && ys[0].1 > x.1 {
      InsertDescMembers(x, ys[1..]);
      assert ys == [ys[0]] + ys[1..];
    }
  }

  lemma {:induction false} InsertDescStable(x: (string, real), ys: seq<(string, real)>, s: real)
    ensures ScoreClass(InsertDesc(x, ys), s) == (if x.1 == s then [x] else []) + ScoreClass(ys, s)
  {
    if |ys| > 0 {
      if ys[0].1 > x.1 {
        InsertDescStable(x, ys[1..], s);
        ScoreClassAppend([ys[0]], InsertDesc(x, ys[1..]), s);
        ScoreClassAppend([ys[0]], ys[1..], s);
        assert [ys[0]] + ys[1..] == ys;
      } else {
        ScoreClassAppend([x], ys, s);
      }
    } else {
      ScoreClassAppend([x], [], s);
    }
  }

  /** Sorting orders by descending score, keeps exactly the entries, and
      keeps entries of equal score in their input order. */
  lemma {:induction false} SortDescCorrect(xs: seq<(string, real)>)
    ensures SortedDesc(SortDesc(xs))
    ensures multiset(SortDesc(xs)) == multiset(xs)
    ensures forall s :: ScoreClass(SortDesc(xs), s) == ScoreClass(xs, s)
  {
    if |xs| > 0 {
      var rest := SortDesc(xs[1..]);
      SortDescCorrect(xs[1..]);
      InsertDescSorted(xs[0], rest);
      InsertDescMembers(xs[0], rest);
      assert xs == [xs[0]] + xs[1..];
      forall s
        ensures ScoreClass(SortDesc(xs), s) == ScoreClass(xs, s)
      {
        InsertDescStable(xs[0], rest, s);
      }
    }
  }

  // ---------------------------------------------------------------------
  // Scores

  predicate UnitScores(d: Dict<real>) {
    forall i :: 0 <= i < |d| ==> 0.0 <= d[i].1 <= 1.0
  }

  lemma AddEdgeUnit(ev: Evidence, obs: string, e: Edge)
    requires UnitScores(ev.combined) && e.weight >= 0.0
    ensures UnitScores(AddEdge(ev, obs, e).combined)
  {
    var existing := GetOr(ev.combined, e.target, 0.0);
    if HasKey(ev.combined, e.target) {
      assert (e.target, existing) in ev.combined;
    }
    PutEntries(ev.combined, e.target, Min(1.0, existing + e.weight * 0.8));
    var r := AddEdge(ev, obs, e).combined;
    assert forall i :: 0 <= i < |r| ==> r[i] in r;
  }

  lemma {:induction false} AddEdgesUnit(ev: Evidence, obs: string, es: seq<Edge>)
    requires UnitScores(ev.combined) && forall e :: e in es ==> e.weight >= 0.0
    ensures UnitScores(AddEdges(ev, obs, es).combined)
  {
    if |es| > 0 {
      AddEdgesUnit(ev, obs, es[..|es| - 1]);
      AddEdgeUnit(AddEdges(ev, obs, es[..|es| - 1]), obs, es[|es| - 1]);
    }
  }

  /** With non-negative weights, the accumulated evidence lies in [0, 1]. */
  lemma {:induction false} AccumulateUnit(kg: seq<Edge>, observations: seq<string>)
    requires forall e :: e in kg ==> e.weight >= 0.0
    ensures UnitScores(Accumulate(kg, observations).combined)
  {
    if |observations| > 0 {
      var n := |observations| - 1;
      AccumulateUnit(kg, observations[..n]);
      AddEdgesUnit(Accumulate(kg, observations[..n]), observations[n], Query(kg, observations[n]));
    }
  }

  lemma FusedUnit(score: real, p: real)
    requires 0.0 <= score <= 1.0 && p >= -1.0
    ensures 0.0 <= Fused(score, p) <= 1.0
  {
    assert score * (1.0 + p) >= 0.0;
    RoundMonotone(0.0, score * (1.0 + p), 3);
    RoundFixed();
  }

  lemma FuseUnit(combined: Dict<real>, priors: Dict<real>)
    requires UnitScores(combined)
    requires forall q :: q in priors ==> q.1 >= -1.0
    ensures UnitScores(Fuse(combined, priors))
  {
    forall i | 0 <= i < |combined|
      ensures 0.0 <= Fuse(combined, priors)[i].1 <= 1.0
    {
      var c := combined[i].0;
      if HasKey(priors, c) {
        assert (c, GetOr(priors, c, 0.0)) in priors;
      }
      FusedUnit(combined[i].1, GetOr(priors, c, 0.0));
    }
  }

  lemma NormalizeUnit(d: Dict<real>, mx: real)
    requires UnitScores(d) && mx > 0.0 && forall i :: 0 <= i < |d| ==> d[i].1 <= mx
    ensures UnitScores(Normalize(d, mx))
  {
    forall i | 0 <= i < |d|
      ensures 0.0 <= Normalize(d, mx)[i].1 <= 1.0
    {
      assert 0.0 <= d[i].1 / mx <= 1.0;
      RoundUnit(d[i].1 / mx, 3);
    }
  }

  /** With non-negative weights and priors of at least -1, every output
      score lies in [0, 1]. */
  lemma FinalScoresUnit(kg: seq<Edge>, observations: seq<string>, priors: Dict<real>)
    requires forall e :: e in kg ==> e.weight >= 0.0
    requires forall q :: q in priors ==> q.1 >= -1.0
    ensures UnitScores(FinalScores(Accumulate(kg, observations), priors))
  {
    var ev := Accumulate(kg, observations);
    AccumulateUnit(kg, observations);
    FuseUnit(ev.combined, priors);
    var fused := Fuse(ev.combined, priors);
    if MaxScore(fused) > 0.0 {
      NormalizeUnit(fused, MaxScore(fused));
    }
  }

  lemma DivSelf(x: real)
    requires x > 0.0
    ensures x / x == 1.0
  {
  }

  /** When the largest fused score is positive, normalisation gives it
      exactly 1. */
  lemma NormalizeHasOne(d: Dict<real>)
    requires MaxScore(d) > 0.0
    ensures exists i :: 0 <= i < |d| && Normalize(d, MaxScore(d))[i].1 == 1.0
  {
    var mx := MaxScore(d);
    var i :| 0 <= i < |d| && d[i].1 == mx;
    DivSelf(mx);
    RoundFixed();
    assert Normalize(d, mx)[i] == (d[i].0, Round(1.0, 3));
  }

  /** The first ranked entry scores at least as much as every other. */
  lemma RankedFirst(scores: Dict<real>, support: Dict<seq<string>>)
    requires |scores| > 0
    ensures forall i :: 0 <= i < |scores| ==> Ranked(scores, support)[0].score >= scores[i].1
  {
    SortDescCorrect(scores);
    var sorted := SortDesc(scores);
    forall i | 0 <= i < |scores|
      ensures sorted[0].1 >= scores[i].1
    {
      assert scores[i] in multiset(sorted);
      var j :| 0 <= j < |sorted| && sorted[j] == scores[i];
    }
  }

  /** With non-negative evidence and a positive maximum, the first cause
      scores exactly 1.0. */
  lemma TopCauseIsOne(kg: seq<Edge>, observations: seq<string>, priors: Dict<real>)
    requires forall e :: e in kg ==> e.weight >= 0.0
    requires forall q :: q in priors ==> q.1 >= -1.0
    requires MaxScore(Fuse(Accumulate(kg, observations).combined, priors)) > 0.0
    ensures var ev := Accumulate(kg, observations);
      Ranked(FinalScores(ev, priors), ev.support)[0].score == 1.0
  {
    var ev := Accumulate(kg, observations);
    var fused := Fuse(ev.combined, priors);
    var scores := FinalScores(ev, priors);
    FinalScoresUnit(kg, observations, priors);
    NormalizeHasOne(fused);
    RankedFirst(scores, ev.support);
    SortDescCorrect(scores);
    var sorted := SortDesc(scores);
    assert sorted[0] in multiset(scores);
    var j :| 0 <= j < |scores| && scores[j] == sorted[0];
  }

  /** The ranking carries every cause the scores have, with its support,
      in a stable descending order, all from the graph. */
  lemma RankedCorrect(scores: Dict<real>, support: Dict<seq<string>>)
    ensures var r := Ranked(scores, support);
      && (forall i, j :: 0 <= i < j < |r| ==> r[i].score >= r[j].score)
      && multiset(seq(|r|, i requires 0 <= i < |r| => (r[i].cause, r[i].score))) == multiset(scores)
      && (forall i :: 0 <= i < |r| ==> r[i].source == "kg" && r[i].support == GetOr(support, r[i].cause, []))
  {
    SortDescCorrect(scores);
    var r := Ranked(scores, support);
    assert seq(|r|, i requires 0 <= i < |r| => (r[i].cause, r[i].score)) == SortDesc(scores);
  }

  // ---------------------------------------------------------------------
  // Evidence

  /** No observation with an outgoing edge gives no causes at all. */
  lemma {:induction false} NoEdgesNoCauses(kg: seq<Edge>, observations: seq<string>, priors: Dict<real>)
    requires forall o :: o in observations ==> Query(kg, o) == []
    ensures Accumulate(kg, observations) == Evidence([], [])
    ensures FinalScores(Accumulate(kg, observations), priors) == []
  {
    if |observations| > 0 {
      var n := |observations| - 1;
      assert forall o :: o in observations[..n] ==> o in observations;
      NoEdgesNoCauses(kg, observations[..n], priors);
      assert Query(kg, observations[n]) == [];
    }
  }

  /** The number of edges aimed at `t`. */
  function CountTarget(es: seq<Edge>, t: string): nat {
    if |es| == 0 then 0
    else CountTarget(es[..|es| - 1], t) + (if es[|es| - 1].target == t then 1 else 0)
  }

  /** The number of contributing edges aimed at `t` over all observations. */
  function Contributions(kg: seq<Edge>, observations: seq<string>, t: string): nat {
    if |observations| == 0 then 0
    else
      var n := |observations| - 1;
      Contributions(kg, observations[..n], t) + CountTarget(Query(kg, observations[n]), t)
  }

  lemma AddEdgeSupport(ev: Evidence, obs: string, e: Edge, t: string)
    ensures |GetOr(AddEdge(ev, obs, e).support, t, [])| ==
      |GetOr(ev.support, t, [])| + (if e.target == t then 1 else 0)
  {
    var nv := GetOr(ev.support, e.target, []) + [Trace(obs, e)];
    if e.target == t {
      PutGet(ev.support, t, nv);
    } else {
      GetPutOther(ev.support, e.target, nv, t);
    }
  }

  lemma {:induction false} AddEdgesSupport(ev: Evidence, obs: string, es: seq<Edge>, t: string)
    ensures |GetOr(AddEdges(ev, obs, es).support, t, [])| == |GetOr(ev.support, t, [])| + CountTarget(es, t)
  {
    if |es| > 0 {
      AddEdgesSupport(ev, obs, es[..|es| - 1], t);
      AddEdgeSupport(AddEdges(ev, obs, es[..|es| - 1]), obs, es[|es| - 1], t);
    }
  }

  /** Each contributing edge adds exactly one trace to its target's
      support, so a duplicated observation contributes twice. */
  lemma {:induction false} SupportCountsEdges(kg: seq<Edge>, observations: seq<string>, t: string)
    ensures |GetOr(Accumulate(kg, observations).support, t, [])| == Contributions(kg, observations, t)
  {
    if |observations| > 0 {
      var n := |observations| - 1;
      SupportCountsEdges(kg, observations[..n], t);
      AddEdgesSupport(Accumulate(kg, observations[..n]), observations[n], Query(kg, observations[n]), t);
    }
  }

  /** Two edges reaching the same new cause score `min(1, 0.8 (w1 + w2))`,
      strictly more than either alone while under the cap. */
  lemma DampedSum(ev: Evidence, o1: string, e1: Edge, o2: string, e2: Edge)
    requires e1.target == e2.target && !HasKey(ev.combined, e1.target)
    requires e1.weight > 0.0 && e2.weight > 0.0
    ensures var score := GetOr(AddEdge(AddEdge(ev, o1, e1), o2, e2).combined, e1.target, 0.0);
      && score == Min(1.0, 0.8 * (e1.weight + e2.weight))
      && (0.8 * (e1.weight + e2.weight) < 1.0 ==> score > 0.8 * e1.weight && score > 0.8 * e2.weight)
  {
    var t := e1.target;
    var ev1 := AddEdge(ev, o1, e1);
    assert GetOr(ev.combined, t, 0.0) == 0.0;
    PutGet(ev.combined, t, Min(1.0, 0.0 + e1.weight * 0.8));
    var s1 := GetOr(ev1.combined, t, 0.0);
    assert s1 == Min(1.0, e1.weight * 0.8);
    PutGet(ev1.combined, t, Min(1.0, s1 + e2.weight * 0.8));
  }
}
