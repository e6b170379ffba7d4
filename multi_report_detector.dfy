/**
 * Splitting one document's text into the separate blood reports it holds.
 * Lines that look like a report header, patient metadata, a date or a page
 * break mark candidate boundaries at the line's start offset; duplicates
 * and boundaries closer than 100 characters to the previous kept one are
 * dropped; the text between consecutive boundaries becomes one report when
 * it is long enough; and a last pass drops reports without usable content.
 */
module MultiReportDetector {
  import opened Common
  import opened Numeric

  /** A regular-expression search, abstracted as a predicate on a line. */
  type Pattern = string -> bool

  /** The detector's pattern lists: report headers, patient metadata,
      dates and page breaks. */
  datatype Patterns = Patterns(
    header: seq<Pattern>, patient: seq<Pattern>,
    date: seq<Pattern>, pageBreak: seq<Pattern>)

  /** The detector has eight header patterns. */
  predicate WellFormed(ps: Patterns) {
    |ps.header| == 8
  }

  // ---------------------------------------------------------------------
  // Line scorers

  /** The number of patterns that match the line. */
  function CountMatches(pats: seq<Pattern>, line: string): (n: nat)
    ensures n <= |pats|
  {
    if |pats| == 0 then 0
    else CountMatches(pats[..|pats| - 1], line) + (if pats[|pats| - 1](line) then 1 else 0)
  }

  /** Some pattern matches the line. */
  predicate AnyMatch(pats: seq<Pattern>, line: string) {
    exists i :: 0 <= i < |pats| && pats[i](line)
  }

  /** `_check_header_patterns`: the fraction of header patterns matched. */
  function HeaderConfidence(ps: Patterns, line: string): real
    requires WellFormed(ps)
  {
    // `len(self.report_header_patterns)`, which `WellFormed` fixes at 8
    CountMatches(ps.header, line) as real / 8.0
  }

  /** `_check_patient_patterns` */
  function PatientConfidence(ps: Patterns, line: string): real {
    if AnyMatch(ps.patient, line) then 0.9 else 0.0
  }

  /** `_check_date_patterns` */
  function DateConfidence(ps: Patterns, line: string): real {
    if AnyMatch(ps.date, line) then 0.8 else 0.0
  }

  /** `_check_page_break_patterns` */
  function PageConfidence(ps: Patterns, line: string): real {
    if AnyMatch(ps.pageBreak, line) then 0.95 else 0.0
  }

  /** What the boundary thresholds mean: a header line matches at least six
      of the eight header patterns; the other three kinds need just one
      matching pattern. */
  lemma Thresholds(ps: Patterns, line: string)
    requires WellFormed(ps)
    ensures 0.0 <= HeaderConfidence(ps, line) <= 1.0
    ensures HeaderConfidence(ps, line) > 0.7 <==> CountMatches(ps.header, line) >= 6
    ensures PatientConfidence(ps, line) > 0.8 <==> AnyMatch(ps.patient, line)
    ensures DateConfidence(ps, line) > 0.6 <==> AnyMatch(ps.date, line)
    ensures PageConfidence(ps, line) > 0.9 <==> AnyMatch(ps.pageBreak, line)
  {
    var n := CountMatches(ps.header, line);
    assert HeaderConfidence(ps, line) * 8.0 == n as real;
  }

  // ---------------------------------------------------------------------
  // Candidate boundaries

  datatype BoundaryKind = DocumentStart | HeaderPattern | PatientMetadata | DatePattern | PageBreak

  /** A candidate report boundary: the start offset of the line that
      triggered it, what triggered it, and the stripped line. */
  datatype Boundary = Boundary(
    position: nat, kind: BoundaryKind, confidence: real,
    lineNumber: nat, content: string)

  /** The boundary every document starts with. */
  const Start := Boundary(0, DocumentStart, 1.0, 0, "")

  /** The offset of line `k`: every earlier line and its newline. */
  function LineStart(lines: seq<string>, k: nat): nat
    requires k <= |lines|
  {
    if k == 0 then 0 else |lines[0]| + 1 + LineStart(lines[1..], k - 1)
  }

  lemma {:induction false} LineStartNext(lines: seq<string>, k: nat)
    requires k < |lines|
    ensures LineStart(lines, k + 1) == LineStart(lines, k) + |lines[k]| + 1
  {
    if k > 0 {
      LineStartNext(lines[1..], k - 1);
    }
  }

  lemma {:induction false} LineStartMonotone(lines: seq<string>, j: nat, k: nat)
    requires j <= k <= |lines|
    ensures LineStart(lines, j) <= LineStart(lines, k)
    decreases k - j
  {
    if j < k {
      LineStartNext(lines, j);
      LineStartMonotone(lines, j + 1, k);
    }
  }

  /** Line `k` of `s.split(c)` sits at its offset in `s`, followed by the
      separator unless it is the last line. */
  predicate LineAt(s: string, c: char, k: nat)
    requires k < |Split(s, c)|
  {
    var lines := Split(s, c);
    var p := LineStart(lines, k);
    && p + |lines[k]| <= |s|
    && s[p..p + |lines[k]|] == lines[k]
    && (k + 1 < |lines| ==> p + |lines[k]| < |s| && s[p + |lines[k]|] == c)
  }

  /** Every line of `s.split(c)` sits at its offset in `s`. */
  lemma {:induction false} SplitOffsets(s: string, c: char, k: nat)
    requires k < |Split(s, c)|
    ensures LineAt(s, c, k)
    decreases |s|, 1
  {
    if |s| == 0 {
      assert Split(s, c) == [""];
    } else if s[0] == c {
      if k == 0 {
        SeparatorFirst(s, c);
      } else {
        SeparatorLater(s, c, k);
      }
    } else if k == 0 {
      CharFirst(s, c);
    } else {
      CharLater(s, c, k);
    }
  }

  /** A leading separator: the first line is empty. */
  lemma SeparatorFirst(s: string, c: char)
    requires |s| > 0 && s[0] == c
    ensures LineAt(s, c, 0)
  {
    var rest := Split(s[1..], c);
    assert Split(s, c) == [""] + rest;
  }

  /** A leading separator: line `k` is line `k - 1` of the tail. */
  lemma {:induction false} SeparatorLater(s: string, c: char, k: nat)
    requires |s| > 0 && s[0] == c && 0 < k < |Split(s, c)|
    ensures LineAt(s, c, k)
    decreases |s|, 0
  {
    var t := s[1..];
    var rest := Split(t, c);
    var lines := Split(s, c);
    assert lines == [""] + rest;
    assert lines[1..] == rest;
    SplitOffsets(t, c, k - 1);
    var q := LineStart(rest, k - 1);
    var n := |rest[k - 1]|;
    assert LineStart(lines, k) == q + 1;
    assert s[q + 1..q + 1 + n] == t[q..q + n];
    if k < |rest| {
      assert s[q + 1 + n] == t[q + n];
    }
  }

  /** A leading ordinary character starts the first line. */
  lemma {:induction false} CharFirst(s: string, c: char)
    requires |s| > 0 && s[0] != c
    ensures LineAt(s, c, 0)
    decreases |s|, 0
  {
    var t := s[1..];
    var rest := Split(t, c);
    var lines := Split(s, c);
    assert lines == [[s[0]] + rest[0]] + rest[1..];
    SplitOffsets(t, c, 0);
    var n := |rest[0]|;
    assert s[0..n + 1] == [s[0]] + t[0..n];
    if 1 < |lines| {
      assert s[n + 1] == t[n];
    }
  }

  /** A leading ordinary character: line `k > 0` is line `k` of the tail,
      one character further on. */
  lemma {:induction false} CharLater(s: string, c: char, k: nat)
    requires |s| > 0 && s[0] != c && 0 < k < |Split(s, c)|
    ensures LineAt(s, c, k)
    decreases |s|, 0
  {
    var t := s[1..];
    var rest := Split(t, c);
    var lines := Split(s, c);
    assert lines == [[s[0]] + rest[0]] + rest[1..];
    assert lines[k] == rest[k];
    assert lines[1..] == rest[1..];
    assert LineStart(lines, k) == |rest[0]| + 2 + LineStart(rest[1..], k - 1);
    assert LineStart(rest, k) == |rest[0]| + 1 + LineStart(rest[1..], k - 1);
    SplitOffsets(t, c, k);
    var q := LineStart(rest, k);
    var n := |rest[k]|;
    assert s[q + 1..q + 1 + n] == t[q..q + n];
    if k + 1 < |rest| {
      assert s[q + 1 + n] == t[q + n];
    }
  }

  /** A boundary sits at the start of the line it names. */
  predicate OnLine(lines: seq<string>, b: Boundary) {
    b.lineNumber < |lines| && b.position == LineStart(lines, b.lineNumber)
  }

  /** The boundaries a line adds once stripped to `s`, in the order
      header, patient, date, page break. */
  function HitsOf(ps: Patterns, s: string, lineNum: nat, pos: nat): (r: seq<Boundary>)
    requires WellFormed(ps)
    ensures forall i :: 0 <= i < |r| ==>
      r[i].position == pos && r[i].lineNumber == lineNum && r[i].kind != DocumentStart
  {
    When(HeaderConfidence(ps, s) > 0.7, Boundary(pos, HeaderPattern, HeaderConfidence(ps, s), lineNum, s))
    + When(PatientConfidence(ps, s) > 0.8, Boundary(pos, PatientMetadata, PatientConfidence(ps, s), lineNum, s))
    + When(DateConfidence(ps, s) > 0.6, Boundary(pos, DatePattern, DateConfidence(ps, s), lineNum, s))
    + When(PageConfidence(ps, s) > 0.9, Boundary(pos, PageBreak, PageConfidence(ps, s), lineNum, s))
  }

  /** The boundaries one line adds: none for a blank line. */
  function LineHits(ps: Patterns, line: string, lineNum: nat, pos: nat): (r: seq<Boundary>)
    requires WellFormed(ps)
    ensures forall i :: 0 <= i < |r| ==>
      r[i].position == pos && r[i].lineNumber == lineNum && r[i].kind != DocumentStart
  {
    var s := Strip(line);
    if s == "" then [] else HitsOf(ps, s, lineNum, pos)
  }

  /** The boundaries each line adds, line by line. */
  function HitTable(ps: Patterns, lines: seq<string>): (t: seq<seq<Boundary>>)
    requires WellFormed(ps)
    ensures |t| == |lines|
  {
    seq(|lines|, i requires 0 <= i < |lines| => LineHits(ps, lines[i], i, LineStart(lines, i)))
  }

  /** Every entry of row `i` sits at the start of line `i`. */
  predicate RowsOnLines(lines: seq<string>, t: seq<seq<Boundary>>) {
    |t| == |lines|
    && forall i, j :: 0 <= i < |t| && 0 <= j < |t[i]| ==>
      t[i][j].lineNumber == i && t[i][j].position == LineStart(lines, i)
  }

  lemma HitTableOnLines(ps: Patterns, lines: seq<string>)
    requires WellFormed(ps)
    ensures RowsOnLines(lines, HitTable(ps, lines))
  {
    var t: seq<seq<Boundary>> := HitTable(ps, lines);
    forall i: nat, j: nat | i < |t| && j < |t[i]|
      ensures t[i][j].lineNumber == i && t[i][j].position == LineStart(lines, i)
    {
      assert t[i] == LineHits(ps, lines[i], i, LineStart(lines, i));
    }
  }

  /** The document start followed by the first `k` rows. */
  function Collect(t: seq<seq<Boundary>>, k: nat): seq<Boundary>
    requires k <= |t|
  {
    if k == 0 then [Start] else Collect(t, k - 1) + t[k - 1]
  }

  /** The candidates after the first `k` lines. */
  function Candidates(ps: Patterns, lines: seq<string>, k: nat): seq<Boundary>
    requires WellFormed(ps) && k <= |lines|
  {
    Collect(HitTable(ps, lines), k)
  }

  /** Positions never decrease along the sequence. */
  predicate Nondecreasing(bs: seq<Boundary>) {
    forall i, j :: 0 <= i < j < |bs| ==> bs[i].position <= bs[j].position
  }

  /** The document start always comes first. */
  lemma {:induction false} CollectHead(t: seq<seq<Boundary>>, k: nat)
    requires k <= |t|
    ensures |Collect(t, k)| > 0 && Collect(t, k)[0] == Start
  {
    if k > 0 {
      CollectHead(t, k - 1);
    }
  }

  /** Every collected entry sits at the start of one of the first `k`
      lines, and line numbers never decrease. */
  lemma {:induction false} CollectOnLines(lines: seq<string>, t: seq<seq<Boundary>>, k: nat)
    requires RowsOnLines(lines, t) && 0 < |lines| && k <= |t|
    ensures forall i :: 0 <= i < |Collect(t, k)| ==>
      OnLine(lines, Collect(t, k)[i]) && Collect(t, k)[i].lineNumber <= k
    ensures forall i, j :: 0 <= i < j < |Collect(t, k)| ==>
      Collect(t, k)[i].lineNumber <= Collect(t, k)[j].lineNumber
  {
    if k > 0 {
      var prev := Collect(t, k - 1);
      CollectOnLines(lines, t, k - 1);
      var cs := prev + t[k - 1];
      assert Collect(t, k) == cs;
      forall i | 0 <= i < |cs|
        ensures OnLine(lines, cs[i]) && cs[i].lineNumber <= k
      {
        if i >= |prev| {
          assert cs[i] == t[k - 1][i - |prev|];
        }
      }
      forall i, j | 0 <= i < j < |cs|
        ensures cs[i].lineNumber <= cs[j].lineNumber
      {
        if j >= |prev| {
          assert cs[j] == t[k - 1][j - |prev|];
          if i >= |prev| {
            assert cs[i] == t[k - 1][i - |prev|];
          }
        }
      }
    }
  }

  /** The candidates start with the document start, sit on their lines,
      and come in line order, so their positions never decrease. */
  lemma CandidatesShape(ps: Patterns, lines: seq<string>, k: nat)
    requires WellFormed(ps) && 0 < |lines| && k <= |lines|
    ensures |Candidates(ps, lines, k)| > 0 && Candidates(ps, lines, k)[0] == Start
    ensures Nondecreasing(Candidates(ps, lines, k))
    ensures forall b :: b in Candidates(ps, lines, k) ==> OnLine(lines, b) && b.lineNumber <= k
  {
    var t := HitTable(ps, lines);
    var cs := Collect(t, k);
    HitTableOnLines(ps, lines);
    CollectHead(t, k);
    CollectOnLines(lines, t, k);
    forall i, j | 0 <= i < j < |cs|
      ensures cs[i].position <= cs[j].position
    {
      LineStartMonotone(lines, cs[i].lineNumber, cs[j].lineNumber);
    }
    forall b | b in cs
      ensures OnLine(lines, b) && b.lineNumber <= k
    {
      var i :| 0 <= i < |cs| && cs[i] == b;
    }
  }

  // ---------------------------------------------------------------------
  // Sorting, de-duplication and spacing

  /** Stable insertion by position: `x` goes ahead of the first entry that
      is not earlier. */
  function InsertByPosition(x: Boundary, t: seq<Boundary>): seq<Boundary> {
    if |t| == 0 || x.position <= t[0].position then [x] + t
    else [t[0]] + InsertByPosition(x, t[1..])
  }

  /** `sorted(boundaries, key=position)`, stable. */
  function SortByPosition(bs: seq<Boundary>): seq<Boundary> {
    if |bs| == 0 then [] else InsertByPosition(bs[0], SortByPosition(bs[1..]))
  }

  /** Sorting candidates that are already in position order changes
      nothing. */
  lemma {:induction false} SortSorted(bs: seq<Boundary>)
    requires Nondecreasing(bs)
    ensures SortByPosition(bs) == bs
  {
    if |bs| > 0 {
      var rest := bs[1..];
      assert Nondecreasing(rest) by {
        forall i, j | 0 <= i < j < |rest|
          ensures rest[i].position <= rest[j].position
        {
          assert rest[i] == bs[i + 1] && rest[j] == bs[j + 1];
        }
      }
      SortSorted(rest);
      if |rest| > 0 {
        assert rest[0] == bs[1];
      }
      assert bs == [bs[0]] + rest;
    }
  }

  /** The positions of a list of boundaries. */
  function Positions(bs: seq<Boundary>): set<nat> {
    set i | 0 <= i < |bs| :: bs[i].position
  }

  lemma PositionsSnoc(bs: seq<Boundary>, b: Boundary)
    ensures Positions(bs + [b]) == Positions(bs) + {b.position}
  {
    var r := bs + [b];
    assert r[|bs|] == b;
    forall p | p in Positions(bs)
      ensures p in Positions(r)
    {
      var i :| 0 <= i < |bs| && bs[i].position == p;
      assert r[i] == bs[i];
    }
  }

  /** The first boundary at each position, in order (the `seen_positions`
      pass). */
  function Unique(bs: seq<Boundary>): seq<Boundary> {
    if |bs| == 0 then []
    else
      var u := Unique(bs[..|bs| - 1]);
      if bs[|bs| - 1].position in Positions(u) then u else u + [bs[|bs| - 1]]
  }

  /** `x` is the first entry of `bs` at its position. */
  predicate FirstAt(bs: seq<Boundary>, x: Boundary) {
    exists j :: 0 <= j < |bs| && bs[j] == x && forall j' :: 0 <= j' < j ==> bs[j'].position != x.position
  }

  predicate StrictlyIncreasing(bs: seq<Boundary>) {
    forall i, j :: 0 <= i < j < |bs| ==> bs[i].position < bs[j].position
  }

  /** De-duplication keeps every position. */
  lemma {:induction false} UniquePositions(bs: seq<Boundary>)
    ensures Positions(Unique(bs)) == Positions(bs)
  {
    if |bs| > 0 {
      var init := bs[..|bs| - 1];
      var last := bs[|bs| - 1];
      UniquePositions(init);
      assert bs == init + [last];
      PositionsSnoc(init, last);
      if last.position !in Positions(Unique(init)) {
        PositionsSnoc(Unique(init), last);
      }
    }
  }

  /** De-duplication keeps the first boundary overall. */
  lemma {:induction false} UniqueHead(bs: seq<Boundary>)
    ensures |bs| > 0 ==> |Unique(bs)| > 0 && Unique(bs)[0] == bs[0]
  {
    if |bs| > 0 {
      var init := bs[..|bs| - 1];
      UniqueHead(init);
      if |init| == 0 {
        assert Unique(init) == [];
      }
    }
  }

  /** The first entry at a position stays the first one when an entry is
      appended. */
  lemma FirstAtSnoc(init: seq<Boundary>, last: Boundary, x: Boundary)
    requires FirstAt(init, x)
    ensures FirstAt(init + [last], x)
  {
    var bs := init + [last];
    var j :| 0 <= j < |init| && init[j] == x
      && forall j' :: 0 <= j' < j ==> init[j'].position != x.position;
    assert bs[j] == init[j];
    assert forall j' :: 0 <= j' < j ==> bs[j'] == init[j'];
  }

  /** An appended entry at a new position is the first one there. */
  lemma FirstAtLast(init: seq<Boundary>, last: Boundary)
    requires last.position !in Positions(init)
    ensures FirstAt(init + [last], last)
  {
    var bs := init + [last];
    assert bs[|init|] == last;
    forall j' | 0 <= j' < |init|
      ensures bs[j'].position != last.position
    {
      assert bs[j'] == init[j'];
      assert init[j'].position in Positions(init);
    }
  }

  /** Every kept boundary is the first one at its position. */
  lemma {:induction false} UniqueFirstAt(bs: seq<Boundary>)
    ensures forall i :: 0 <= i < |Unique(bs)| ==> FirstAt(bs, Unique(bs)[i])
  {
    if |bs| > 0 {
      var init := bs[..|bs| - 1];
      var last := bs[|bs| - 1];
      var u0 := Unique(init);
      UniqueFirstAt(init);
      UniquePositions(init);
      assert bs == init + [last];
      forall i | 0 <= i < |u0|
        ensures FirstAt(bs, u0[i])
      {
        FirstAtSnoc(init, last, u0[i]);
      }
      if last.position !in Positions(u0) {
        FirstAtLast(init, last);
        var u := u0 + [last];
        forall i | 0 <= i < |u|
          ensures FirstAt(bs, u[i])
        {
          if i < |u0| {
            assert u[i] == u0[i];
          }
        }
      }
    }
  }

  /** De-duplication keeps every position once, through the first boundary
      at it, and keeps the first boundary overall. */
  lemma UniqueKeepsFirst(bs: seq<Boundary>)
    ensures Positions(Unique(bs)) == Positions(bs)
    ensures forall i :: 0 <= i < |Unique(bs)| ==> FirstAt(bs, Unique(bs)[i])
    ensures |bs| > 0 ==> |Unique(bs)| > 0 && Unique(bs)[0] == bs[0]
  {
    UniquePositions(bs);
    UniqueFirstAt(bs);
    UniqueHead(bs);
  }

  /** Every kept boundary was a candidate. */
  lemma UniqueFrom(bs: seq<Boundary>)
    ensures forall i :: 0 <= i < |Unique(bs)| ==> Unique(bs)[i] in bs
  {
    UniqueKeepsFirst(bs);
    var u := Unique(bs);
    forall i | 0 <= i < |u|
      ensures u[i] in bs
    {
      assert FirstAt(bs, u[i]);
    }
  }

  /** Candidates in position order come out of de-duplication strictly
      increasing. */
  lemma {:induction false} UniqueIncreasing(bs: seq<Boundary>)
    requires Nondecreasing(bs)
    ensures StrictlyIncreasing(Unique(bs))
  {
    if |bs| > 0 {
      var init := bs[..|bs| - 1];
      var last := bs[|bs| - 1];
      var u0 := Unique(init);
      assert Nondecreasing(init);
      UniqueIncreasing(init);
      if last.position !in Positions(u0) {
        UniqueFrom(init);
        var u := u0 + [last];
        forall i | 0 <= i < |u0|
          ensures u0[i].position < last.position
        {
          assert u0[i] in init;
          var j :| 0 <= j < |init| && init[j] == u0[i];
          assert bs[j] == init[j];
          assert u0[i].position in Positions(u0);
        }
        forall i, j | 0 <= i < j < |u|
          ensures u[i].position < u[j].position
        {
          assert u[i] == u0[i];
          if j < |u0| {
            assert u[j] == u0[j];
          }
        }
      }
    }
  }

  /** The spacing pass: the first boundary, then every boundary more than
      100 characters after the last one kept. */
  function Spaced(us: seq<Boundary>): (r: seq<Boundary>)
    requires |us| > 0
    ensures |r| > 0 && r[0] == us[0]
    ensures forall i :: 0 < i < |r| ==> r[i].position - r[i - 1].position > 100
  {
    if |us| == 1 then [us[0]]
    else
      var f := Spaced(us[..|us| - 1]);
      var last := us[|us| - 1];
      if last.position - f[|f| - 1].position > 100 then f + [last] else f
  }

  /** Every boundary the spacing pass keeps was an input. */
  lemma {:induction false} SpacedFrom(us: seq<Boundary>)
    requires |us| > 0
    ensures forall i :: 0 <= i < |Spaced(us)| ==> Spaced(us)[i] in us
  {
    if |us| > 1 {
      var init := us[..|us| - 1];
      SpacedFrom(init);
      assert forall x :: x in init ==> x in us;
    }
  }

  /** `_find_report_boundaries` for the given text. */
  function Boundaries(ps: Patterns, text: string): seq<Boundary>
    requires WellFormed(ps)
  {
    var lines := Split(text, '\n');
    var u := Unique(SortByPosition(Candidates(ps, lines, |lines|)));
    if |u| == 0 then [Start] else Spaced(u)
  }

  /** The boundaries start at 0 with the document start and rise strictly,
      by more than 100 characters each. */
  lemma BoundariesInOrder(ps: Patterns, text: string)
    requires WellFormed(ps)
    ensures |Boundaries(ps, text)| > 0 && Boundaries(ps, text)[0] == Start
    ensures forall i :: 0 < i < |Boundaries(ps, text)| ==>
      Boundaries(ps, text)[i].position - Boundaries(ps, text)[i - 1].position > 100
    ensures StrictlyIncreasing(Boundaries(ps, text))
  {
    var lines := Split(text, '\n');
    var cs := Candidates(ps, lines, |lines|);
    CandidatesShape(ps, lines, |lines|);
    SortSorted(cs);
    UniqueKeepsFirst(cs);
    var u := Unique(cs);
    var bs := Spaced(u);
    assert Boundaries(ps, text) == bs;
    forall i, j | 0 <= i < j < |bs|
      ensures bs[i].position < bs[j].position
    {
      SpacedIncreasing(u, i, j);
    }
  }

  /** Every boundary was a candidate. */
  lemma BoundariesFrom(ps: Patterns, text: string)
    requires WellFormed(ps)
    ensures forall b :: b in Boundaries(ps, text) ==>
      b in Candidates(ps, Split(text, '\n'), |Split(text, '\n')|)
  {
    var lines := Split(text, '\n');
    var cs := Candidates(ps, lines, |lines|);
    CandidatesSettled(ps, lines);
    UniqueFrom(cs);
    var u := Unique(cs);
    SpacedFrom(u);
    forall b | b in Boundaries(ps, text)
      ensures b in cs
    {
      var i :| 0 <= i < |Spaced(u)| && Spaced(u)[i] == b;
      var j :| 0 <= j < |u| && u[j] == b;
    }
  }

  /** Line `k` of `s.split(c)` starts inside `s`. */
  lemma LineInside(s: string, c: char, k: nat)
    requires k < |Split(s, c)|
    ensures LineStart(Split(s, c), k) <= |s|
  {
    SplitOffsets(s, c, k);
  }

  /** Every line but the first starts right after a separator. */
  lemma SeparatorBefore(s: string, c: char, k: nat)
    requires 0 < k < |Split(s, c)|
    ensures 0 < LineStart(Split(s, c), k) <= |s| && s[LineStart(Split(s, c), k) - 1] == c
  {
    var lines := Split(s, c);
    SplitOffsets(s, c, k - 1);
    LineStartNext(lines, k - 1);
  }

  /** A boundary on line `k` of the text sits right after a newline, or at
      0, inside the text. */
  lemma LineStartInText(text: string, b: Boundary)
    requires OnLine(Split(text, '\n'), b)
    ensures b.position <= |text| && (b.position == 0 || text[b.position - 1] == '\n')
  {
    LineInside(text, '\n', b.lineNumber);
    if b.lineNumber > 0 {
      SeparatorBefore(text, '\n', b.lineNumber);
    }
  }

  /** Boundaries on lines of the text sit right after a newline, or at 0,
      inside the text. */
  lemma OnLinesInText(text: string, bs: seq<Boundary>)
    requires forall b :: b in bs ==> OnLine(Split(text, '\n'), b)
    ensures forall i :: 0 <= i < |bs| ==> OnLine(Split(text, '\n'), bs[i])
    ensures forall i :: 0 <= i < |bs| ==>
      bs[i].position <= |text| && (bs[i].position == 0 || text[bs[i].position - 1] == '\n')
  {
    forall i | 0 <= i < |bs|
      ensures OnLine(Split(text, '\n'), bs[i])
      ensures bs[i].position <= |text| && (bs[i].position == 0 || text[bs[i].position - 1] == '\n')
    {
      var b := bs[i];
      assert b in bs;
      LineStartInText(text, b);
      assert b.position <= |text|;
      if b.position > 0 {
        assert text[b.position - 1] == '\n';
      }
    }
  }

  /** Every boundary sits at the start of a line: right after a newline,
      inside the text. */
  lemma BoundariesOnLines(ps: Patterns, text: string)
    requires WellFormed(ps)
    ensures forall i :: 0 <= i < |Boundaries(ps, text)| ==>
      OnLine(Split(text, '\n'), Boundaries(ps, text)[i])
    ensures forall i :: 0 <= i < |Boundaries(ps, text)| ==>
      Boundaries(ps, text)[i].position <= |text|
      && (Boundaries(ps, text)[i].position == 0
          || text[Boundaries(ps, text)[i].position - 1] == '\n')
  {
    var lines := Split(text, '\n');
    BoundariesFrom(ps, text);
    CandidatesOnLines(ps, lines);
    OnLinesVia(text, Boundaries(ps, text), Candidates(ps, lines, |lines|));
  }

  /** Every candidate sits at the start of its line. */
  lemma CandidatesOnLines(ps: Patterns, lines: seq<string>)
    requires WellFormed(ps) && 0 < |lines|
    ensures forall b :: b in Candidates(ps, lines, |lines|) ==> OnLine(lines, b)
  {
    var t := HitTable(ps, lines);
    HitTableOnLines(ps, lines);
    CollectOnLines(lines, t, |lines|);
    OnLinesMember(lines, Collect(t, |lines|));
  }

  lemma OnLinesMember(lines: seq<string>, cs: seq<Boundary>)
    requires forall i :: 0 <= i < |cs| ==> OnLine(lines, cs[i])
    ensures forall b :: b in cs ==> OnLine(lines, b)
  {
  }

  lemma OnLinesVia(text: string, bs: seq<Boundary>, cs: seq<Boundary>)
    requires forall b :: b in bs ==> b in cs
    requires forall b :: b in cs ==> OnLine(Split(text, '\n'), b)
    ensures forall i :: 0 <= i < |bs| ==> OnLine(Split(text, '\n'), bs[i])
    ensures forall i :: 0 <= i < |bs| ==>
      bs[i].position <= |text| && (bs[i].position == 0 || text[bs[i].position - 1] == '\n')
  {
    OnLinesInText(text, bs);
  }

  /** The boundaries are placed inside the text, rising strictly. */
  lemma BoundariesPlaced(ps: Patterns, text: string)
    requires WellFormed(ps)
    ensures Placed(Boundaries(ps, text), text)
  {
    BoundariesInOrder(ps, text);
    BoundariesOnLines(ps, text);
  }

  /** Spacing keeps positions strictly increasing. */
  lemma SpacedIncreasing(us: seq<Boundary>, i: nat, j: nat)
    requires |us| > 0 && i < j < |Spaced(us)|
    ensures Spaced(us)[i].position < Spaced(us)[j].position
    decreases j - i
  {
    if i + 1 < j {
      SpacedIncreasing(us, i + 1, j);
    }
  }

  // ---------------------------------------------------------------------
  // Segmentation

  /** One detected report. */
  datatype Report = Report(
    reportId: string, content: string, startPos: nat, endPos: nat, confidence: real)

  /** "Report_<n>" */
  function ReportId(n: nat): string {
    "Report_" + ShowNat(n)
  }

  /** Boundaries with rising positions inside the text. */
  predicate Placed(bs: seq<Boundary>, text: string) {
    && (forall i :: 0 <= i < |bs| ==> bs[i].position <= |text|)
    && StrictlyIncreasing(bs)
  }

  /** Where segment `i` ends: at the next boundary, or the end of the
      text. */
  function SegmentEnd(bs: seq<Boundary>, text: string, i: nat): nat
    requires Placed(bs, text) && i < |bs|
  {
    if i + 1 < |bs| then bs[i + 1].position else |text|
  }

  /** The report cut at boundary `i`, before the length test. */
  function SegmentAt(bs: seq<Boundary>, text: string, i: nat): Report
    requires Placed(bs, text) && i < |bs|
  {
    var start, end := bs[i].position, SegmentEnd(bs, text, i);
    Report(ReportId(i + 1), Strip(text[start..end]), start, end, bs[i].confidence)
  }

  /** The report cut at every boundary, before the length test. */
  function Cuts(bs: seq<Boundary>, text: string): (cs: seq<Report>)
    requires Placed(bs, text)
    ensures |cs| == |bs|
  {
    seq(|bs|, i requires 0 <= i < |bs| => SegmentAt(bs, text, i))
  }

  /** More than 50 characters once stripped. */
  predicate LongEnough(r: Report) {
    |r.content| > 50
  }

  /** The segments longer than 50 characters once stripped, in order. */
  function Segments(bs: seq<Boundary>, text: string): seq<Report>
    requires Placed(bs, text)
  {
    Filter(Cuts(bs, text), LongEnough)
  }

  /** Every report is the segment of some boundary and keeps more than 50
      characters. */
  lemma SegmentsFrom(bs: seq<Boundary>, text: string)
    requires Placed(bs, text)
    ensures forall r :: r in Segments(bs, text) ==>
      |r.content| > 50 && exists i :: 0 <= i < |bs| && r == SegmentAt(bs, text, i)
  {
    var cs := Cuts(bs, text);
    forall r | r in Segments(bs, text)
      ensures |r.content| > 50 && exists i :: 0 <= i < |bs| && r == SegmentAt(bs, text, i)
    {
      FilterIff(cs, LongEnough, r);
      var i :| 0 <= i < |cs| && cs[i] == r;
    }
  }

  /** The reports come in text order: their starts rise strictly. */
  lemma SegmentsInOrder(bs: seq<Boundary>, text: string)
    requires Placed(bs, text)
    ensures forall k, k' :: 0 <= k < k' < |Segments(bs, text)| ==>
      Segments(bs, text)[k].startPos < Segments(bs, text)[k'].startPos
  {
    var cs := Cuts(bs, text);
    var key := (r: Report) => r.startPos as int;
    forall i, j | 0 <= i < j < |cs|
      ensures key(cs[i]) < key(cs[j])
    {
      assert cs[i].startPos == bs[i].position && cs[j].startPos == bs[j].position;
    }
    FilterIncreasing(cs, LongEnough, key);
  }

  /** `MultiReportDetector.detect_multiple_reports`: nothing for text under
      50 characters once stripped; the whole text as "Report_1" when there
      is a single boundary; otherwise the long-enough segments. */
  function DetectSpec(ps: Patterns, text: string): seq<Report>
    requires WellFormed(ps)
  {
    if |Strip(text)| < 50 then []
    else
      var bs := Boundaries(ps, text);
      BoundariesPlaced(ps, text);
      if |bs| <= 1 then [Report(ReportId(1), text, 0, |text|, 0.95)]
      else Segments(bs, text)
  }

  // ---------------------------------------------------------------------
  // Validation

  /** `[a-zA-Z]{2,}` finds a match. */
  predicate HasWord(s: string) {
    exists i :: 0 <= i < |s| - 1 && IsAlpha(s[i]) && IsAlpha(s[i + 1])
  }

  /** The validation rule: at least 20 characters once stripped, and two
      adjacent letters, a digit, or at least 100 characters. */
  predicate Acceptable(content: string) {
    var n := |Strip(content)|;
    n >= 20 && (HasWord(content) || HasDigit(content) || n >= 100)
  }

  predicate IsValid(r: Report) {
    Acceptable(r.content)
  }

  /** The reports that pass validation, in order. */
  function Validated(rs: seq<Report>): seq<Report> {
    Filter(rs, IsValid)
  }

  /** Validation keeps exactly the acceptable reports, and validating
      twice removes nothing more. */
  lemma ValidatedIff(rs: seq<Report>, x: Report)
    ensures x in Validated(rs) <==> x in rs && Acceptable(x.content)
    ensures Validated(Validated(rs)) == Validated(rs)
  {
    FilterIff(rs, IsValid, x);
    FilterIdempotent(rs, IsValid);
  }

  /** A segment's content is already stripped. */
  lemma SegmentStripped(bs: seq<Boundary>, text: string, i: nat)
    requires Placed(bs, text) && i < |bs|
    ensures Strip(SegmentAt(bs, text, i).content) == SegmentAt(bs, text, i).content
  {
    StripKeeps(SegmentAt(bs, text, i).content);
  }

  /** On detected reports the 20-character floor never applies: a detected
      report is dropped only when it has no two adjacent letters, no digit,
      and fewer than 100 characters once stripped. */
  lemma DetectedValidation(ps: Patterns, text: string, x: Report)
    requires WellFormed(ps) && x in DetectSpec(ps, text)
    ensures Acceptable(x.content) <==> HasWord(x.content) || HasDigit(x.content) || |Strip(x.content)| >= 100
  {
    assert |Strip(x.content)| >= 20 by {
      var bs := Boundaries(ps, text);
      BoundariesPlaced(ps, text);
      if |bs| > 1 {
        SegmentsFrom(bs, text);
        var i :| 0 <= i < |bs| && x == SegmentAt(bs, text, i);
        SegmentStripped(bs, text, i);
      }
    }
  }

  // ---------------------------------------------------------------------
  // The detector's passes

  /** The boundaries one line adds, appended to `acc`. */
  method ScanLine(ps: Patterns, line: string, lineNum: nat, pos: nat, acc: seq<Boundary>)
    returns (r: seq<Boundary>)
    requires WellFormed(ps)
    ensures r == acc + LineHits(ps, line, lineNum, pos)
  {
    var s := Strip(line);
    if s == "" {
      return acc;
    }
    var hits := CheckLine(ps, s, lineNum, pos);
    r := acc + hits;
  }

  /** The four checks on a stripped, non-blank line, in the detector's
      order. */
  method CheckLine(ps: Patterns, s: string, lineNum: nat, pos: nat) returns (hits: seq<Boundary>)
    requires WellFormed(ps)
    ensures hits == HitsOf(ps, s, lineNum, pos)
  {
    hits := [];
    var header := HeaderConfidence(ps, s);
    if header > 0.7 {
      hits := [Boundary(pos, HeaderPattern, header, lineNum, s)];
    }
    ghost var w1 := hits;
    var patient := PatientConfidence(ps, s);
    ghost var w2 := When(patient > 0.8, Boundary(pos, PatientMetadata, patient, lineNum, s));
    if patient > 0.8 {
      hits := hits + [Boundary(pos, PatientMetadata, patient, lineNum, s)];
    }
    assert hits == w1 + w2;
    var date := DateConfidence(ps, s);
    ghost var w3 := When(date > 0.6, Boundary(pos, DatePattern, date, lineNum, s));
    if date > 0.6 {
      hits := hits + [Boundary(pos, DatePattern, date, lineNum, s)];
    }
    assert hits == w1 + w2 + w3;
    var page := PageConfidence(ps, s);
    ghost var w4 := When(page > 0.9, Boundary(pos, PageBreak, page, lineNum, s));
    if page > 0.9 {
      hits := hits + [Boundary(pos, PageBreak, page, lineNum, s)];
    }
    assert hits == w1 + w2 + w3 + w4;
  }

  /** The `seen_positions` pass. */
  method DedupePositions(sorted: seq<Boundary>) returns (unique: seq<Boundary>)
    ensures unique == Unique(sorted)
  {
    unique := [];
    var seen: set<nat> := {};
    var i := 0;
    while i < |sorted|
      invariant 0 <= i <= |sorted|
      invariant unique == Unique(sorted[..i])
      invariant seen == Positions(unique)
    {
      var b := sorted[i];
      assert sorted[..i + 1][..i] == sorted[..i];
      if b.position !in seen {
        PositionsSnoc(unique, b);
        unique := unique + [b];
        seen := seen + {b.position};
      }
      i := i + 1;
    }
    assert sorted[..|sorted|] == sorted;
  }

  /** The spacing pass. */
  method KeepSpaced(unique: seq<Boundary>) returns (filtered: seq<Boundary>)
    requires |unique| > 0
    ensures filtered == Spaced(unique)
  {
    filtered := [unique[0]];
    assert unique[..1] == [unique[0]];
    var i := 1;
    while i < |unique|
      invariant 1 <= i <= |unique|
      invariant filtered == Spaced(unique[..i])
    {
      var b := unique[i];
      assert unique[..i + 1][..i] == unique[..i];
      if b.position - filtered[|filtered| - 1].position > 100 {
        filtered := filtered + [b];
      }
      i := i + 1;
    }
    assert unique[..|unique|] == unique;
  }

  /** Line `k` appends its hits to the candidates. */
  lemma CandidatesNext(ps: Patterns, lines: seq<string>, k: nat)
    requires WellFormed(ps) && k < |lines|
    ensures Candidates(ps, lines, k + 1)
      == Candidates(ps, lines, k) + LineHits(ps, lines[k], k, LineStart(lines, k))
  {
    assert HitTable(ps, lines)[k] == LineHits(ps, lines[k], k, LineStart(lines, k));
  }

  /** The collected candidates are already in position order, and
      de-duplication keeps at least the document start. */
  lemma CandidatesSettled(ps: Patterns, lines: seq<string>)
    requires WellFormed(ps) && 0 < |lines|
    ensures SortByPosition(Candidates(ps, lines, |lines|)) == Candidates(ps, lines, |lines|)
    ensures |Unique(Candidates(ps, lines, |lines|))| > 0
  {
    CandidatesShape(ps, lines, |lines|);
    SortSorted(Candidates(ps, lines, |lines|));
    UniqueKeepsFirst(Candidates(ps, lines, |lines|));
  }

  /** `_find_report_boundaries`: walk the lines, tracking each line's start
      offset, then sort, drop repeated positions and space them out. */
  method FindReportBoundaries(ps: Patterns, text: string) returns (bs: seq<Boundary>)
    requires WellFormed(ps)
    ensures bs == Boundaries(ps, text)
  {
    var lines := Split(text, '\n');
    var boundaries := [Start];
    var currentPos := 0;
    var lineNum := 0;
    while lineNum < |lines|
      invariant 0 <= lineNum <= |lines|
      invariant boundaries == Candidates(ps, lines, lineNum)
      invariant currentPos == LineStart(lines, lineNum)
    {
      var line := lines[lineNum];
      CandidatesNext(ps, lines, lineNum);
      boundaries := ScanLine(ps, line, lineNum, currentPos, boundaries);
      LineStartNext(lines, lineNum);
      currentPos := currentPos + |line| + 1;
      lineNum := lineNum + 1;
    }
    CandidatesSettled(ps, lines);
    var sorted := SortByPosition(boundaries);
    var unique := DedupePositions(sorted);
    bs := KeepSpaced(unique);
  }

  /** One more boundary adds its segment when it is long enough. */
  lemma CutStep(bs: seq<Boundary>, text: string, i: nat, reports: seq<Report>, segment: Report)
    requires Placed(bs, text) && i < |bs|
    requires reports == Filter(Cuts(bs, text)[..i], LongEnough)
    requires segment == SegmentAt(bs, text, i)
    ensures Filter(Cuts(bs, text)[..i + 1], LongEnough)
      == if |segment.content| > 50 then reports + [segment] else reports
  {
    var cs := Cuts(bs, text);
    FilterPrefixStep(cs, i, LongEnough);
    assert cs[i] == segment;
  }

  lemma FilterPrefixStep(xs: seq<Report>, i: nat, p: Report -> bool)
    requires i < |xs|
    ensures Filter(xs[..i + 1], p) == Filter(xs[..i], p) + When(p(xs[i]), xs[i])
  {
    assert xs[..i + 1][..i] == xs[..i];
  }

  /** The cutting loop: one report per boundary whose stripped segment is
      longer than 50 characters. */
  method CutSegments(bs: seq<Boundary>, text: string) returns (reports: seq<Report>)
    requires Placed(bs, text)
    ensures reports == Segments(bs, text)
  {
    ghost var cs := Cuts(bs, text);
    reports := [];
    var i := 0;
    while i < |bs|
      invariant 0 <= i <= |bs| == |cs|
      invariant reports == Filter(cs[..i], LongEnough)
    {
      var segment := SegmentAt(bs, text, i);
      CutStep(bs, text, i, reports, segment);
      if |segment.content| > 50 {
        reports := reports + [segment];
      }
      i := i + 1;
    }
    assert cs[..|cs|] == cs;
  }

  /** `MultiReportDetector.detect_multiple_reports` */
  method DetectMultipleReports(ps: Patterns, text: string) returns (reports: seq<Report>)
    requires WellFormed(ps)
    ensures reports == DetectSpec(ps, text)
  {
    if |Strip(text)| < 50 {
      return [];
    }
    var bs := FindReportBoundaries(ps, text);
    BoundariesPlaced(ps, text);
    if |bs| <= 1 {
      return [Report(ReportId(1), text, 0, |text|, 0.95)];
    }
    reports := CutSegments(bs, text);
  }

  /** `validate_reports` */
  method ValidateReports(reports: seq<Report>) returns (valid: seq<Report>)
    ensures valid == Validated(reports)
  {
    valid := [];
    var i := 0;
    while i < |reports|
      invariant 0 <= i <= |reports|
      invariant valid == Validated(reports[..i])
    {
      var content := reports[i].content;
      assert reports[..i + 1][..i] == reports[..i];
      var stripped := Strip(content);
      if |stripped| < 20 {
        i := i + 1;
        continue;
      }
      if HasWord(content) || HasDigit(content) {
        valid := valid + [reports[i]];
        i := i + 1;
        continue;
      }
      if |stripped| >= 100 {
        valid := valid + [reports[i]];
      }
      i := i + 1;
    }
    assert reports[..|reports|] == reports;
  }

  /** The module-level `detect_multiple_reports`: detection, then
      validation. */
  method DetectAndValidate(ps: Patterns, text: string) returns (reports: seq<Report>)
    requires WellFormed(ps)
    ensures reports == Validated(DetectSpec(ps, text))
  {
    var detected := DetectMultipleReports(ps, text);
    reports := ValidateReports(detected);
  }
}
