/** The multi-report question-answering assistant
    (`src/core/multi_report_qa_assistant.py`): its session memory, its
    response cache, the question preprocessing, the choice of relevant
    reports and the cache key. The language model, the service check, the
    clock and Python's `hash` reach the model as parameters. */
module MultiReportQa {
  import opened Common
  import opened Numeric

  // ---------------------------------------------------------------------
  // Session memory

  /** Session memory keeps the 20 most recent entries after a response. */
  const MemoryLimit: nat := 20

  datatype EntryKind = Question | Response

  /** One `{'type', 'content', 'timestamp'}` record of the chat history. */
  datatype MemoryEntry = MemoryEntry(kind: EntryKind, content: string, timestamp: string)

  /** `memory[-20:]` when the memory is longer than 20 entries. */
  function Recent(m: seq<MemoryEntry>): (r: seq<MemoryEntry>)
    ensures |r| <= MemoryLimit
    ensures |m| <= MemoryLimit ==> r == m
    ensures |m| > MemoryLimit ==> |r| == MemoryLimit
    ensures r == m[|m| - |r|..]
  {
    if |m| > MemoryLimit then m[|m| - MemoryLimit..] else m
  }

  /** `_add_response_to_memory`: append the response, then trim. */
  function Remember(m: seq<MemoryEntry>, response: string, at: string): seq<MemoryEntry> {
    Recent(m + [MemoryEntry(Response, response, at)])
  }

  /** Adding a response keeps at most 20 entries, and the response just
      added is the newest one; nothing is dropped while there is room. */
  lemma RememberNewest(m: seq<MemoryEntry>, response: string, at: string)
    ensures var r := Remember(m, response, at);
      |r| <= MemoryLimit && |r| > 0 && r[|r| - 1] == MemoryEntry(Response, response, at)
    ensures |m| < MemoryLimit ==> Remember(m, response, at) == m + [MemoryEntry(Response, response, at)]
  {
    var full := m + [MemoryEntry(Response, response, at)];
    var r := Recent(full);
    assert r == full[|full| - |r|..];
    if |full| <= MemoryLimit {
      assert r == full;
    } else {
      assert r[|r| - 1] == full[|full| - 1];
    }
  }

  /** The number of `'question'` entries. */
  function CountQuestions(m: seq<MemoryEntry>): (n: nat)
    ensures n <= |m|
  {
    if |m| == 0 then 0
    else CountQuestions(m[..|m| - 1]) + (if m[|m| - 1].kind == Question then 1 else 0)
  }

  /** A question entry adds one to the count, a response entry nothing. */
  lemma CountQuestionsSnoc(m: seq<MemoryEntry>, e: MemoryEntry)
    ensures CountQuestions(m + [e]) == CountQuestions(m) + (if e.kind == Question then 1 else 0)
  {
    assert (m + [e])[..|m|] == m;
  }

  /** The positions of `m` holding a question. */
  function QuestionPositions(m: seq<MemoryEntry>): set<int> {
    set i | 0 <= i < |m| && m[i].kind == Question
  }

  /** One more entry adds its position exactly when it is a question. */
  lemma QuestionPositionsSnoc(m: seq<MemoryEntry>)
    requires |m| > 0
    ensures QuestionPositions(m) ==
      QuestionPositions(m[..|m| - 1]) + (if m[|m| - 1].kind == Question then {|m| - 1} else {})
  {
    var init := m[..|m| - 1];
    var extra: set<int> := if m[|m| - 1].kind == Question then {|m| - 1} else {};
    forall i | i in QuestionPositions(m)
      ensures i in QuestionPositions(init) + extra
    {
      if i < |init| {
        assert init[i] == m[i];
      }
    }
    forall i | i in QuestionPositions(init) + extra
      ensures i in QuestionPositions(m)
    {
      if i < |init| {
        assert init[i] == m[i];
      }
    }
  }

  /** The count is exactly the number of positions holding a question. */
  lemma {:induction false} CountQuestionsIsCount(m: seq<MemoryEntry>)
    ensures CountQuestions(m) == |QuestionPositions(m)|
  {
    if |m| > 0 {
      var init := m[..|m| - 1];
      CountQuestionsIsCount(init);
      QuestionPositionsSnoc(m);
      assert |m| - 1 !in QuestionPositions(init);
    }
  }

  // ---------------------------------------------------------------------
  // Response cache

  /** The cache is trimmed once it holds more than 100 answers ... */
  const CacheLimit: nat := 100
  /** ... by deleting the 20 oldest keys. */
  const EvictCount: nat := 20

  /** The cache after the size check of `answer_question`. */
  function Evicted(c: Dict<string>): (r: Dict<string>)
    ensures |c| <= CacheLimit ==> r == c
  {
    if |c| > CacheLimit then c[EvictCount..] else c
  }

  /** With at most one answer over the limit, the size check brings the
      cache back within 100 entries and keeps the newest entry. */
  lemma EvictedBound(c: Dict<string>)
    requires 0 < |c| <= CacheLimit + 1
    ensures |Evicted(c)| <= CacheLimit
    ensures |Evicted(c)| > 0 && Evicted(c)[|Evicted(c)| - 1] == c[|c| - 1]
    ensures forall e :: e in Evicted(c) ==> e in c
  {
  }

  /** Deleting a key that is not there changes nothing. */
  lemma {:induction false} RemoveAbsent(d: Dict<string>, k: string)
    requires !HasKey(d, k)
    ensures Remove(d, k) == d
  {
    if |d| > 0 {
      forall i | 0 <= i < |d| - 1
        ensures d[1..][i].0 != k
      {
        assert d[1..][i] == d[i + 1];
      }
      RemoveAbsent(d[1..], k);
      assert d == [d[0]] + d[1..];
    }
  }

  /** Deleting the oldest key of a dict drops exactly its first entry. */
  lemma RemoveOldest(d: Dict<string>)
    requires |d| > 0 && DistinctKeys(d)
    ensures Remove(d, d[0].0) == d[1..]
  {
    forall i | 0 <= i < |d| - 1
      ensures d[1..][i].0 != d[0].0
    {
      assert d[1..][i] == d[i + 1];
    }
    RemoveAbsent(d[1..], d[0].0);
  }

  // ---------------------------------------------------------------------
  // Question preprocessing

  /** `multi_report_keywords`, in insertion order: a keyword and the
      context marker it adds. */
  const Markers: seq<(string, string)> := [
    ("compare", "comparison"),
    ("difference", "comparison"),
    ("between reports", "comparison"),
    ("first report", "Report_1"),
    ("second report", "Report_2"),
    ("latest report", "latest"),
    ("previous report", "previous"),
    ("trend", "trend_analysis"),
    ("change", "trend_analysis"),
    ("improvement", "trend_analysis"),
    ("worse", "trend_analysis")
  ]

  /** The index of the first entry whose keyword occurs in `lower`, or
      `|table|` when none does. */
  function FirstMatch(lower: string, table: seq<(string, string)>): (i: nat)
    ensures i <= |table|
    ensures i < |table| ==> Contains(lower, table[i].0)
    ensures forall j :: 0 <= j < i ==> !Contains(lower, table[j].0)
  {
    if |table| == 0 then 0
    else if Contains(lower, table[0].0) then 0
    else 1 + FirstMatch(lower, table[1..])
  }

  /** The first match is the only index that matches with no earlier
      match. */
  lemma FirstMatchUnique(lower: string, table: seq<(string, string)>, i: nat)
    requires i <= |table|
    requires i < |table| ==> Contains(lower, table[i].0)
    requires forall j :: 0 <= j < i ==> !Contains(lower, table[j].0)
    ensures FirstMatch(lower, table) == i
  {
    var f := FirstMatch(lower, table);
    if f < i {
      assert false;
    } else if i < f {
      assert false;
    }
  }

  /** `_preprocess_multi_report_question` */
  function Preprocessed(question: string): string {
    var q := Strip(question);
    var i := FirstMatch(Lower(q), Markers);
    if i < |Markers| then "[" + Markers[i].1 + "] " + q else q
  }

  /** The question gets the marker of the first keyword, in table order,
      that occurs in it. */
  lemma MarkerOfFirstKeyword(question: string, i: nat)
    requires i < |Markers|
    requires Contains(Lower(Strip(question)), Markers[i].0)
    requires forall j :: 0 <= j < i ==> !Contains(Lower(Strip(question)), Markers[j].0)
    ensures Preprocessed(question) == "[" + Markers[i].1 + "] " + Strip(question)
  {
    FirstMatchUnique(Lower(Strip(question)), Markers, i);
  }

  /** Without any keyword the question is only trimmed. */
  lemma NoKeywordNoMarker(question: string)
    requires forall j :: 0 <= j < |Markers| ==> !Contains(Lower(Strip(question)), Markers[j].0)
    ensures Preprocessed(question) == Strip(question)
  {
    FirstMatchUnique(Lower(Strip(question)), Markers, |Markers|);
  }

  /** The keyword loop of `_preprocess_multi_report_question`: it stops
      at the first keyword found in `lower`. */
  method FindKeyword(lower: string, table: seq<(string, string)>) returns (i: nat)
    ensures i == FirstMatch(lower, table)
  {
    i := 0;
    while i < |table|
      invariant i <= FirstMatch(lower, table)
    {
      if Contains(lower, table[i].0) {
        return;
      }
      i := i + 1;
    }
  }

  /** `_preprocess_multi_report_question`: trim, then prefix the marker
      of the first keyword found. */
  method PreprocessQuestion(question: string) returns (r: string)
    ensures r == Preprocessed(question)
  {
    r := Strip(question);
    var i := FindKeyword(Lower(r), Markers);
    if i < |Markers| {
      r := "[" + Markers[i].1 + "] " + r;
    }
  }

  // ---------------------------------------------------------------------
  // Report ids in Python's string order

  /** `a <= b` on Python strings: code point by code point, a proper
      prefix first. */
  predicate LexLe(a: string, b: string)
    decreases |a|
  {
    |a| == 0 || (|b| > 0 && (a[0] < b[0] || (a[0] == b[0] && LexLe(a[1..], b[1..]))))
  }

  lemma {:induction false} LexTotal(a: string, b: string)
    ensures LexLe(a, b) || LexLe(b, a)
    decreases |a|
  {
    if |a| > 0 && |b| > 0 && a[0] == b[0] {
      LexTotal(a[1..], b[1..]);
    }
  }

  lemma {:induction false} LexTrans(a: string, b: string, c: string)
    requires LexLe(a, b) && LexLe(b, c)
    ensures LexLe(a, c)
    decreases |a|
  {
    if |a| > 0 && a[0] == b[0] && b[0] == c[0] {
      LexTrans(a[1..], b[1..], c[1..]);
    }
  }

  lemma {:induction false} LexAntisym(a: string, b: string)
    requires LexLe(a, b) && LexLe(b, a)
    ensures a == b
    decreases |a|
  {
    if |a| > 0 {
      LexAntisym(a[1..], b[1..]);
      assert a == [a[0]] + a[1..] && b == [b[0]] + b[1..];
    }
  }

  predicate Ordered(s: seq<string>) {
    forall i, j :: 0 <= i < j < |s| ==> LexLe(s[i], s[j])
  }

  function InsertId(x: string, s: seq<string>): (r: seq<string>)
    ensures multiset(r) == multiset(s) + multiset{x}
  {
    if |s| == 0 then [x]
    else if LexLe(x, s[0]) then [x] + s
    else
      assert s == [s[0]] + s[1..];
      [s[0]] + InsertId(x, s[1..])
  }

  /** `sorted(ids)` */
  function SortIds(s: seq<string>): (r: seq<string>)
    ensures multiset(r) == multiset(s)
  {
    if |s| == 0 then []
    else
      assert s == [s[0]] + s[1..];
      InsertId(s[0], SortIds(s[1..]))
  }

  lemma {:induction false} InsertOrdered(x: string, s: seq<string>)
    requires Ordered(s)
    ensures Ordered(InsertId(x, s))
  {
    if |s| > 0 && !LexLe(x, s[0]) {
      LexTotal(x, s[0]);
      var tail := s[1..];
      OrderedTail(s);
      InsertOrdered(x, tail);
      var t := InsertId(x, tail);
      forall k | 0 <= k < |t|
        ensures LexLe(s[0], t[k])
      {
        assert t[k] in multiset(tail) + multiset{x};
        if t[k] != x {
          assert t[k] in tail;
          var m :| 0 <= m < |tail| && tail[m] == t[k];
          assert s[m + 1] == t[k];
        }
      }
      ConsOrdered(s[0], t);
    } else if |s| > 0 {
      forall k | 0 <= k < |s|
        ensures LexLe(x, s[k])
      {
        if k > 0 {
          LexTrans(x, s[0], s[k]);
        }
      }
      ConsOrdered(x, s);
    }
  }

  lemma OrderedTail(s: seq<string>)
    requires Ordered(s) && |s| > 0
    ensures Ordered(s[1..])
  {
    var tail := s[1..];
    forall i, j | 0 <= i < j < |tail|
      ensures LexLe(tail[i], tail[j])
    {
      assert tail[i] == s[i + 1] && tail[j] == s[j + 1];
    }
  }

  lemma ConsOrdered(a: string, t: seq<string>)
    requires Ordered(t)
    requires forall k :: 0 <= k < |t| ==> LexLe(a, t[k])
    ensures Ordered([a] + t)
  {
    var r := [a] + t;
    forall i, j | 0 <= i < j < |r|
      ensures LexLe(r[i], r[j])
    {
      assert r[j] == t[j - 1];
      if i > 0 {
        assert r[i] == t[i - 1];
      }
    }
  }

  /** Sorting puts the ids in Python's string order. */
  lemma {:induction false} SortIdsOrdered(s: seq<string>)
    ensures Ordered(SortIds(s))
  {
    if |s| > 0 {
      SortIdsOrdered(s[1..]);
      InsertOrdered(s[0], SortIds(s[1..]));
    }
  }

  /** The last sorted id is the greatest. */
  lemma SortedLastGreatest(s: seq<string>)
    requires |s| > 0
    ensures var t := SortIds(s);
      |t| == |s| && t[|t| - 1] in s && forall x :: x in s ==> LexLe(x, t[|t| - 1])
  {
    SortIdsOrdered(s);
    OrderedLastGreatest(SortIds(s), s);
  }

  /** In an ordered arrangement of `s`, the last element is a greatest
      element of `s`. */
  lemma OrderedLastGreatest(t: seq<string>, s: seq<string>)
    requires Ordered(t) && multiset(t) == multiset(s) && |s| > 0
    ensures |t| == |s| && t[|t| - 1] in s && forall x :: x in s ==> LexLe(x, t[|t| - 1])
  {
    assert |t| == |multiset(t)| == |multiset(s)| == |s|;
    assert t[|t| - 1] in multiset(s);
    forall x | x in s
      ensures LexLe(x, t[|t| - 1])
    {
      assert x in multiset(t);
      var k :| 0 <= k < |t| && t[k] == x;
      if k == |t| - 1 {
        LexTotal(x, x);
      }
    }
  }

  // ---------------------------------------------------------------------
  // Relevant reports

  /** `_identify_relevant_reports`, given the loaded report ids in
      insertion order. The comparison branch returns the same as the
      default. */
  function RelevantReports(question: string, ids: seq<string>): seq<string> {
    var lower := Lower(question);
    if Contains(lower, "report_1") || Contains(lower, "first report") then ["Report_1"]
    else if Contains(lower, "report_2") || Contains(lower, "second report") then ["Report_2"]
    else if Contains(lower, "latest") then
      var sorted := SortIds(ids);
      if |sorted| > 0 then [sorted[|sorted| - 1]] else []
    else if Contains(lower, "previous") then
      var sorted := SortIds(ids);
      if |sorted| > 1 then sorted[..|sorted| - 1] else []
    else ids
  }

  /** A question naming the first (second) report gets "Report_1"
      ("Report_2"), whether or not such a report is loaded. */
  lemma RelevantNamed(question: string, ids: seq<string>)
    ensures var lower := Lower(question);
      (Contains(lower, "report_1") || Contains(lower, "first report"))
        ==> RelevantReports(question, ids) == ["Report_1"]
    ensures var lower := Lower(question);
      (!Contains(lower, "report_1") && !Contains(lower, "first report")
       && (Contains(lower, "report_2") || Contains(lower, "second report")))
        ==> RelevantReports(question, ids) == ["Report_2"]
  {
  }

  /** Only the questions about a specific, latest or previous report leave
      reports out. */
  predicate Unnamed(lower: string) {
    && !Contains(lower, "report_1") && !Contains(lower, "first report")
    && !Contains(lower, "report_2") && !Contains(lower, "second report")
  }

  /** "latest" picks the greatest loaded id, or nothing when none is
      loaded. */
  lemma RelevantLatest(question: string, ids: seq<string>)
    requires Unnamed(Lower(question)) && Contains(Lower(question), "latest")
    ensures |ids| == 0 ==> RelevantReports(question, ids) == []
    ensures |ids| > 0 ==> exists m :: (m in ids && RelevantReports(question, ids) == [m]
      && forall x :: x in ids ==> LexLe(x, m))
  {
    if |ids| > 0 {
      SortedLastGreatest(ids);
      var t := SortIds(ids);
      assert RelevantReports(question, ids) == [t[|t| - 1]];
    } else {
      assert SortIds(ids) == [];
    }
  }

  /** "previous" picks every loaded id but the greatest, in sorted order,
      or nothing when at most one is loaded. */
  lemma RelevantPrevious(question: string, ids: seq<string>)
    requires Unnamed(Lower(question)) && !Contains(Lower(question), "latest")
    requires Contains(Lower(question), "previous")
    ensures |ids| <= 1 ==> RelevantReports(question, ids) == []
    ensures |ids| > 1 ==> var r := RelevantReports(question, ids);
      && Ordered(r)
      && exists m :: (m in ids && multiset(r) + multiset{m} == multiset(ids)
         && forall x :: x in r ==> LexLe(x, m))
  {
    var t := SortIds(ids);
    assert |t| == |ids| by {
      assert |t| == |multiset(t)| == |ids|;
    }
    if |ids| > 1 {
      var r := t[..|t| - 1];
      var m := t[|t| - 1];
      assert Ordered(r) && m in ids && multiset(r) + multiset{m} == multiset(ids)
        && forall x :: x in r ==> LexLe(x, m)
      by {
        SortIdsOrdered(ids);
        assert t == r + [m];
        OrderedButLast(t, r, m);
        assert m in multiset(t);
      }
      assert RelevantReports(question, ids) == r;
    }
  }

  /** Dropping the last of an ordered sequence leaves it ordered, and
      every element left is at most the dropped one. */
  lemma OrderedButLast(t: seq<string>, r: seq<string>, m: string)
    requires Ordered(t) && t == r + [m]
    ensures Ordered(r)
    ensures forall x :: x in r ==> LexLe(x, m)
    ensures multiset(t) == multiset(r) + multiset{m}
  {
    forall i, j | 0 <= i < j < |r|
      ensures LexLe(r[i], r[j])
    {
      assert r[i] == t[i] && r[j] == t[j];
    }
    forall x | x in r
      ensures LexLe(x, m)
    {
      var k :| 0 <= k < |r| && r[k] == x;
      assert t[k] == x && t[|r|] == m;
    }
  }

  /** Any other question concerns every loaded report, in insertion
      order. */
  lemma RelevantDefault(question: string, ids: seq<string>)
    requires Unnamed(Lower(question))
    requires !Contains(Lower(question), "latest") && !Contains(Lower(question), "previous")
    ensures RelevantReports(question, ids) == ids
  {
  }

  // ---------------------------------------------------------------------
  // Cache key

  /** The phrases and characters deleted from a question, in order. */
  const Fillers: seq<string> := ["what is", "tell me about", "can you", "please", "?", "."]

  predicate NonEmptyAll(pats: seq<string>) {
    forall i :: 0 <= i < |pats| ==> |pats[i]| > 0
  }

  /** `s.replace(p, "")` for each `p` of `pats` in turn. */
  function RemoveAll(s: string, pats: seq<string>): string
    requires NonEmptyAll(pats)
    decreases |pats|
  {
    if |pats| == 0 then s else RemoveAll(Replace(s, pats[0], ""), pats[1..])
  }

  /** The normalised question of `_get_multi_report_cache_key`: lower-cased,
      trimmed, fillers deleted, whitespace runs collapsed to one space. */
  function NormalizedQuestion(question: string): string {
    Join(Words(RemoveAll(Strip(Lower(question)), Fillers)), " ")
  }

  /** Every character a replacement leaves came from the string or the
      replacement. */
  lemma {:induction false} ReplaceChars(s: string, pat: string, rep: string)
    requires |pat| > 0
    ensures forall c :: c in Replace(s, pat, rep) ==> c in s || c in rep
    decreases |s|
  {
    if |s| >= |pat| {
      if s[..|pat|] == pat {
        ReplaceChars(s[|pat|..], pat, rep);
        forall c | c in s[|pat|..]
          ensures c in s
        {
          var k :| 0 <= k < |s[|pat|..]| && s[|pat|..][k] == c;
          assert s[|pat| + k] == c;
        }
      } else {
        ReplaceChars(s[1..], pat, rep);
        assert s == [s[0]] + s[1..];
      }
    }
  }

  /** Replacing a one-character pattern by nothing leaves no such
      character. */
  lemma {:induction false} ReplaceDropsChar(s: string, c: char)
    ensures c !in Replace(s, [c], "")
    decreases |s|
  {
    if |s| >= 1 {
      ReplaceDropsChar(s[1..], c);
      assert s[..1] == [s[0]];
    }
  }

  /** Deleting more patterns only removes characters, and a deleted
      one-character pattern stays gone. */
  lemma {:induction false} RemoveAllChars(s: string, pats: seq<string>)
    requires NonEmptyAll(pats)
    ensures forall c :: c in RemoveAll(s, pats) ==> c in s
    ensures forall i :: 0 <= i < |pats| && |pats[i]| == 1 ==> pats[i][0] !in RemoveAll(s, pats)
    decreases |pats|
  {
    if |pats| > 0 {
      var t := Replace(s, pats[0], "");
      ReplaceChars(s, pats[0], "");
      RemoveAllChars(t, pats[1..]);
      if |pats[0]| == 1 {
        assert pats[0] == [pats[0][0]];
        ReplaceDropsChar(s, pats[0][0]);
      }
      forall i | 0 <= i < |pats| && |pats[i]| == 1
        ensures pats[i][0] !in RemoveAll(s, pats)
      {
        if i > 0 {
          assert pats[1..][i - 1] == pats[i];
        }
      }
    }
  }

  /** A property of every character of the string holds of every
      character of every word. */
  lemma {:induction false} WordsInside(s: string, p: char -> bool)
    requires forall k :: 0 <= k < |s| ==> p(s[k])
    ensures forall i, j :: 0 <= i < |Words(s)| && 0 <= j < |Words(s)[i]| ==> p(Words(s)[i][j])
    decreases |s|
  {
    var t := StripLeft(s);
    if t != "" {
      var w := TakeWord(t);
      var rest := t[|w|..];
      assert forall j :: 0 <= j < |w| ==> p(w[j]) by {
        PieceInside(s, t, w, p);
      }
      assert forall k :: 0 <= k < |rest| ==> p(rest[k]) by {
        PieceInside(s, t, w, p);
      }
      var tail := Words(rest);
      assert forall i, j :: 0 <= i < |tail| && 0 <= j < |tail[i]| ==> p(tail[i][j]) by {
        WordsInside(rest, p);
      }
      assert Words(s) == [w] + tail by {
        WordsCons(s, w, rest);
      }
      ConsInside(Words(s), w, tail, p);
    }
  }

  /** A word taken from the front of a suffix, and what follows it, keep
      a property of every character. */
  lemma PieceInside(s: string, t: string, w: string, p: char -> bool)
    requires forall k :: 0 <= k < |s| ==> p(s[k])
    requires |t| <= |s| && t == s[|s| - |t|..]
    requires |w| <= |t| && w == t[..|w|]
    ensures forall j :: 0 <= j < |w| ==> p(w[j])
    ensures forall k :: 0 <= k < |t[|w|..]| ==> p(t[|w|..][k])
  {
    SuffixInside(s, t, p);
    SuffixInside(t, t[|w|..], p);
    assert forall j :: 0 <= j < |w| ==> w[j] == t[j];
  }

  /** A property of every character holds on every suffix. */
  lemma SuffixInside(s: string, t: string, p: char -> bool)
    requires forall k :: 0 <= k < |s| ==> p(s[k])
    requires |t| <= |s| && t == s[|s| - |t|..]
    ensures forall k :: 0 <= k < |t| ==> p(t[k])
  {
    forall k | 0 <= k < |t|
      ensures p(t[k])
    {
      assert t[k] == s[|s| - |t| + k];
    }
  }

  lemma ConsInside(ws: seq<string>, w: string, tail: seq<string>, p: char -> bool)
    requires ws == [w] + tail
    requires forall j :: 0 <= j < |w| ==> p(w[j])
    requires forall i, j :: 0 <= i < |tail| && 0 <= j < |tail[i]| ==> p(tail[i][j])
    ensures forall i, j :: 0 <= i < |ws| && 0 <= j < |ws[i]| ==> p(ws[i][j])
  {
    forall i, j | 0 <= i < |ws| && 0 <= j < |ws[i]|
      ensures p(ws[i][j])
    {
      if i > 0 {
        assert ws[i] == tail[i - 1];
      }
    }
  }

  /** A string with a first word splits into that word and the words of
      what follows it. */
  lemma WordsCons(s: string, w: string, rest: string)
    requires StripLeft(s) != "" && w == TakeWord(StripLeft(s))
    requires rest == StripLeft(s)[|w|..]
    ensures Words(s) == [w] + Words(rest)
  {
  }

  /** Words joined by single spaces: every character is a word character
      or a space, and each space sits between two non-blank characters. */
  predicate SpacedWords(r: string, ws: seq<string>) {
    && (forall c :: c in r ==> c == ' ' || exists i :: 0 <= i < |ws| && c in ws[i])
    && (forall k :: 0 <= k < |r| && IsSpace(r[k]) ==>
          r[k] == ' ' && 0 < k < |r| - 1 && !IsSpace(r[k - 1]) && !IsSpace(r[k + 1]))
  }

  lemma {:induction false} JoinWords(ws: seq<string>)
    requires forall i :: 0 <= i < |ws| ==> IsWord(ws[i])
    ensures SpacedWords(Join(ws, " "), ws)
    ensures |ws| > 0 ==>
      |Join(ws, " ")| > 0 && !IsSpace(Join(ws, " ")[0])
      && !IsSpace(Join(ws, " ")[|Join(ws, " ")| - 1])
  {
    if |ws| == 1 {
      assert Join(ws, " ") == ws[0];
    } else if |ws| > 1 {
      var rest := ws[1..];
      JoinWords(rest);
      var w := ws[0];
      var j := Join(rest, " ");
      var r := w + " " + j;
      assert Join(ws, " ") == r;
      forall c | c in r
        ensures c == ' ' || exists i :: 0 <= i < |ws| && c in ws[i]
      {
        var k :| 0 <= k < |r| && r[k] == c;
        if k < |w| {
          assert w[k] == c;
        } else if k > |w| {
          assert j[k - |w| - 1] == c;
          assert c in j;
          if c != ' ' {
            var i :| 0 <= i < |rest| && c in rest[i];
            assert ws[i + 1] == rest[i];
          }
        }
      }
      forall k | 0 <= k < |r| && IsSpace(r[k])
        ensures r[k] == ' ' && 0 < k < |r| - 1 && !IsSpace(r[k - 1]) && !IsSpace(r[k + 1])
      {
        if k < |w| {
          assert false;
        } else if k > |w| {
          assert r[k] == j[k - |w| - 1];
          if k - |w| - 1 > 0 {
            assert r[k - 1] == j[k - |w| - 2];
          } else {
            assert false;
          }
          assert r[k + 1] == j[k - |w|];
        } else {
          assert r[k - 1] == w[|w| - 1];
          assert r[k + 1] == j[0];
        }
      }
      assert r[0] == w[0];
      assert r[|r| - 1] == j[|j| - 1];
    }
  }

  /** The normalised question has no upper-case letter, no '?' and no '.',
      and its only blanks are single spaces between words. */
  lemma NormalizedClean(question: string)
    ensures var n := NormalizedQuestion(question);
      && (forall c :: c in n ==> !IsUpperAscii(c) && c != '?' && c != '.')
      && (forall k :: 0 <= k < |n| && IsSpace(n[k]) ==>
            n[k] == ' ' && 0 < k < |n| - 1 && !IsSpace(n[k + 1]))
  {
    var n := NormalizedQuestion(question);
    assert CleanText(n) by {
      FillersNonEmpty();
      var removed := RemoveAll(Strip(Lower(question)), Fillers);
      RemovedClean(question);
      CleanJoined(removed);
    }
  }

  /** Splitting a clean string into words and joining them with single
      spaces gives a clean string whose blanks are single inner spaces. */
  lemma CleanJoined(removed: string)
    requires forall k :: 0 <= k < |removed| ==> CleanChar(removed[k])
    ensures CleanText(Join(Words(removed), " "))
  {
    var ws := Words(removed);
    WordsInside(removed, CleanChar);
    JoinWords(ws);
    SpacedInside(Join(ws, " "), ws, CleanChar);
  }

  /** Clean characters, and blanks only as single spaces between words. */
  predicate CleanText(n: string) {
    && (forall c :: c in n ==> CleanChar(c))
    && (forall k :: 0 <= k < |n| && IsSpace(n[k]) ==>
          n[k] == ' ' && 0 < k < |n| - 1 && !IsSpace(n[k + 1]))
  }

  /** What normalising leaves out: upper case, '?' and '.'. */
  predicate CleanChar(c: char) {
    !IsUpperAscii(c) && c != '?' && c != '.'
  }

  /** Lower-casing and deleting the fillers leaves no upper-case letter, no
      '?' and no '.'. */
  lemma RemovedClean(question: string)
    ensures NonEmptyAll(Fillers)
    ensures forall k :: 0 <= k < |RemoveAll(Strip(Lower(question)), Fillers)| ==>
      CleanChar(RemoveAll(Strip(Lower(question)), Fillers)[k])
  {
    var low := Strip(Lower(question));
    FillersNonEmpty();
    var removed := RemoveAll(low, Fillers);
    RemoveAllChars(low, Fillers);
    assert Fillers[4] == "?" && Fillers[5] == ".";
    StripInside(Lower(question), (c: char) => !IsUpperAscii(c));
    forall k | 0 <= k < |removed|
      ensures CleanChar(removed[k])
    {
      assert removed[k] in low;
    }
  }

  /** A property of the space and of every word character holds of every
      character of the joined words. */
  lemma SpacedInside(r: string, ws: seq<string>, p: char -> bool)
    requires SpacedWords(r, ws) && p(' ')
    requires forall i, j :: 0 <= i < |ws| && 0 <= j < |ws[i]| ==> p(ws[i][j])
    ensures forall c :: c in r ==> p(c)
  {
    forall c | c in r
      ensures p(c)
    {
      if c != ' ' {
        var i :| 0 <= i < |ws| && c in ws[i];
        var j :| 0 <= j < |ws[i]| && ws[i][j] == c;
      }
    }
  }

  /** The deletion loop of `_get_multi_report_cache_key`: each pattern in
      turn is replaced by nothing. */
  method DeleteAll(s: string, pats: seq<string>) returns (r: string)
    requires NonEmptyAll(pats)
    ensures r == RemoveAll(s, pats)
  {
    r := s;
    var i := 0;
    while i < |pats|
      invariant 0 <= i <= |pats|
      invariant RemoveAll(r, pats[i..]) == RemoveAll(s, pats)
    {
      assert pats[i..][1..] == pats[i + 1..];
      r := Replace(r, pats[i], "");
      i := i + 1;
    }
  }

  /** The normalisation of `_get_multi_report_cache_key`. */
  method NormalizeQuestion(question: string) returns (n: string)
    ensures n == NormalizedQuestion(question)
  {
    var low := Strip(Lower(question));
    FillersNonEmpty();
    var d := DeleteAll(low, Fillers);
    n := Join(Words(d), " ");
  }

  lemma FillersNonEmpty()
    ensures NonEmptyAll(Fillers)
  {
  }

  /** `str(i)` for a Python int. */
  function ShowInt(i: int): (s: string)
    ensures |s| >= 1
    ensures i < 0 <==> s[0] == '-'
  {
    if i < 0 then "-" + ShowNat(-i) else ShowNat(i)
  }

  /** Python truthiness of a JSON value, as in `if self.comparison_data`. */
  predicate JsonTruthy(j: Json) {
    match j
    case JNull => false
    case JBool(b) => b
    case JInt(i) => i != 0
    case JNum(r) => r != 0.0
    case JStr(t) => t != ""
    case JList(items) => items != []
    case JObj(fields) => fields != []
  }

  /** Python's `hash` of `str(...)`, fixed for the life of the process: of
      the sorted report ids, and of the comparison data. */
  datatype Hashes = Hashes(ids: seq<string> -> int, comparison: Json -> int)

  /** The state `answer_question` reads and writes: the loaded reports
      (id to analysis, in insertion order), the comparison, the chat
      history and the response cache (key to answer, in insertion
      order). */
  datatype Session = Session(
    reports: Dict<Json>,
    comparison: Option<Json>,
    memory: seq<MemoryEntry>,
    cache: Dict<string>)

  /** `_get_multi_report_cache_key`: the normalised question, the number of
      reports, whether a comparison is loaded, and the two hashes. */
  function CacheKey(s: Session, processed: string, h: Hashes): string {
    var comparisonHash :=
      if s.comparison.Some? && JsonTruthy(s.comparison.value) then h.comparison(s.comparison.value) else 0;
    "multi_" + NormalizedQuestion(processed) + KeySuffix(s, h, comparisonHash)
  }

  /** Everything of the cache key after the normalised question. */
  function KeySuffix(s: Session, h: Hashes, comparisonHash: int): string {
    "_" + ShowNat(|s.reports|) + "_" + (if s.comparison.Some? then "True" else "False")
      + "_" + ShowInt(h.ids(SortIds(Keys(s.reports)))) + "_" + ShowInt(comparisonHash)
  }

  /** Within one session two processed questions share a cache entry
      exactly when they normalise to the same text. */
  lemma CacheKeySeparates(s: Session, p1: string, p2: string, h: Hashes)
    ensures CacheKey(s, p1, h) == CacheKey(s, p2, h) <==> NormalizedQuestion(p1) == NormalizedQuestion(p2)
  {
    var n1 := NormalizedQuestion(p1);
    var n2 := NormalizedQuestion(p2);
    var k1 := CacheKey(s, p1, h);
    var k2 := CacheKey(s, p2, h);
    if k1 == k2 {
      var tail := k1[|"multi_"|..];
      var comparisonHash :=
        if s.comparison.Some? && JsonTruthy(s.comparison.value) then h.comparison(s.comparison.value) else 0;
      var suffix := KeySuffix(s, h, comparisonHash);
      assert k1 == "multi_" + n1 + suffix && k2 == "multi_" + n2 + suffix;
      assert |n1| == |n2|;
      assert n1 == k1[6..6 + |n1|];
      assert n2 == k2[6..6 + |n2|];
    }
  }

  /** The cache key does not depend on the chat history. */
  lemma KeyIgnoresMemory(s: Session, m: seq<MemoryEntry>, processed: string, h: Hashes)
    ensures CacheKey(s.(memory := m), processed, h) == CacheKey(s, processed, h)
  {
  }

  // ---------------------------------------------------------------------
  // Answering a question

  const NoDataMessage := "No blood report analysis data is currently loaded."
  const UnavailableMessage := "AI service is not available. Please ensure Ollama is running with Mistral model."
  const NoRelevantMessage := "No relevant report data available for analysis."
  const ErrorPrefix := "Error processing question: "

  /** What the language-model call gives back: an answer text (which
      already includes the model helper's own error texts), or an
      exception with its message. */
  datatype Outcome = Reply(text: string) | Raised(message: string)

  /** What one call of `answer_question` learns from outside: whether the
      service check succeeds, the report text `_extract_multi_report_data`
      builds for the chosen ids and the processed question, what the model
      call gives back, and the clock readings stamped on the question and on
      the response. */
  datatype World = World(
    available: bool,
    extract: (seq<string>, string) -> string,
    outcome: Outcome,
    askedAt: string,
    answeredAt: string)

  datatype Answered = Answered(answer: string, after: Session)

  /** `answer_question` on a session. */
  function AnswerSpec(s: Session, question: string, h: Hashes, w: World): Answered {
    if |s.reports| == 0 then Answered(NoDataMessage, s)
    else
      var processed := Preprocessed(question);
      Consult(Asked(s, question, w), processed, CacheKey(s, processed, h), w)
  }

  /** The session with the question appended to its memory. */
  function Asked(s: Session, question: string, w: World): Session {
    s.(memory := s.memory + [MemoryEntry(Question, question, w.askedAt)])
  }

  /** `answer_question` once the question is recorded and its cache key
      computed: the cache, then the service, then the report text, then
      the model. */
  function Consult(s: Session, processed: string, key: string, w: World): Answered {
    match Get(s.cache, key)
    case Some(cached) =>
      Answered(cached, s.(memory := Remember(s.memory, cached, w.answeredAt)))
    case None =>
      if !w.available then Answered(UnavailableMessage, s)
      else if w.extract(RelevantReports(processed, Keys(s.reports)), processed) == "" then
        Answered(NoRelevantMessage, s)
      else
        match w.outcome
        case Reply(t) =>
          Answered(t, s.(memory := Remember(s.memory, t, w.answeredAt),
                         cache := Evicted(Put(s.cache, key, t))))
        case Raised(e) => Answered(ErrorPrefix + e, s)
  }

  /** With reports loaded, answering is consulting under the question's
      key. */
  lemma AnswerConsults(s: Session, question: string, h: Hashes, w: World, processed: string, key: string)
    requires |s.reports| > 0
    requires processed == Preprocessed(question) && key == CacheKey(s, processed, h)
    ensures AnswerSpec(s, question, h, w) == Consult(Asked(s, question, w), processed, key, w)
  {
  }

  /** The cache invariant the assistant keeps: at most 100 answers, no key
      twice. */
  predicate CacheValid(c: Dict<string>) {
    |c| <= CacheLimit && DistinctKeys(c)
  }

  /** The key of the cache entry `answer_question` would look up. */
  function KeyFor(s: Session, question: string, h: Hashes): string {
    CacheKey(s, Preprocessed(question), h)
  }

  /** Dropping the oldest entries keeps the keys distinct. */
  lemma DistinctDrop(d: Dict<string>, n: nat)
    requires DistinctKeys(d) && n <= |d|
    ensures DistinctKeys(d[n..])
  {
    forall i, j | 0 <= i < j < |d[n..]|
      ensures d[n..][i].0 != d[n..][j].0
    {
      assert d[n..][i] == d[n + i] && d[n..][j] == d[n + j];
    }
  }

  /** With distinct keys, the newest entry is what its key looks up. */
  lemma GetNewest(d: Dict<string>)
    requires DistinctKeys(d) && |d| > 0
    ensures Get(d, d[|d| - 1].0) == Some(d[|d| - 1].1)
  {
    var i := IndexOf(d, d[|d| - 1].0);
    assert i == |d| - 1;
  }

  /** The cache after a fresh answer: the answer appended, then the size
      check. */
  lemma StoreFresh(c: Dict<string>, key: string, t: string)
    requires CacheValid(c) && !HasKey(c, key)
    ensures var r := Evicted(Put(c, key, t));
      CacheValid(r) && r[|r| - 1] == (key, t) && Get(r, key) == Some(t)
  {
    PutFresh(c, key, t);
    PutDistinct(c, key, t);
    var full := Put(c, key, t);
    if |full| > CacheLimit {
      DistinctDrop(full, EvictCount);
    }
    var r := Evicted(full);
    assert r[|r| - 1] == full[|full| - 1];
    GetNewest(r);
  }

  /** Answering never touches the reports or the comparison, and keeps
      the cache within 100 answers with distinct keys. */
  lemma AnswerKeepsCache(s: Session, question: string, h: Hashes, w: World)
    requires CacheValid(s.cache)
    ensures var a := AnswerSpec(s, question, h, w);
      CacheValid(a.after.cache) && a.after.reports == s.reports && a.after.comparison == s.comparison
  {
    if |s.reports| > 0 {
      var processed := Preprocessed(question);
      var key := CacheKey(s, processed, h);
      AnswerConsults(s, question, h, w, processed, key);
      ConsultKeepsCache(Asked(s, question, w), processed, key, w);
    }
  }

  lemma ConsultKeepsCache(s: Session, processed: string, key: string, w: World)
    requires CacheValid(s.cache)
    ensures var a := Consult(s, processed, key, w);
      CacheValid(a.after.cache) && a.after.reports == s.reports && a.after.comparison == s.comparison
  {
    if !HasKey(s.cache, key) && w.outcome.Reply? {
      StoreFresh(s.cache, key, w.outcome.text);
    }
  }

  /** An answer the model gives is returned, recorded as the newest memory
      entry, and stored in the cache under the question's key. */
  lemma AnswerStoresReply(s: Session, question: string, h: Hashes, w: World)
    requires CacheValid(s.cache) && |s.reports| > 0
    requires !HasKey(s.cache, KeyFor(s, question, h)) && w.available
    requires w.extract(RelevantReports(Preprocessed(question), Keys(s.reports)), Preprocessed(question)) != ""
    requires w.outcome.Reply?
    ensures var a := AnswerSpec(s, question, h, w);
      && a.answer == w.outcome.text
      && Get(a.after.cache, KeyFor(s, question, h)) == Some(w.outcome.text)
      && a.after.memory[|a.after.memory| - 1] == MemoryEntry(Response, w.outcome.text, w.answeredAt)
  {
    var key := KeyFor(s, question, h);
    assert Get(s.cache, key) == None;
    StoreFresh(s.cache, key, w.outcome.text);
    RememberNewest(s.memory + [MemoryEntry(Question, question, w.askedAt)], w.outcome.text, w.answeredAt);
  }

  /** Asking the same question again in the same session gets the cached
      answer back, whatever the service does the second time. */
  lemma AnswerTwice(s: Session, question: string, h: Hashes, w: World, w2: World)
    requires CacheValid(s.cache) && |s.reports| > 0
    requires !HasKey(s.cache, KeyFor(s, question, h)) && w.available
    requires w.extract(RelevantReports(Preprocessed(question), Keys(s.reports)), Preprocessed(question)) != ""
    requires w.outcome.Reply?
    ensures var a := AnswerSpec(s, question, h, w);
      AnswerSpec(a.after, question, h, w2).answer == a.answer
  {
    var a := AnswerSpec(s, question, h, w);
    AnswerStoresReply(s, question, h, w);
    assert KeyFor(a.after, question, h) == KeyFor(s, question, h);
  }

  /** A cache hit returns the stored answer, leaves the cache alone and
      records the answer as the newest memory entry. */
  lemma AnswerFromCache(s: Session, question: string, h: Hashes, w: World)
    requires |s.reports| > 0 && HasKey(s.cache, KeyFor(s, question, h))
    ensures var a := AnswerSpec(s, question, h, w);
      && (KeyFor(s, question, h), a.answer) in s.cache
      && a.after.cache == s.cache
      && |a.after.memory| <= MemoryLimit
      && a.after.memory[|a.after.memory| - 1] == MemoryEntry(Response, a.answer, w.answeredAt)
  {
    var a := AnswerSpec(s, question, h, w);
    RememberNewest(s.memory + [MemoryEntry(Question, question, w.askedAt)], a.answer, w.answeredAt);
  }

  /** Without loaded reports nothing changes. */
  lemma AnswerWithoutData(s: Session, question: string, h: Hashes, w: World)
    requires |s.reports| == 0
    ensures AnswerSpec(s, question, h, w) == Answered(NoDataMessage, s)
  {
  }

  /** When no response is recorded (service down, no report text, or an
      exception), the question is appended and the memory is not trimmed:
      it grows by one and counts one more question. */
  lemma UnansweredQuestionStays(s: Session, question: string, h: Hashes, w: World)
    requires |s.reports| > 0 && !HasKey(s.cache, KeyFor(s, question, h))
    requires !w.available || w.outcome.Raised?
      || w.extract(RelevantReports(Preprocessed(question), Keys(s.reports)), Preprocessed(question)) == ""
    ensures var a := AnswerSpec(s, question, h, w);
      && a.after == s.(memory := s.memory + [MemoryEntry(Question, question, w.askedAt)])
      && |a.after.memory| == |s.memory| + 1
      && CountQuestions(a.after.memory) == CountQuestions(s.memory) + 1
  {
    var processed := Preprocessed(question);
    var key := CacheKey(s, processed, h);
    AnswerConsults(s, question, h, w, processed, key);
    assert Get(s.cache, key) == None;
    CountQuestionsSnoc(s.memory, MemoryEntry(Question, question, w.askedAt));
  }

  /** So the memory can pass 20 entries: a full memory and an unavailable
      service leave 21. */
  lemma MemoryCanOverflow(s: Session, question: string, h: Hashes, w: World)
    requires |s.reports| > 0 && !HasKey(s.cache, KeyFor(s, question, h))
    requires |s.memory| == MemoryLimit && !w.available
    ensures |AnswerSpec(s, question, h, w).after.memory| == MemoryLimit + 1
  {
    UnansweredQuestionStays(s, question, h, w);
  }

  /** The eviction loop of `answer_question`: the first 20 keys, in
      insertion order, are deleted one by one. */
  method EvictFrom(c: Dict<string>) returns (r: Dict<string>)
    requires |c| > CacheLimit && DistinctKeys(c)
    ensures r == Evicted(c)
  {
    var oldest := Keys(c)[..EvictCount];
    r := c;
    var i := 0;
    while i < |oldest|
      invariant 0 <= i <= |oldest| == EvictCount
      invariant r == c[i..]
      invariant DistinctKeys(r)
    {
      assert r[0].0 == oldest[i];
      RemoveOldest(r);
      DistinctDrop(r, 1);
      r := Remove(r, oldest[i]);
      assert r == c[i + 1..];
      i := i + 1;
    }
  }

  // ---------------------------------------------------------------------
  // Session summary

  datatype Summary = Summary(
    reportsLoaded: nat,
    reportIds: seq<string>,
    comparisonAvailable: bool,
    questionsAsked: nat,
    sessionLength: nat,
    cacheSize: nat)

  /** `get_session_summary` */
  function Summarize(s: Session): (r: Summary)
    ensures r.questionsAsked <= r.sessionLength
    ensures |r.reportIds| == r.reportsLoaded
  {
    Summary(|s.reports|, Keys(s.reports), s.comparison.Some?,
            CountQuestions(s.memory), |s.memory|, |s.cache|)
  }

  // ---------------------------------------------------------------------
  // The assistant object

  /** `MultiReportQAAssistant`: the fields `answer_question` and its helpers
      update in place. */
  class Assistant {
    var reportsData: Dict<Json>
    var comparisonData: Option<Json>
    var sessionMemory: seq<MemoryEntry>
    var responseCache: Dict<string>

    function State(): Session
      reads this
    {
      Session(reportsData, comparisonData, sessionMemory, responseCache)
    }

    ghost predicate Valid()
      reads this
    {
      CacheValid(responseCache)
    }

    constructor()
      ensures State() == Session([], None, [], [])
      ensures Valid()
    {
      reportsData := [];
      comparisonData := None;
      sessionMemory := [];
      responseCache := [];
    }

    /** `load_multi_report_data`: new data and a fresh session memory; the
        cache is kept. */
    method LoadMultiReportData(reports: Dict<Json>, comparison: Option<Json>)
      modifies this
      ensures State() == old(State()).(reports := reports, comparison := comparison, memory := [])
    {
      reportsData := reports;
      comparisonData := comparison;
      sessionMemory := [];
    }

    /** `_add_response_to_memory` */
    method AddResponseToMemory(response: string, at: string)
      modifies this
      ensures State() == old(State()).(memory := Remember(old(sessionMemory), response, at))
    {
      sessionMemory := sessionMemory + [MemoryEntry(Response, response, at)];
      if |sessionMemory| > MemoryLimit {
        sessionMemory := sessionMemory[|sessionMemory| - MemoryLimit..];
      }
    }

    /** The eviction of `answer_question`. */
    method EvictOldest()
      requires |responseCache| > CacheLimit && DistinctKeys(responseCache)
      modifies this
      ensures State() == old(State()).(cache := Evicted(old(responseCache)))
    {
      responseCache := EvictFrom(responseCache);
    }

    /** The key `answer_question` looks up for a processed question. */
    method GetCacheKey(processed: string, h: Hashes) returns (key: string)
      ensures key == CacheKey(State(), processed, h)
    {
      var normalized := NormalizeQuestion(processed);
      var comparisonHash := 0;
      if comparisonData.Some? && JsonTruthy(comparisonData.value) {
        comparisonHash := h.comparison(comparisonData.value);
      }
      var suffix := "_" + ShowNat(|reportsData|) + "_" + (if comparisonData.Some? then "True" else "False")
        + "_" + ShowInt(h.ids(SortIds(Keys(reportsData)))) + "_" + ShowInt(comparisonHash);
      assert suffix == KeySuffix(State(), h, comparisonHash);
      key := "multi_" + normalized + suffix;
    }

    /** `answer_question` */
    method AnswerQuestion(question: string, h: Hashes, w: World) returns (answer: string)
      requires Valid()
      modifies this
      ensures Valid()
      ensures Answered(answer, State()) == AnswerSpec(old(State()), question, h, w)
    {
      ghost var s0 := State();
      if |reportsData| == 0 {
        return NoDataMessage;
      }
      sessionMemory := sessionMemory + [MemoryEntry(Question, question, w.askedAt)];
      var processed := PreprocessQuestion(question);
      var key := GetCacheKey(processed, h);
      KeyIgnoresMemory(s0, sessionMemory, processed, h);
      AnswerConsults(s0, question, h, w, processed, key);
      answer := Respond(processed, key, w);
    }

    /** The rest of `answer_question`, once the question is recorded and
        its cache key computed. */
    method Respond(processed: string, key: string, w: World) returns (answer: string)
      requires Valid()
      modifies this
      ensures Valid()
      ensures Answered(answer, State()) == Consult(old(State()), processed, key, w)
    {
      var cached := Get(responseCache, key);
      if cached.Some? {
        answer := cached.value;
        AddResponseToMemory(answer, w.answeredAt);
        return;
      }
      if !w.available {
        return UnavailableMessage;
      }
      var relevant := RelevantReports(processed, Keys(reportsData));
      var reportData := w.extract(relevant, processed);
      if reportData == "" {
        return NoRelevantMessage;
      }
      match w.outcome {
        case Raised(e) =>
          answer := ErrorPrefix + e;
        case Reply(t) =>
          StoreReply(key, t, w.answeredAt);
          answer := t;
      }
    }

    /** A fresh reply is cached, remembered, and the cache trimmed. */
    method StoreReply(key: string, t: string, at: string)
      requires Valid() && !HasKey(responseCache, key)
      modifies this
      ensures Valid()
      ensures State() == old(State()).(memory := Remember(old(sessionMemory), t, at),
                                       cache := Evicted(Put(old(responseCache), key, t)))
    {
      StoreFresh(responseCache, key, t);
      PutFresh(responseCache, key, t);
      responseCache := Put(responseCache, key, t);
      AddResponseToMemory(t, at);
      if |responseCache| > CacheLimit {
        EvictOldest();
      }
    }

    /** `clear_session`: memory and cache emptied. */
    method ClearSession()
      modifies this
      ensures State() == old(State()).(memory := [], cache := [])
      ensures Valid()
    {
      sessionMemory := [];
      responseCache := [];
    }
  }
}
