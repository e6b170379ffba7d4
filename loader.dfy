/** The Model-2 input loader (model2/pipeline/loader.py): header
    normalisation, canonical parameter names, number casting, and the routing
    of one CSV row or one JSON object into parameters, status and notes. */
module Loader {
  import opened Common
  import opened Numeric

  // ---------------------------------------------------------------------
  // _normalize_header

  predicate IsNameChar(c: char) { IsAlnum(c) || c == '_' }

  /** What a normalised header looks like: letters, digits and single '_'
      separators, never at either end. */
  predicate Normalized(s: string) {
    && (forall i :: 0 <= i < |s| ==> IsNameChar(s[i]))
    && (forall i :: 0 <= i < |s| - 1 ==> !(s[i] == '_' && s[i + 1] == '_'))
    && (s == "" || (s[0] != '_' && s[|s| - 1] != '_'))
  }

  /** `re.sub(r"\(([^)]+)\)", r" \1", s)`: a parenthesised non-empty text
      becomes that text preceded by a space. */
  function ParensToWords(s: string): (r: string)
    ensures '(' !in s ==> r == s
    decreases |s|
  {
    if |s| == 0 then ""
    else if s[0] == '(' then
      var j := Find(s[1..], ')');
      if 0 < j < |s| - 1 then " " + s[1..j + 1] + ParensToWords(s[j + 2..])
      else [s[0]] + ParensToWords(s[1..])
    else [s[0]] + ParensToWords(s[1..])
  }

  function DropNonAlnum(s: string): (r: string)
    ensures |r| <= |s| && r == s[|s| - |r|..]
    ensures r == "" || IsAlnum(r[0])
    decreases |s|
  {
    if |s| > 0 && !IsAlnum(s[0]) then DropNonAlnum(s[1..]) else s
  }

  /** `re.sub(r"[^0-9A-Za-z]+", "_", s)`: every maximal run of other
      characters becomes one '_'. */
  function Squash(s: string): (r: string)
    ensures forall i :: 0 <= i < |r| ==> IsNameChar(r[i])
    ensures forall i :: 0 <= i < |r| - 1 ==> !(r[i] == '_' && r[i + 1] == '_')
    ensures |r| > 0 && r[0] == '_' ==> |s| > 0 && !IsAlnum(s[0])
    ensures |s| > 0 ==> |r| > 0
    decreases |s|
  {
    if |s| == 0 then ""
    else if IsAlnum(s[0]) then
      var rest := Squash(s[1..]);
      NameConcat([s[0]], rest);
      [s[0]] + rest
    else
      var rest := Squash(DropNonAlnum(s[1..]));
      NameConcat("_", rest);
      "_" + rest
  }

  /** Two name strings joined where no "__" forms make a name string. */
  lemma NameConcat(a: string, b: string)
    requires NameString(a) && NameString(b)
    requires |a| > 0 && |b| > 0 ==> !(a[|a| - 1] == '_' && b[0] == '_')
    ensures NameString(a + b)
  {
    var r := a + b;
    forall i | 0 <= i < |r| - 1
      ensures !(r[i] == '_' && r[i + 1] == '_')
    {
      if i + 1 < |a| {
        assert r[i] == a[i] && r[i + 1] == a[i + 1];
      } else if i >= |a| {
        assert r[i] == b[i - |a|] && r[i + 1] == b[i + 1 - |a|];
      }
    }
  }

  /** `re.sub(r"_+", "_", s)` */
  function Collapse(s: string): (r: string)
    ensures |r| <= |s|
    ensures forall i :: 0 <= i < |r| ==> r[i] in s
    ensures forall i :: 0 <= i < |r| - 1 ==> !(r[i] == '_' && r[i + 1] == '_')
    ensures (forall i :: 0 <= i < |s| - 1 ==> !(s[i] == '_' && s[i + 1] == '_')) ==> r == s
    ensures |r| > 0 ==> r[0] == s[0]
    decreases |s|
  {
    if |s| >= 2 && s[0] == '_' && s[1] == '_' then Collapse(s[1..])
    else if |s| == 0 then ""
    else
      var rest := Collapse(s[1..]);
      assert forall i :: 0 <= i < |rest| ==> rest[i] in s;
      [s[0]] + rest
  }

  /** Trimming '_' from both ends of a string of name characters without
      "__" leaves a normalised header. */
  lemma StripUnderscores(s: string)
    requires forall i :: 0 <= i < |s| ==> IsNameChar(s[i])
    requires forall i :: 0 <= i < |s| - 1 ==> !(s[i] == '_' && s[i + 1] == '_')
    ensures Normalized(StripChars(s, {'_'}))
  {
    var t := StripLeftChars(s, {'_'});
    var r := StripRightChars(t, {'_'});
    assert r == StripChars(s, {'_'});
    var k := |s| - |t|;
    assert r == s[k..k + |r|] by {
      assert t == s[k..];
      assert r == t[..|r|];
    }
    assert r == "" || (r[0] != '_' && r[|r| - 1] != '_');
    SliceNormal(s, k, r);
  }

  /** A slice of name characters without "__", with no '_' at either end,
      is normalised. */
  lemma SliceNormal(s: string, k: nat, r: string)
    requires forall i :: 0 <= i < |s| ==> IsNameChar(s[i])
    requires forall i :: 0 <= i < |s| - 1 ==> !(s[i] == '_' && s[i + 1] == '_')
    requires k + |r| <= |s| && r == s[k..k + |r|]
    requires r == "" || (r[0] != '_' && r[|r| - 1] != '_')
    ensures Normalized(r)
  {
    forall i | 0 <= i < |r|
      ensures IsNameChar(r[i])
    {
      assert r[i] == s[k + i];
    }
    forall i | 0 <= i < |r| - 1
      ensures !(r[i] == '_' && r[i + 1] == '_')
    {
      assert r[i] == s[k + i] && r[i + 1] == s[k + i + 1];
    }
  }

  /** `_normalize_header(h)`; `None` gives "". */
  function NormalizeHeader(h: Option<string>): (r: string)
    ensures Normalized(r)
  {
    match h
    case None => ""
    case Some(raw) =>
      var s := Collapse(Squash(Replace(ParensToWords(Strip(raw)), "%", " percent")));
      StripUnderscores(s);
      StripChars(s, {'_'})
  }

  /** Letters, digits and single '_' separators (ends unconstrained). */
  predicate NameString(s: string) {
    && (forall i :: 0 <= i < |s| ==> IsNameChar(s[i]))
    && (forall i :: 0 <= i < |s| - 1 ==> !(s[i] == '_' && s[i + 1] == '_'))
  }

  lemma NameStringTail(s: string)
    requires NameString(s) && |s| > 0
    ensures NameString(s[1..])
    ensures |s| > 1 && s[0] == '_' ==> IsAlnum(s[1])
  {
    assert forall i :: 0 <= i < |s| - 1 ==> s[1..][i] == s[i + 1];
  }

  lemma {:induction false} SquashKeeps(s: string)
    requires NameString(s)
    ensures Squash(s) == s
    decreases |s|
  {
    if |s| > 0 {
      NameStringTail(s);
      SquashKeeps(s[1..]);
      if !IsAlnum(s[0]) {
        assert DropNonAlnum(s[1..]) == s[1..];
      }
      assert s == [s[0]] + s[1..];
    }
  }

  lemma StripKeepsName(n: string)
    requires Normalized(n)
    ensures Strip(n) == n
  {
    if n != "" {
      assert IsNameChar(n[0]) && IsNameChar(n[|n| - 1]);
    }
    StripKeeps(n);
  }

  lemma ReplaceKeepsName(n: string)
    requires Normalized(n)
    ensures Replace(n, "%", " percent") == n
  {
    if Contains(n, "%") { ContainsHasChar(n, "%", 0); }
  }

  lemma TrimKeepsName(n: string)
    requires Normalized(n)
    ensures StripChars(n, {'_'}) == n
  {
    assert StripLeftChars(n, {'_'}) == n;
    assert StripRightChars(n, {'_'}) == n;
  }

  /** Normalising a normalised header changes nothing. */
  lemma NormalizeIdempotent(n: string)
    requires Normalized(n)
    ensures NormalizeHeader(Some(n)) == n
  {
    assert Strip(n) == n by { StripKeepsName(n); }
    assert ParensToWords(n) == n by { NoParen(n); }
    assert Replace(n, "%", " percent") == n by { ReplaceKeepsName(n); }
    assert Squash(n) == n by { SquashKeeps(n); }
    assert Collapse(n) == n;
    assert StripChars(n, {'_'}) == n by { TrimKeepsName(n); }
  }

  lemma NoParen(n: string)
    requires Normalized(n)
    ensures '(' !in n
  {
  }

  /** A parenthesised non-empty text without ')' becomes that text after a
      space, and the rest is rewritten in turn. */
  lemma ParensBecomeWords(w: string, t: string)
    requires |w| > 0 && ')' !in w
    ensures ParensToWords("(" + w + ")" + t) == " " + w + ParensToWords(t)
  {
    var s := "(" + w + ")" + t;
    var x := s[1..];
    assert x == w + ")" + t;
    assert Find(x, ')') == |w| by {
      assert x[|w|] == ')';
      assert forall k :: 0 <= k < |w| ==> x[k] == w[k];
      FindAt(x, ')', |w|);
    }
    assert s[0] == '(' && 0 < |w| < |s| - 1;
    assert s[1..|w| + 1] == w;
    assert s[|w| + 2..] == t;
  }

  lemma TailConcat(x: string, y: string)
    requires |x| > 0
    ensures (x + y)[0] == x[0] && (x + y)[1..] == x[1..] + y
  {
  }

  /** Text before the first '(' is copied as it is. */
  lemma {:induction false} ParensPrefix(x: string, y: string)
    requires '(' !in x
    ensures ParensToWords(x + y) == x + ParensToWords(y)
    decreases |x|
  {
    if |x| > 0 {
      TailConcat(x, y);
      ParensPrefix(x[1..], y);
      Assoc([x[0]], x[1..], ParensToWords(y));
      assert [x[0]] + x[1..] == x;
    } else {
      assert x + y == y;
    }
  }

  predicate AllAlnum(s: string) {
    forall i :: 0 <= i < |s| ==> IsAlnum(s[i])
  }

  /** Squashing copies a leading run of letters and digits. */
  lemma {:induction false} SquashAlnumPrefix(x: string, y: string)
    requires AllAlnum(x)
    ensures Squash(x + y) == x + Squash(y)
    decreases |x|
  {
    if |x| > 0 {
      TailConcat(x, y);
      SquashAlnumPrefix(x[1..], y);
      Assoc([x[0]], x[1..], Squash(y));
      assert [x[0]] + x[1..] == x;
    } else {
      assert x + y == y;
    }
  }

  lemma AlnumName(u: string)
    requires AllAlnum(u)
    ensures NameString(u)
  {
  }

  lemma SquashHead(c: char, t: string)
    requires !IsAlnum(c)
    ensures Squash([c] + t) == "_" + Squash(DropNonAlnum(t))
  {
    assert ([c] + t)[0] == c && ([c] + t)[1..] == t;
  }

  /** A blank before a word squashes to '_'. */
  lemma SquashBlank(u: string)
    requires |u| > 0 && AllAlnum(u)
    ensures Squash(" " + u) == "_" + u
  {
    assert " " + u == [' '] + u;
    SquashHead(' ', u);
    assert DropNonAlnum(u) == u;
    assert Squash(u) == u by {
      AlnumName(u);
      SquashKeeps(u);
    }
  }

  /** A run of blanks before a word squashes to one '_'. */
  lemma SquashBlanks(u: string)
    requires |u| > 0 && AllAlnum(u)
    ensures Squash("  " + u) == "_" + u
  {
    assert "  " + u == [' '] + ([' '] + u);
    SquashHead(' ', [' '] + u);
    assert DropNonAlnum([' '] + u) == u by {
      assert ([' '] + u)[1..] == u;
      assert DropNonAlnum(u) == u;
    }
    assert Squash(u) == u by {
      AlnumName(u);
      SquashKeeps(u);
    }
  }

  /** Two non-empty runs of letters and digits joined by '_' are a
      normalised header. */
  lemma JoinedNormalized(a: string, u: string)
    requires |a| > 0 && AllAlnum(a) && |u| > 0 && AllAlnum(u)
    ensures Normalized(a + "_" + u)
  {
    var n := a + "_" + u;
    forall i | 0 <= i < |n|
      ensures IsNameChar(n[i])
    {
      if i < |a| {
        assert n[i] == a[i];
      } else if i > |a| {
        assert n[i] == u[i - |a| - 1];
      }
    }
    forall i | 0 <= i < |n| - 1
      ensures !(n[i] == '_' && n[i + 1] == '_')
    {
      if i < |a| {
        assert n[i] == a[i];
      } else if i > |a| {
        assert n[i] == u[i - |a| - 1];
      } else {
        assert n[i + 1] == u[0];
      }
    }
    assert n[0] == a[0] && n[|n| - 1] == u[|u| - 1];
  }

  /** Such a header is left alone by the last two steps. */
  lemma JoinedSettles(a: string, u: string)
    requires |a| > 0 && AllAlnum(a) && |u| > 0 && AllAlnum(u)
    ensures Normalized(a + "_" + u)
    ensures StripChars(Collapse(a + "_" + u), {'_'}) == a + "_" + u
  {
    var n := a + "_" + u;
    JoinedNormalized(a, u);
    assert Collapse(n) == n;
    TrimKeepsName(n);
  }

  lemma Assoc(a: string, b: string, c: string)
    ensures a + b + c == a + (b + c)
  {
  }

  /** The steps of `_normalize_header` one at a time. */
  lemma NormalizeVia(raw: string, p: string, q: string, n: string)
    requires Strip(raw) == raw && ParensToWords(raw) == p && Replace(p, "%", " percent") == q
    requires Squash(q) == n && StripChars(Collapse(n), {'_'}) == n
    ensures NormalizeHeader(Some(raw)) == n
  {
  }

  lemma ParensAfterWord(a: string, u: string)
    requires AllAlnum(a) && |u| > 0 && AllAlnum(u)
    ensures ParensToWords(a + " (" + u + ")") == a + "  " + u
  {
    var x := a + " ";
    var y := "(" + u + ")";
    assert a + " (" + u + ")" == x + y by {
      Assoc(a, " ", "(");
      Assoc(a + " ", "(", u);
      Assoc(a + " ", "(" + u, ")");
    }
    assert '(' !in x by {
      assert forall i :: 0 <= i < |a| ==> x[i] == a[i];
    }
    ParensPrefix(x, y);
    assert ParensToWords(y) == " " + u by {
      assert y == "(" + u + ")" + "";
      ParensBecomeWords(u, "");
    }
    assert x + (" " + u) == a + "  " + u by {
      Assoc(a, " ", " ");
      Assoc(x, " ", u);
    }
  }

  lemma NoPercentSpaced(a: string, u: string)
    requires AllAlnum(a) && AllAlnum(u)
    ensures Replace(a + "  " + u, "%", " percent") == a + "  " + u
  {
    var spaced := a + "  " + u;
    assert '%' !in spaced by {
      assert forall i :: 0 <= i < |a| ==> spaced[i] == a[i];
      assert forall i :: 0 <= i < |u| ==> spaced[|a| + 2 + i] == u[i];
    }
    MissingChar(spaced, "%", 0);
  }

  lemma SquashSpaced(a: string, u: string)
    requires AllAlnum(a) && |u| > 0 && AllAlnum(u)
    ensures Squash(a + "  " + u) == a + "_" + u
  {
    Assoc(a, "  ", u);
    SquashAlnumPrefix(a, "  " + u);
    SquashBlanks(u);
    Assoc(a, "_", u);
  }

  /** A header with its unit in parentheses keeps the unit as a word:
      "Glucose (mgdL)" normalises to "Glucose_mgdL". */
  lemma UnitInParens(a: string, u: string)
    requires |a| > 0 && AllAlnum(a) && |u| > 0 && AllAlnum(u)
    ensures NormalizeHeader(Some(a + " (" + u + ")")) == a + "_" + u
  {
    var raw := a + " (" + u + ")";
    assert Strip(raw) == raw by {
      assert raw[0] == a[0] && raw[|raw| - 1] == ')';
      StripKeeps(raw);
    }
    ParensAfterWord(a, u);
    NoPercentSpaced(a, u);
    SquashSpaced(a, u);
    JoinedSettles(a, u);
    NormalizeVia(raw, a + "  " + u, a + "  " + u, a + "_" + u);
  }

  /** Replacing a character copies a prefix that lacks it. */
  lemma {:induction false} ReplacePrefix(x: string, y: string, c: char, rep: string)
    requires c !in x
    ensures Replace(x + y, [c], rep) == x + Replace(y, [c], rep)
    decreases |x|
  {
    if |x| > 0 {
      assert (x + y)[..1] == [x[0]] && (x + y)[1..] == x[1..] + y;
      ReplacePrefix(x[1..], y, c, rep);
      assert [x[0]] + x[1..] == x;
    } else {
      assert x + y == y;
    }
  }

  lemma PercentReplaced(a: string)
    requires AllAlnum(a)
    ensures ParensToWords(a + "%") == a + "%"
    ensures Replace(a + "%", "%", " percent") == a + " percent"
  {
    assert forall i :: 0 <= i < |a| ==> (a + "%")[i] == a[i];
    ReplacePrefix(a, "%", '%', " percent");
    assert Replace("%", "%", " percent") == " percent" + Replace("", "%", " percent");
  }

  lemma SquashPercent(a: string)
    requires AllAlnum(a)
    ensures Squash(a + " percent") == a + "_percent"
  {
    PercentWord();
    SquashAlnumPrefix(a, " percent");
    SquashBlank("percent");
    Assoc(a, "_", "percent");
  }

  lemma PercentWord()
    ensures AllAlnum("percent")
    ensures " percent" == " " + "percent" && "_percent" == "_" + "percent"
  {
  }

  /** A trailing '%' becomes the word "percent": "Neutrophils%" normalises
      to "Neutrophils_percent". */
  lemma PercentSign(a: string)
    requires |a| > 0 && AllAlnum(a)
    ensures NormalizeHeader(Some(a + "%")) == a + "_percent"
  {
    var raw := a + "%";
    assert Strip(raw) == raw by {
      assert raw[0] == a[0] && raw[|raw| - 1] == '%';
      StripKeeps(raw);
    }
    PercentReplaced(a);
    SquashPercent(a);
    PercentWord();
    JoinedSettles(a, "percent");
    Assoc(a, "_", "percent");
    NormalizeVia(raw, raw, a + " percent", a + "_percent");
  }

  // ---------------------------------------------------------------------
  // _canonical_key

  const AliasMap: map<string, string> := map[
    "hdl_cholesterol" := "HDL",
    "total_cholesterol" := "Total_Cholesterol",
    "triglycerides" := "Triglycerides",
    "glucose_fasting" := "Glucose_Fasting",
    "hba1c" := "HbA1c",
    "creatinine" := "Creatinine",
    "crp" := "CRP",
    "hemoglobin" := "Hemoglobin",
    "platelets" := "Platelets",
    "mcv" := "MCV",
    "mch" := "MCH",
    "mchc" := "MCHC",
    "rdw" := "RDW",
    "neutrophils" := "Neutrophils",
    "lymphocytes" := "Lymphocytes",
    "ldl" := "LDL",
    "vldl" := "VLDL",
    "urea_bun" := "Urea_BUN",
    "urea" := "Urea_BUN"
  ]

  /** Name parts written in capitals. */
  const UpperParts: set<string> := {"hdl", "ldl", "vldl", "crp", "hba1c", "rbc", "wbc"}

  function CasePart(p: string): (r: string)
    ensures |r| == |p|
  {
    if Lower(p) in UpperParts then Upper(p) else Capitalize(p)
  }

  function CaseParts(ps: seq<string>): (rs: seq<string>)
    ensures |rs| == |ps| && forall i :: 0 <= i < |ps| ==> rs[i] == CasePart(ps[i])
  {
    seq(|ps|, i requires 0 <= i < |ps| => CasePart(ps[i]))
  }

  /** `_canonical_key(h)`: the alias target of the lower-cased normalised
      header, or its '_'-parts re-cased and re-joined. */
  function CanonicalKey(h: Option<string>): string {
    var n := NormalizeHeader(h);
    var key := Lower(n);
    if key in AliasMap then AliasMap[key]
    else Join(CaseParts(Split(n, '_')), "_")
  }

  // ---------------------------------------------------------------------
  // Lemmas about the case and split helpers

  lemma LowerAppend(a: string, b: string)
    ensures Lower(a + b) == Lower(a) + Lower(b)
  {
  }

  lemma LowerCasePart(p: string)
    ensures Lower(CasePart(p)) == Lower(p)
  {
    var r := CasePart(p);
    forall i | 0 <= i < |p|
      ensures Lower(r)[i] == Lower(p)[i]
    {
      if Lower(p) !in UpperParts && i > 0 {
        assert r[i] == Lower(p[1..])[i - 1];
      }
    }
  }

  lemma CasePartIdempotent(p: string)
    ensures CasePart(CasePart(p)) == CasePart(p)
  {
    LowerCasePart(p);
    var r := CasePart(p);
    if Lower(p) !in UpperParts && |p| > 0 {
      assert r[1..] == Lower(p[1..]);
      assert Lower(r[1..]) == r[1..];
    }
  }

  lemma CasePartKeepsAlnum(p: string)
    requires forall i :: 0 <= i < |p| ==> IsAlnum(p[i])
    ensures forall i :: 0 <= i < |p| ==> IsAlnum(CasePart(p)[i])
  {
    var r := CasePart(p);
    forall i | 0 <= i < |p|
      ensures IsAlnum(r[i])
    {
      if Lower(p) !in UpperParts && i > 0 {
        assert r[i] == Lower(p[1..])[i - 1] == LowerChar(p[i]);
      }
    }
  }

  /** Joining splits back: the pieces of `s` at '_' re-joined give `s`. */
  lemma {:induction false} JoinSplit(s: string)
    ensures Join(Split(s, '_'), "_") == s
    decreases |s|
  {
    if |s| > 0 {
      JoinSplit(s[1..]);
      var rest := Split(s[1..], '_');
      if s[0] == '_' {
        assert Split(s, '_') == [""] + rest;
      } else {
        assert Split(s, '_') == [[s[0]] + rest[0]] + rest[1..];
        if |rest| > 1 {
          assert Join(rest, "_") == rest[0] + "_" + Join(rest[1..], "_");
        }
      }
    }
  }

  /** Pieces with equal lower-case forms join to strings with equal
      lower-case forms. */
  lemma {:induction false} JoinLower(ps: seq<string>, qs: seq<string>)
    requires |ps| == |qs|
    requires forall i :: 0 <= i < |ps| ==> Lower(ps[i]) == Lower(qs[i])
    ensures Lower(Join(ps, "_")) == Lower(Join(qs, "_"))
    decreases |ps|
  {
    if |ps| > 1 {
      JoinLower(ps[1..], qs[1..]);
      LowerAppend(ps[0] + "_", Join(ps[1..], "_"));
      LowerAppend(qs[0] + "_", Join(qs[1..], "_"));
      LowerAppend(ps[0], "_");
      LowerAppend(qs[0], "_");
    }
  }

  /** The pieces of a normalised header are runs of letters and digits;
      all but the first are non-empty, and so is the first unless the header
      starts with '_'. */
  lemma {:induction false} SplitNormalized(n: string)
    requires NameString(n)
    requires n == "" || n[|n| - 1] != '_'
    ensures forall i :: 0 <= i < |Split(n, '_')| ==>
      forall j :: 0 <= j < |Split(n, '_')[i]| ==> IsAlnum(Split(n, '_')[i][j])
    ensures forall i :: 1 <= i < |Split(n, '_')| ==> Split(n, '_')[i] != ""
    ensures n != "" && n[0] != '_' ==> Split(n, '_')[0] != ""
    decreases |n|
  {
    if |n| > 0 {
      NameStringTail(n);
      SplitNormalized(n[1..]);
    }
  }

  /** Joining non-empty runs of letters and digits with '_' gives a
      normalised header. */
  lemma {:induction false} JoinNormalized(ps: seq<string>)
    requires |ps| >= 1
    requires forall i :: 0 <= i < |ps| ==> ps[i] != "" && forall j :: 0 <= j < |ps[i]| ==> IsAlnum(ps[i][j])
    ensures Normalized(Join(ps, "_"))
    decreases |ps|
  {
    if |ps| > 1 {
      JoinNormalized(ps[1..]);
      var t := Join(ps[1..], "_");
      var r := ps[0] + "_" + t;
      assert Join(ps, "_") == r;
      forall i | 0 <= i < |r| - 1
        ensures !(r[i] == '_' && r[i + 1] == '_')
      {
        if i >= |ps[0]| + 1 {
          assert r[i] == t[i - |ps[0]| - 1] && r[i + 1] == t[i - |ps[0]|];
        }
      }
    }
  }

  /** Two words of letters and digits joined by one '_' form a normalised
      header. */
  lemma TwoWords(a: string, b: string)
    requires a != "" && b != "" && AllAlnum(a) && AllAlnum(b)
    ensures Normalized(a + "_" + b)
  {
    var r := a + "_" + b;
    forall i | 0 <= i < |r| - 1
      ensures !(r[i] == '_' && r[i + 1] == '_')
    {
      if i < |a| {
        assert r[i] == a[i];
      } else if i > |a| {
        assert r[i] == b[i - |a| - 1];
      }
    }
  }

  lemma AliasKey0(k: string)
    requires k == "total_cholesterol"
    ensures k in AliasMap && Lower(AliasMap[k]) == k && Normalized(AliasMap[k])
  {
    assert k in AliasMap && AliasMap[k] == "Total_Cholesterol";
    assert Lower("Total_Cholesterol") == k;
    assert "Total_Cholesterol" == "Total" + "_" + "Cholesterol";
    TwoWords("Total", "Cholesterol");
  }

  lemma AliasKey1(k: string)
    requires k == "triglycerides"
    ensures k in AliasMap && Lower(AliasMap[k]) == k && Normalized(AliasMap[k])
  {
    assert k in AliasMap && AliasMap[k] == "Triglycerides";
    assert Lower("Triglycerides") == k;
  }

  lemma AliasKey2(k: string)
    requires k == "glucose_fasting"
    ensures k in AliasMap && Lower(AliasMap[k]) == k && Normalized(AliasMap[k])
  {
    assert k in AliasMap && AliasMap[k] == "Glucose_Fasting";
    assert Lower("Glucose_Fasting") == k;
  }

  lemma AliasKey3(k: string)
    requires k == "hba1c"
    ensures k in AliasMap && Lower(AliasMap[k]) == k && Normalized(AliasMap[k])
  {
    assert k in AliasMap && AliasMap[k] == "HbA1c";
    assert Lower("HbA1c") == k;
  }

  lemma AliasKey4(k: string)
    requires k == "creatinine"
    ensures k in AliasMap && Lower(AliasMap[k]) == k && Normalized(AliasMap[k])
  {
    assert k in AliasMap && AliasMap[k] == "Creatinine";
    assert Lower("Creatinine") == k;
  }

  lemma AliasKey5(k: string)
    requires k == "crp"
    ensures k in AliasMap && Lower(AliasMap[k]) == k && Normalized(AliasMap[k])
  {
    assert k in AliasMap && AliasMap[k] == "CRP";
    assert Lower("CRP") == k;
  }

  lemma AliasKey6(k: string)
    requires k == "hemoglobin"
    ensures k in AliasMap && Lower(AliasMap[k]) == k && Normalized(AliasMap[k])
  {
    assert k in AliasMap && AliasMap[k] == "Hemoglobin";
    assert Lower("Hemoglobin") == k;
  }

  lemma AliasKey7(k: string)
    requires k == "platelets"
    ensures k in AliasMap && Lower(AliasMap[k]) == k && Normalized(AliasMap[k])
  {
    assert k in AliasMap && AliasMap[k] == "Platelets";
    assert Lower("Platelets") == k;
  }

  lemma AliasKey8(k: string)
    requires k == "mcv"
    ensures k in AliasMap && Lower(AliasMap[k]) == k && Normalized(AliasMap[k])
  {
    assert k in AliasMap && AliasMap[k] == "MCV";
    assert Lower("MCV") == k;
  }

  lemma AliasKey9(k: string)
    requires k == "mch"
    ensures k in AliasMap && Lower(AliasMap[k]) == k && Normalized(AliasMap[k])
  {
    assert k in AliasMap && AliasMap[k] == "MCH";
    assert Lower("MCH") == k;
  }

  lemma AliasKey10(k: string)
    requires k == "mchc"
    ensures k in AliasMap && Lower(AliasMap[k]) == k && Normalized(AliasMap[k])
  {
    assert k in AliasMap && AliasMap[k] == "MCHC";
    assert Lower("MCHC") == k;
  }

  lemma AliasKey11(k: string)
    requires k == "rdw"
    ensures k in AliasMap && Lower(AliasMap[k]) == k && Normalized(AliasMap[k])
  {
    assert k in AliasMap && AliasMap[k] == "RDW";
    assert Lower("RDW") == k;
  }

  lemma AliasKey12(k: string)
    requires k == "neutrophils"
    ensures k in AliasMap && Lower(AliasMap[k]) == k && Normalized(AliasMap[k])
  {
    assert k in AliasMap && AliasMap[k] == "Neutrophils";
    assert Lower("Neutrophils") == k;
  }

  lemma AliasKey13(k: string)
    requires k == "lymphocytes"
    ensures k in AliasMap && Lower(AliasMap[k]) == k && Normalized(AliasMap[k])
  {
    assert k in AliasMap && AliasMap[k] == "Lymphocytes";
    assert Lower("Lymphocytes") == k;
  }

  lemma AliasKey14(k: string)
    requires k == "ldl"
    ensures k in AliasMap && Lower(AliasMap[k]) == k && Normalized(AliasMap[k])
  {
    assert k in AliasMap && AliasMap[k] == "LDL";
    assert Lower("LDL") == k;
  }

  lemma AliasKey15(k: string)
    requires k == "vldl"
    ensures k in AliasMap && Lower(AliasMap[k]) == k && Normalized(AliasMap[k])
  {
    assert k in AliasMap && AliasMap[k] == "VLDL";
    assert Lower("VLDL") == k;
  }

  lemma AliasKey16(k: string)
    requires k == "urea_bun"
    ensures k in AliasMap && Lower(AliasMap[k]) == k && Normalized(AliasMap[k])
  {
    assert k in AliasMap && AliasMap[k] == "Urea_BUN";
    assert Lower("Urea_BUN") == k;
  }

  /** The lower-case form of every alias target maps back to it, except
      for "HDL", which is not itself an alias key. */
  lemma AliasTargets(k: string)
    requires k in AliasMap
    ensures Normalized(AliasMap[k])
    ensures var t := AliasMap[k];
      (Lower(t) in AliasMap && AliasMap[Lower(t)] == t) || t == "HDL"
  {
    if k == "hdl_cholesterol" {
      assert Normalized("HDL");
    } else if k == "urea" {
      AliasKey16("urea_bun");
    } else if k == "total_cholesterol" {
      AliasKey0(k);
    } else if k == "triglycerides" {
      AliasKey1(k);
    } else if k == "glucose_fasting" {
      AliasKey2(k);
    } else if k == "hba1c" {
      AliasKey3(k);
    } else if k == "creatinine" {
      AliasKey4(k);
    } else if k == "crp" {
      AliasKey5(k);
    } else if k == "hemoglobin" {
      AliasKey6(k);
    } else if k == "platelets" {
      AliasKey7(k);
    } else if k == "mcv" {
      AliasKey8(k);
    } else if k == "mch" {
      AliasKey9(k);
    } else if k == "mchc" {
      AliasKey10(k);
    } else if k == "rdw" {
      AliasKey11(k);
    } else if k == "neutrophils" {
      AliasKey12(k);
    } else if k == "lymphocytes" {
      AliasKey13(k);
    } else if k == "ldl" {
      AliasKey14(k);
    } else if k == "vldl" {
      AliasKey15(k);
    } else if k == "urea_bun" {
      AliasKey16(k);
    }
  }

  /** A normalised header without '_' that is no alias key and that re-casing
      leaves alone is its own canonical key. */
  lemma FixedWithoutAlias(t: string)
    requires Normalized(t) && '_' !in t && Lower(t) !in AliasMap && CasePart(t) == t
    ensures CanonicalKey(Some(t)) == t
  {
    NormalizeIdempotent(t);
    SplitNone(t, '_');
    assert CaseParts([t]) == [t];
  }

  lemma HdlFixed()
    ensures CanonicalKey(Some("HDL")) == "HDL"
  {
    assert Lower("HDL") == "hdl";
    assert Upper("HDL") == "HDL";
    FixedWithoutAlias("HDL");
  }

  /** Re-casing alphanumeric parts keeps each one alphanumeric, of the same
      length and lower-case form, and fixed under a second re-casing. */
  lemma PartsRecased(parts: seq<string>)
    requires forall i :: 0 <= i < |parts| ==> forall j :: 0 <= j < |parts[i]| ==> IsAlnum(parts[i][j])
    ensures forall i :: 0 <= i < |parts| ==>
      && |CaseParts(parts)[i]| == |parts[i]|
      && Lower(CaseParts(parts)[i]) == Lower(parts[i])
      && (forall j :: 0 <= j < |CaseParts(parts)[i]| ==> IsAlnum(CaseParts(parts)[i][j]))
      && '_' !in CaseParts(parts)[i]
      && CasePart(CaseParts(parts)[i]) == CaseParts(parts)[i]
  {
    var cps := CaseParts(parts);
    forall i | 0 <= i < |parts|
      ensures Lower(cps[i]) == Lower(parts[i])
      ensures forall j :: 0 <= j < |cps[i]| ==> IsAlnum(cps[i][j])
      ensures '_' !in cps[i]
      ensures CasePart(cps[i]) == cps[i]
    {
      LowerCasePart(parts[i]);
      CasePartKeepsAlnum(parts[i]);
      CasePartIdempotent(parts[i]);
      assert !IsAlnum('_');
    }
  }

  /** Re-casing the parts of a normalised header gives a normalised header. */
  lemma RecasedNormal(n: string)
    requires Normalized(n)
    ensures Normalized(Join(CaseParts(Split(n, '_')), "_"))
  {
    var cps := CaseParts(Split(n, '_'));
    SplitNormalized(n);
    PartsRecased(Split(n, '_'));
    if n == "" {
      assert Join(cps, "_") == "";
    } else {
      JoinNormalized(cps);
    }
  }

  /** ... with the same lower-case form as the header itself. */
  lemma RecasedLower(n: string)
    requires Normalized(n)
    ensures Lower(Join(CaseParts(Split(n, '_')), "_")) == Lower(n)
  {
    SplitNormalized(n);
    PartsRecased(Split(n, '_'));
    JoinLower(CaseParts(Split(n, '_')), Split(n, '_'));
    JoinSplit(n);
  }

  /** ... whose '_'-parts are the re-cased parts, which re-case to themselves. */
  lemma RecasedSplit(n: string)
    requires Normalized(n)
    ensures var cps := CaseParts(Split(n, '_'));
      Split(Join(cps, "_"), '_') == cps && CaseParts(cps) == cps
  {
    var cps := CaseParts(Split(n, '_'));
    SplitNormalized(n);
    PartsRecased(Split(n, '_'));
    SplitJoinOn(cps, '_');
  }

  /** Re-casing the parts of a normalised header gives a normalised header
      with the same lower-case form, whose parts re-case to themselves. */
  lemma RecasedParts(n: string)
    requires Normalized(n)
    ensures var cps := CaseParts(Split(n, '_'));
      var r := Join(cps, "_");
      && Normalized(r) && Lower(r) == Lower(n)
      && Split(r, '_') == cps && CaseParts(cps) == cps
  {
    RecasedNormal(n);
    RecasedLower(n);
    RecasedSplit(n);
  }

  /** What `_canonical_key` returns: the alias target when the lower-cased
      normalised header is an alias, and otherwise the normalised header with
      every '_'-part re-cased, which is again normalised and differs from it
      only in case. */
  lemma CanonicalKeyCases(h: Option<string>)
    ensures Normalized(CanonicalKey(h))
    ensures Lower(NormalizeHeader(h)) in AliasMap ==>
      CanonicalKey(h) == AliasMap[Lower(NormalizeHeader(h))]
    ensures Lower(NormalizeHeader(h)) !in AliasMap ==>
      && Lower(CanonicalKey(h)) == Lower(NormalizeHeader(h))
      && Split(CanonicalKey(h), '_') == CaseParts(Split(NormalizeHeader(h), '_'))
  {
    var n := NormalizeHeader(h);
    if Lower(n) in AliasMap {
      AliasTargets(Lower(n));
    } else {
      RecasedParts(n);
    }
  }

  /** Canonicalising a canonical key changes nothing, so the loader's second
      canonicalisation of a column's base name is harmless. */
  lemma CanonicalIdempotent(h: Option<string>)
    ensures CanonicalKey(Some(CanonicalKey(h))) == CanonicalKey(h)
  {
    var n := NormalizeHeader(h);
    var key := Lower(n);
    if key in AliasMap {
      var t := AliasMap[key];
      AliasTargets(key);
      if t == "HDL" {
        HdlFixed();
      } else {
        NormalizeIdempotent(t);
      }
    } else {
      var r := Join(CaseParts(Split(n, '_')), "_");
      RecasedParts(n);
      NormalizeIdempotent(r);
    }
  }

  // ---------------------------------------------------------------------
  // _cast_number

  /** The characters `[A-Za-z/°%]` that casting deletes. */
  predicate IsUnitChar(c: char) {
    IsAlpha(c) || c == '/' || c == '\U{00B0}' || c == '%'
  }

  predicate IsComma(c: char) { c == ',' }

  /** What casting keeps of a trimmed cell: units and letters deleted, the
      rest trimmed, commas deleted. */
  function Residue(t: string): (u: string)
    ensures forall i :: 0 <= i < |u| ==> !IsUnitChar(u[i]) && u[i] != ','
  {
    var w := RemoveWhere(t, IsUnitChar);
    var x := Strip(w);
    StripInside(w, c => !IsUnitChar(c));
    RemoveWhereKeepsPred(x, IsComma, c => !IsUnitChar(c));
    RemoveWhere(x, IsComma)
  }

  /** The number in a residue: a float when it has a '.', an int when
      `int()` accepts it, a float when only `float()` does, and otherwise the
      residue itself. */
  function CastResidue(u: string): (r: Value)
    ensures r.VNone? || r.VInt? || r.VFloat? || r.VStr?
    ensures r.VNone? <==> u == ""
    ensures r.VInt? <==> u != "" && '.' !in u && ParseInt(u).Some?
    ensures r.VInt? ==> ParseInt(u) == Some(r.i) && ParseFloat(u) == Some(r.i as real)
    ensures r.VFloat? <==> u != "" && ParseFloat(u).Some? && ('.' in u || ParseInt(u).None?)
    ensures r.VFloat? ==> ParseFloat(u) == Some(r.r)
    ensures r.VStr? <==> u != "" && ParseFloat(u).None?
    ensures r.VStr? ==> r.s == u
  {
    if u == "" then VNone
    else if '.' in u then
      match ParseFloat(u)
      case Some(x) => VFloat(x)
      case None => VStr(u)
    else
      match ParseInt(u)
      case Some(i) => VInt(i)
      case None =>
        match ParseFloat(u)
        case Some(x) => VFloat(x)
        case None => VStr(u)
  }

  /** `_cast_number` on the text of a cell. */
  function CastText(raw: string): (r: Value)
    ensures r.VNone? || r.VInt? || r.VFloat? || r.VStr?
    ensures Strip(raw) == "" ==> r.VNone?
    ensures r.VStr? ==> r.s != "" && forall i :: 0 <= i < |r.s| ==> !IsUnitChar(r.s[i]) && r.s[i] != ','
  {
    var t := Strip(raw);
    if t == "" then VNone else CastResidue(Residue(t))
  }

  /** `str(b)` of a bool. */
  function BoolText(b: bool): string {
    if b then "True" else "False"
  }

  /** `str(i)` of an int. */
  function ShowInt(i: int): (s: string)
    ensures |s| > 0
  {
    if i < 0 then "-" + ShowNat(-i) else ShowNat(i)
  }

  /** `str(v)` of a scalar; `showFloat` is Python's `str` of a float,
      which this model does not fix (it may use an exponent, or be "inf" or
      "nan"). */
  function ValueText(v: Value, showFloat: real -> string): string {
    match v
    case VNone => "None"
    case VBool(b) => BoolText(b)
    case VInt(i) => ShowInt(i)
    case VFloat(x) => showFloat(x)
    case VStr(s) => s
  }

  /** `_cast_number(v)`: None stays None and every other value is cast
      through its text `str(v)`, so a bool becomes None and an int stays
      itself. */
  function CastNumber(v: Value, showFloat: real -> string): (r: Value)
    ensures r.VNone? || r.VInt? || r.VFloat? || r.VStr?
    ensures v.VNone? || v.VBool? ==> r.VNone?
    ensures v.VInt? ==> r == v
    ensures r.VStr? ==> r.s != "" && forall i :: 0 <= i < |r.s| ==> !IsUnitChar(r.s[i]) && r.s[i] != ','
  {
    match v
    case VNone => VNone
    case VBool(b) =>
      BoolCast(b);
      CastText(ValueText(v, showFloat))
    case VInt(i) =>
      IntCast(i);
      CastText(ValueText(v, showFloat))
    case _ => CastText(ValueText(v, showFloat))
  }

  /** `_cast_number` on a CSV cell, which is text or missing. */
  function CastCell(cell: Option<string>): (r: Value)
    ensures r.VNone? || r.VInt? || r.VFloat? || r.VStr?
    ensures cell.None? ==> r.VNone?
  {
    if cell.None? then VNone else CastText(cell.value)
  }

  /** A cell is cast as `_cast_number` casts the value the CSV reader
      gives, whatever `str` of a float would print. */
  lemma CastCellIsCastNumber(cell: Option<string>, showFloat: real -> string)
    ensures CastCell(cell) == CastNumber(CellValue(cell), showFloat)
  {
  }

  /** "True" and "False" are all letters, so a bool casts to None. */
  lemma BoolCast(b: bool)
    ensures CastText(BoolText(b)) == VNone
  {
    var t := BoolText(b);
    assert forall i :: 0 <= i < |t| ==> IsUnitChar(t[i]);
    LettersCastNone(t);
  }

  /** Text with no blank, unit letter or comma is its own residue. */
  predicate PlainChars(t: string) {
    forall k :: 0 <= k < |t| ==> !IsUnitChar(t[k]) && t[k] != ',' && !IsSpace(t[k])
  }

  lemma PlainResidue(t: string)
    requires |t| > 0 && PlainChars(t)
    ensures Strip(t) == t && Residue(t) == t
    ensures CastText(t) == CastResidue(t)
  {
    StripKeeps(t);
    RemoveWhereKeeps(t, IsUnitChar);
    RemoveWhereKeeps(t, IsComma);
  }

  /** `int("-" + str(n))` is `-n`. */
  lemma ParseNegative(n: nat)
    ensures ParseInt("-" + ShowNat(n)) == Some(-(n as int))
  {
    var d := ShowNat(n);
    var t := "-" + d;
    assert t[0] == '-' && IsDigit(t[|t| - 1]);
    StripKeeps(t);
    assert t[1..] == d;
    DigitsValueShowNat(n);
  }

  lemma NegativePlain(n: nat)
    ensures PlainChars("-" + ShowNat(n)) && '.' !in "-" + ShowNat(n)
  {
    var d := ShowNat(n);
    var t := "-" + d;
    assert forall k :: 1 <= k < |t| ==> t[k] == d[k - 1];
  }

  lemma ResidueInt(u: string)
    requires u != "" && '.' !in u && ParseInt(u).Some?
    ensures CastResidue(u) == VInt(ParseInt(u).value)
  {
  }

  lemma NegativeCast(n: nat)
    ensures CastText("-" + ShowNat(n)) == VInt(-(n as int))
  {
    var t := "-" + ShowNat(n);
    NegativePlain(n);
    PlainResidue(t);
    ParseNegative(n);
    ResidueInt(t);
  }

  lemma NaturalCast(n: nat)
    ensures CastText(ShowNat(n)) == VInt(n)
  {
    CastNumberWithUnit(n, "");
    assert ShowNat(n) + "" == ShowNat(n);
  }

  /** `str` of an int casts back to the int. */
  lemma IntCast(i: int)
    ensures CastText(ShowInt(i)) == VInt(i)
  {
    var n: nat := if i >= 0 then i else -i;
    if i >= 0 {
      assert ShowInt(i) == ShowNat(n);
      NaturalCast(n);
    } else {
      assert ShowInt(i) == "-" + ShowNat(n);
      NegativeCast(n);
    }
  }

  /** The text a float prints as when it is plain: digits with a '.' and
      possibly a leading '-', such as "98.6" or "-0.5". */
  predicate PlainDecimal(t: string) {
    && |t| > 0 && '.' in t
    && forall k :: 0 <= k < |t| ==> IsDigit(t[k]) || t[k] == '.' || (k == 0 && t[k] == '-')
  }

  /** A float whose text is plain and reads back as the float is kept. */
  lemma FloatKept(x: real, showFloat: real -> string)
    requires PlainDecimal(showFloat(x)) && ParseFloat(showFloat(x)) == Some(x)
    ensures CastNumber(VFloat(x), showFloat) == VFloat(x)
  {
    var t := showFloat(x);
    DecimalPlain(t);
    PlainResidue(t);
    ResidueFloat(t);
    CastFloatText(x, showFloat);
  }

  lemma CastFloatText(x: real, showFloat: real -> string)
    ensures CastNumber(VFloat(x), showFloat) == CastText(showFloat(x))
  {
  }

  lemma DecimalPlain(t: string)
    requires PlainDecimal(t)
    ensures PlainChars(t)
  {
  }

  lemma ResidueFloat(u: string)
    requires u != "" && '.' in u && ParseFloat(u).Some?
    ensures CastResidue(u) == VFloat(ParseFloat(u).value)
  {
  }

  /** "1-05" is no number for `int` or `float`. */
  lemma DashedNotNumber()
    ensures PlainChars("1" + "-05") && '.' !in "1" + "-05"
    ensures ParseInt("1" + "-05").None? && ParseFloat("1" + "-05").None?
  {
    var u := "1" + "-05";
    assert u[0] == '1' && u[1] == '-' && u[3] == '5';
    StripKeeps(u);
    assert Find(u, '.') == |u|;
    assert u[..|u|] == u;
    assert !AllDigits(u);
  }

  lemma ExponentUnitsRemoved()
    ensures RemoveWhere("1" + "e" + "-05", IsUnitChar) == "1" + "-05"
  {
    RemoveWhereAppend("1" + "e", "-05", IsUnitChar);
    RemoveWhereAppend("1", "e", IsUnitChar);
    assert RemoveWhere("1", IsUnitChar) == "1";
    assert RemoveWhere("e", IsUnitChar) == "";
    RemoveWhereKeeps("-05", IsUnitChar);
  }

  /** Text of digits and '-' with a digit at each end keeps through trimming
      and comma removal. */
  lemma DashedKept(u: string)
    requires |u| > 0 && IsDigit(u[0]) && IsDigit(u[|u| - 1])
    requires forall i :: 0 <= i < |u| ==> IsDigit(u[i]) || u[i] == '-'
    ensures Strip(u) == u
    ensures RemoveWhere(u, IsComma) == u
  {
    StripKeeps(u);
    RemoveWhereKeeps(u, IsComma);
  }

  /** Unit removal deletes the 'e' of "1e-05". */
  lemma ExponentResidue()
    ensures Strip("1" + "e" + "-05") == "1" + "e" + "-05"
    ensures Residue("1" + "e" + "-05") == "1" + "-05"
  {
    var t := "1" + "e" + "-05";
    assert t[0] == '1' && t[|t| - 1] == '5';
    StripKeeps(t);
    ExponentUnitsRemoved();
    var u := "1" + "-05";
    assert |u| == 4 && u[0] == '1' && u[1] == '-' && u[2] == '0' && u[3] == '5';
    DashedKept(u);
  }

  /** A float printed with an exponent loses its 'e' and comes back as
      text: `_cast_number(1e-05)` is the string "1-05". */
  lemma ExponentFloat(x: real, showFloat: real -> string)
    requires showFloat(x) == "1" + "e" + "-05"
    ensures CastNumber(VFloat(x), showFloat) == VStr("1" + "-05")
  {
    ExponentResidue();
    DashedNotNumber();
    CastFloatText(x, showFloat);
  }

  /** An infinite float prints as "inf", all letters: `_cast_number` gives
      None. */
  lemma InfinityCast(x: real, showFloat: real -> string)
    requires showFloat(x) == "inf"
    ensures CastNumber(VFloat(x), showFloat) == VNone
  {
    var t := showFloat(x);
    StripKeeps(t);
    RemoveWhereDrops(t, IsUnitChar);
    assert Residue(t) == "";
  }

  /** A whole number followed directly by a unit ("42mg/dL", "7%") casts to
      that number. */
  lemma CastNumberWithUnit(n: nat, unit: string)
    requires forall i :: 0 <= i < |unit| ==> IsUnitChar(unit[i])
    ensures CastText(ShowNat(n) + unit) == VInt(n)
  {
    var d := ShowNat(n);
    UnitResidue(d, unit);
    assert CastResidue(d) == VInt(n) by {
      assert '.' !in d;
      ParseIntShowNat(n);
    }
  }

  /** Digits followed by unit characters are already trimmed, and casting
      keeps just the digits. */
  lemma UnitResidue(d: string, unit: string)
    requires |d| > 0 && AllDigits(d)
    requires forall i :: 0 <= i < |unit| ==> IsUnitChar(unit[i])
    ensures Strip(d + unit) == d + unit && d + unit != "" && Residue(d + unit) == d
  {
    var s := d + unit;
    assert Strip(s) == s by {
      assert !IsSpace(s[0]) && !IsSpace(s[|s| - 1]);
      StripKeeps(s);
    }
    assert RemoveWhere(s, IsUnitChar) == d by {
      RemoveWhereAppend(d, unit, IsUnitChar);
      RemoveWhereKeeps(d, IsUnitChar);
      RemoveWhereDrops(unit, IsUnitChar);
    }
    StripKeeps(d);
    RemoveWhereKeeps(d, IsComma);
  }

  // ---------------------------------------------------------------------
  // load_input

  /** The loader's result: the three maps plus the top-level metadata
      entries, each an insertion-ordered dictionary. */
  datatype Loaded = Loaded(parameters: Dict<Value>, status: Dict<string>, notes: Dict<string>, meta: Dict<Value>)

  const Skeleton := Loaded([], [], [], [])

  const MetaKeys: set<string> := {"age", "gender", "patient_id", "filename", "report_date"}

  predicate IsMeta(k: string) { Lower(k) in MetaKeys }

  /** `s.rsplit("_", 1)[0]`: everything before the last '_', or all of `s`. */
  function BeforeLastUnderscore(s: string): (r: string)
    ensures |r| <= |s| && r == s[..|r|]
    ensures '_' !in s ==> r == s
    ensures '_' in s ==> |r| < |s| && s[|r|] == '_' && '_' !in s[|r| + 1..]
  {
    if |s| == 0 then ""
    else if s[|s| - 1] == '_' then s[..|s| - 1]
    else
      var r := BeforeLastUnderscore(s[..|s| - 1]);
      assert s[..|s| - 1][..|r|] == s[..|r|];
      if '_' in s[..|s| - 1] then
        assert s[|r| + 1..] == s[..|s| - 1][|r| + 1..] + [s[|s| - 1]];
        r
      else s
  }

  /** `(raw_v or "").strip()` */
  function CellText(v: Option<string>): string {
    match v
    case None => ""
    case Some(t) => Strip(t)
  }

  function CellValue(v: Option<string>): Value {
    match v
    case None => VNone
    case Some(t) => VStr(t)
  }

  predicate IsStatusColumn(norm: string) {
    EndsWith(Lower(norm), "_status") || EndsWith(Lower(norm), " status")
  }

  predicate IsNoteColumn(norm: string) {
    EndsWith(Lower(norm), "_note") || EndsWith(Lower(norm), " note")
  }

  /** An ordinary column, already canonicalised: metadata goes to the top
      level ("age" cast as a number, the rest as stripped text), numbers and
      None to parameters, anything else nowhere. */
  function RouteValueColumn(acc: Loaded, canonical: string, cell: Option<string>): Loaded {
    if IsMeta(canonical) then
      if Lower(canonical) == "age" then acc.(meta := Put(acc.meta, "age", CastCell(cell)))
      else acc.(meta := Put(acc.meta, canonical, if cell.None? then VNone else VStr(CellText(cell))))
    else
      var val := CastCell(cell);
      if IsNumeric(val) || val.VNone? then acc.(parameters := Put(acc.parameters, canonical, val))
      else acc
  }

  /** A column by its normalised header: "_status" and "_note" columns feed
      the status and notes maps under the canonical name of their prefix,
      and only when the cell is not blank. */
  function RouteNormalizedColumn(acc: Loaded, norm: string, cell: Option<string>): Loaded {
    if IsStatusColumn(norm) then
      var val := CellText(cell);
      if val != "" then acc.(status := Put(acc.status, CanonicalKey(Some(BeforeLastUnderscore(norm))), Upper(val)))
      else acc
    else if IsNoteColumn(norm) then
      var val := CellText(cell);
      if val != "" then acc.(notes := Put(acc.notes, CanonicalKey(Some(BeforeLastUnderscore(norm))), val))
      else acc
    else RouteValueColumn(acc, CanonicalKey(Some(norm)), cell)
  }

  /** One CSV column routed into the result (the body of the column loop). */
  function RouteCsvColumn(acc: Loaded, header: string, cell: Option<string>): Loaded {
    RouteNormalizedColumn(acc, NormalizeHeader(Some(header)), cell)
  }

  /** The columns of a CSV row, in header order. */
  type Row = seq<(string, Option<string>)>

  /** All columns of a row routed in order, from the empty skeleton. */
  function RouteCsv(cols: Row): Loaded {
    if |cols| == 0 then Skeleton
    else RouteCsvColumn(RouteCsv(cols[..|cols| - 1]), cols[|cols| - 1].0, cols[|cols| - 1].1)
  }

  /** `load_input` on a CSV file whose first data row is `row` (None when
      the file has a header but no data row). */
  function LoadCsv(row: Option<Row>): Loaded {
    match row
    case None => Skeleton
    case Some(cols) => RouteCsv(cols)
  }

  lemma RouteCsvStep(cols: Row, i: nat)
    requires i < |cols|
    ensures RouteCsv(cols[..i + 1]) == RouteCsvColumn(RouteCsv(cols[..i]), cols[i].0, cols[i].1)
  {
    assert cols[..i + 1][..i] == cols[..i];
  }

  lemma RouteStatusColumn(acc: Loaded, norm: string, cell: Option<string>)
    requires IsStatusColumn(norm)
    ensures RouteNormalizedColumn(acc, norm, cell) ==
      if CellText(cell) != "" then acc.(status := Put(acc.status, CanonicalKey(Some(BeforeLastUnderscore(norm))), Upper(CellText(cell))))
      else acc
  {
  }

  lemma RouteNoteColumn(acc: Loaded, norm: string, cell: Option<string>)
    requires !IsStatusColumn(norm) && IsNoteColumn(norm)
    ensures RouteNormalizedColumn(acc, norm, cell) ==
      if CellText(cell) != "" then acc.(notes := Put(acc.notes, CanonicalKey(Some(BeforeLastUnderscore(norm))), CellText(cell)))
      else acc
  {
  }

  lemma RouteOtherColumn(acc: Loaded, norm: string, cell: Option<string>)
    requires !IsStatusColumn(norm) && !IsNoteColumn(norm)
    ensures RouteNormalizedColumn(acc, norm, cell) == RouteValueColumn(acc, CanonicalKey(Some(norm)), cell)
  {
  }

  /** The column loop of `load_input`. */
  method LoadCsvRow(row: Option<Row>) returns (result: Loaded)
    ensures result == LoadCsv(row)
  {
    result := Skeleton;
    if row.None? {
      return;
    }
    var cols := row.value;
    var i := 0;
    while i < |cols|
      invariant 0 <= i <= |cols|
      invariant result == RouteCsv(cols[..i])
    {
      var (header, cell) := cols[i];
      RouteCsvStep(cols, i);
      ghost var before := result;
      var norm := NormalizeHeader(Some(header));
      if IsStatusColumn(norm) {
        RouteStatusColumn(result, norm, cell);
        var val := CellText(cell);
        if val != "" {
          result := result.(status := Put(result.status, CanonicalKey(Some(BeforeLastUnderscore(norm))), Upper(val)));
        }
      } else if IsNoteColumn(norm) {
        RouteNoteColumn(result, norm, cell);
        var val := CellText(cell);
        if val != "" {
          result := result.(notes := Put(result.notes, CanonicalKey(Some(BeforeLastUnderscore(norm))), val));
        }
      } else {
        RouteOtherColumn(result, norm, cell);
        var canonical := CanonicalKey(Some(norm));
        if IsMeta(canonical) {
          if Lower(canonical) == "age" {
            result := result.(meta := Put(result.meta, "age", CastCell(cell)));
          } else {
            result := result.(meta := Put(result.meta, canonical, if cell.None? then VNone else VStr(CellText(cell))));
          }
        } else {
          var val := CastCell(cell);
          if IsNumeric(val) || val.VNone? {
            result := result.(parameters := Put(result.parameters, canonical, val));
          }
        }
      }
      assert result == RouteCsvColumn(before, header, cell);
      i := i + 1;
    }
    assert cols[..i] == cols;
  }

  /** The shape every loaded CSV row has: parameters hold only numbers or
      None, and status entries are non-blank upper-case texts. */
  predicate WellFormedCsv(r: Loaded) {
    && (forall e :: e in r.parameters ==> IsNumeric(e.1) || e.1.VNone?)
    && (forall e :: e in r.status ==> e.1 != "" && Upper(e.1) == e.1)
    && (forall e :: e in r.notes ==> e.1 != "")
  }

  lemma UpperIdempotent(s: string)
    ensures Upper(Upper(s)) == Upper(s)
  {
  }

  lemma ValueColumnWellFormed(acc: Loaded, canonical: string, cell: Option<string>)
    requires WellFormedCsv(acc)
    ensures WellFormedCsv(RouteValueColumn(acc, canonical, cell))
  {
    PutEntries(acc.parameters, canonical, CastCell(cell));
  }

  lemma NormalizedColumnWellFormed(acc: Loaded, norm: string, cell: Option<string>)
    requires WellFormedCsv(acc)
    ensures WellFormedCsv(RouteNormalizedColumn(acc, norm, cell))
  {
    var v := CellText(cell);
    if IsStatusColumn(norm) {
      RouteStatusColumn(acc, norm, cell);
      if v != "" {
        UpperIdempotent(v);
        assert Upper(v) != "";
        PutEntries(acc.status, CanonicalKey(Some(BeforeLastUnderscore(norm))), Upper(v));
      }
    } else if IsNoteColumn(norm) {
      RouteNoteColumn(acc, norm, cell);
      PutEntries(acc.notes, CanonicalKey(Some(BeforeLastUnderscore(norm))), v);
    } else {
      RouteOtherColumn(acc, norm, cell);
      ValueColumnWellFormed(acc, CanonicalKey(Some(norm)), cell);
    }
  }

  /** Whatever the headers and cells, the loaded row is well formed. */
  lemma {:induction false} RouteCsvWellFormed(cols: Row)
    ensures WellFormedCsv(RouteCsv(cols))
  {
    if |cols| > 0 {
      RouteCsvWellFormed(cols[..|cols| - 1]);
      var (h, c) := cols[|cols| - 1];
      NormalizedColumnWellFormed(RouteCsv(cols[..|cols| - 1]), NormalizeHeader(Some(h)), c);
    }
  }

  /** A status or note column with a blank cell changes nothing. */
  lemma BlankSideColumn(acc: Loaded, header: string, cell: Option<string>)
    requires var norm := NormalizeHeader(Some(header)); IsStatusColumn(norm) || IsNoteColumn(norm)
    requires CellText(cell) == ""
    ensures RouteCsvColumn(acc, header, cell) == acc
  {
  }

  lemma NonNumericValueDropped(acc: Loaded, canonical: string, cell: Option<string>)
    requires !IsMeta(canonical) && CastCell(cell).VStr?
    ensures RouteValueColumn(acc, canonical, cell) == acc
  {
  }


  /** A value column whose text casts to leftover text is dropped
      entirely: "1e-05", whose residue "1-05" is no number, is one. (An
      all-letter cell such as "positive" casts to None instead and is
      stored; see LetterCellStoredNone.) */
  lemma NonNumericDropped(acc: Loaded, header: string, text: string)
    requires var norm := NormalizeHeader(Some(header));
      !IsStatusColumn(norm) && !IsNoteColumn(norm) && !IsMeta(CanonicalKey(Some(norm)))
    requires CastText(text).VStr?
    ensures RouteCsvColumn(acc, header, Some(text)) == acc
  {
    var norm := NormalizeHeader(Some(header));
    RouteOtherColumn(acc, norm, Some(text));
    assert CastCell(Some(text)).VStr?;
    NonNumericValueDropped(acc, CanonicalKey(Some(norm)), Some(text));
  }

  /** Text made only of letters and unit signs casts to None: every
      character is deleted as a unit. */
  lemma LettersCastNone(t: string)
    requires forall i :: 0 <= i < |t| ==> IsUnitChar(t[i])
    ensures CastText(t) == VNone
  {
    StripKeeps(t);
    RemoveWhereDrops(t, IsUnitChar);
    assert Residue(t) == "";
  }

  /** A value column whose cell is all letters, such as "positive", is
      stored as a parameter with value None. */
  lemma LetterCellStoredNone(acc: Loaded, header: string, text: string)
    requires var norm := NormalizeHeader(Some(header));
      !IsStatusColumn(norm) && !IsNoteColumn(norm) && !IsMeta(CanonicalKey(Some(norm)))
    requires forall i :: 0 <= i < |text| ==> IsAlpha(text[i])
    ensures RouteCsvColumn(acc, header, Some(text))
         == acc.(parameters := Put(acc.parameters, CanonicalKey(Some(NormalizeHeader(Some(header)))), VNone))
  {
    var norm := NormalizeHeader(Some(header));
    RouteOtherColumn(acc, norm, Some(text));
    LettersCastNone(text);
  }

  // ---------------------------------------------------------------------
  // Metadata keys on the CSV path

  /** A plain one-part name that is neither an alias nor an upper-case part
      is capitalised. */
  lemma CanonicalPlain(n: string)
    requires Normalized(n) && '_' !in n && Lower(n) !in AliasMap && Lower(n) !in UpperParts
    ensures CanonicalKey(Some(n)) == Capitalize(n)
  {
    assert NormalizeHeader(Some(n)) == n by { NormalizeIdempotent(n); }
    OnePartRecased(n);
    RecasedKey(Some(n));
  }

  lemma OnePartRecased(n: string)
    requires '_' !in n && Lower(n) !in UpperParts
    ensures Join(CaseParts(Split(n, '_')), "_") == Capitalize(n)
  {
    SplitNone(n, '_');
    assert CaseParts([n]) == [Capitalize(n)];
  }

  /** Off the alias table, the canonical key is the re-cased header. */
  lemma RecasedKey(h: Option<string>)
    requires Lower(NormalizeHeader(h)) !in AliasMap
    ensures CanonicalKey(h) == Join(CaseParts(Split(NormalizeHeader(h), '_')), "_")
  {
  }

  lemma AgeFacts()
    ensures Lower("age") == "age" && Normalized("age") && '_' !in "age"
    ensures "age" !in AliasMap && "age" !in UpperParts && Capitalize("age") == "Age"
  {
  }

  lemma AgeSide()
    ensures !IsStatusColumn("age") && !IsNoteColumn("age")
    ensures IsMeta("Age") && Lower("Age") == "age"
  {
    assert Lower("age") == "age";
    assert LowerChar('A') == 'a';
    assert Lower("Age") == "a" + Lower("ge") by {
      assert "A" + "ge" == "Age";
      assert Lower("A") == "a";
      LowerAppend("A", "ge");
    }
    assert Lower("Age") == "age";
    assert "age" in MetaKeys;
  }

  lemma AgeCanonical()
    ensures NormalizeHeader(Some("age")) == "age" && CanonicalKey(Some("age")) == "Age"
    ensures !IsStatusColumn("age") && !IsNoteColumn("age")
    ensures IsMeta("Age") && Lower("Age") == "age"
  {
    AgeFacts();
    AgeSide();
    NormalizeIdempotent("age");
    CanonicalPlain("age");
  }

  lemma GenderFacts()
    ensures Lower("gender") == "gender" && Normalized("gender") && '_' !in "gender"
    ensures "gender" !in AliasMap && "gender" !in UpperParts && Capitalize("gender") == "Gender"
  {
  }

  lemma GenderSide()
    ensures !IsStatusColumn("gender") && !IsNoteColumn("gender")
    ensures IsMeta("Gender") && Lower("Gender") == "gender"
  {
    assert Lower("gender") == "gender";
    assert "gender"[1..][0] == 'e';
    assert LowerChar('G') == 'g';
    assert Lower("Gender") == "g" + Lower("ender") by {
      assert "G" + "ender" == "Gender";
      assert Lower("G") == "g";
      LowerAppend("G", "ender");
    }
    assert Lower("Gender") == "gender";
    assert "gender" in MetaKeys;
  }

  lemma GenderCanonical()
    ensures NormalizeHeader(Some("gender")) == "gender" && CanonicalKey(Some("gender")) == "Gender"
    ensures !IsStatusColumn("gender") && !IsNoteColumn("gender")
    ensures IsMeta("Gender") && Lower("Gender") == "gender"
  {
    GenderFacts();
    GenderSide();
    NormalizeIdempotent("gender");
    CanonicalPlain("gender");
  }

  /** A CSV "age" column is cast as a number and stored under the lower-case
      key "age". */
  lemma CsvAgeKey(acc: Loaded, cell: Option<string>)
    ensures RouteCsvColumn(acc, "age", cell) == acc.(meta := Put(acc.meta, "age", CastCell(cell)))
  {
    AgeCanonical();
    RouteOtherColumn(acc, "age", cell);
  }

  /** A CSV "gender" column is stored as text under the capitalised key
      "Gender", never under "gender". */
  lemma CsvGenderKey(acc: Loaded, cell: Option<string>)
    ensures RouteCsvColumn(acc, "gender", cell) ==
      acc.(meta := Put(acc.meta, "Gender", if cell.None? then VNone else VStr(CellText(cell))))
  {
    GenderCanonical();
    RouteOtherColumn(acc, "gender", cell);
  }

  // ---------------------------------------------------------------------
  // load_input on a JSON object

  /** The status words a JSON string value may carry. */
  const StatusWords: set<string> := {"LOW", "HIGH", "NORMAL"}

  /** One top-level JSON entry: metadata is kept as given under its
      canonical key; a value that casts to a number or None is a
      parameter; a non-numeric string is a status when it is LOW, HIGH or
      NORMAL in any case, and a note otherwise. */
  function RouteJsonKeyed(acc: Loaded, key: string, v: Value, showFloat: real -> string): Loaded {
    if IsMeta(key) then acc.(meta := Put(acc.meta, key, v))
    else
      var num := CastNumber(v, showFloat);
      if IsNumeric(num) || num.VNone? then acc.(parameters := Put(acc.parameters, key, num))
      else
        var up := Upper(Strip(ValueText(v, showFloat)));
        if up in StatusWords then acc.(status := Put(acc.status, key, up))
        else acc.(notes := Put(acc.notes, key, ValueText(v, showFloat)))
  }

  /** One top-level JSON entry under its raw key. */
  function RouteJsonEntry(acc: Loaded, k: string, v: Value, showFloat: real -> string): Loaded {
    RouteJsonKeyed(acc, CanonicalKey(Some(k)), v, showFloat)
  }

  /** A JSON object's entries routed in order from the skeleton. */
  function RouteJson(entries: seq<(string, Value)>, showFloat: real -> string): Loaded {
    if |entries| == 0 then Skeleton
    else
      var last := entries[|entries| - 1];
      RouteJsonEntry(RouteJson(entries[..|entries| - 1], showFloat), last.0, last.1, showFloat)
  }

  lemma RouteJsonStep(entries: seq<(string, Value)>, i: nat, showFloat: real -> string)
    requires i < |entries|
    ensures RouteJson(entries[..i + 1], showFloat) ==
      RouteJsonEntry(RouteJson(entries[..i], showFloat), entries[i].0, entries[i].1, showFloat)
  {
    assert entries[..i + 1][..i] == entries[..i];
  }

  /** The entry loop of `load_input` on a JSON file. */
  method LoadJsonObject(entries: seq<(string, Value)>, showFloat: real -> string) returns (result: Loaded)
    ensures result == RouteJson(entries, showFloat)
  {
    result := Skeleton;
    var i := 0;
    while i < |entries|
      invariant 0 <= i <= |entries|
      invariant result == RouteJson(entries[..i], showFloat)
    {
      var (k, v) := entries[i];
      RouteJsonStep(entries, i, showFloat);
      var key := CanonicalKey(Some(k));
      if IsMeta(key) {
        result := result.(meta := Put(result.meta, key, v));
      } else {
        var num := CastNumber(v, showFloat);
        if IsNumeric(num) || num.VNone? {
          result := result.(parameters := Put(result.parameters, key, num));
        } else {
          var text := ValueText(v, showFloat);
          var up := Upper(Strip(text));
          if up in StatusWords {
            result := result.(status := Put(result.status, key, up));
          } else {
            result := result.(notes := Put(result.notes, key, text));
          }
        }
      }
      i := i + 1;
    }
    assert entries[..i] == entries;
  }

  /** The shape of a loaded JSON object: parameters are numbers or None,
      statuses are LOW/HIGH/NORMAL, and metadata keys are metadata names. */
  predicate WellFormedJson(r: Loaded) {
    && (forall e :: e in r.parameters ==> IsNumeric(e.1) || e.1.VNone?)
    && (forall e :: e in r.status ==> e.1 in StatusWords)
    && (forall e :: e in r.meta ==> IsMeta(e.0))
  }

  lemma JsonEntryWellFormed(acc: Loaded, key: string, v: Value, showFloat: real -> string)
    requires WellFormedJson(acc)
    ensures WellFormedJson(RouteJsonKeyed(acc, key, v, showFloat))
  {
    if IsMeta(key) {
      PutEntries(acc.meta, key, v);
    } else {
      var num := CastNumber(v, showFloat);
      if IsNumeric(num) || num.VNone? {
        PutEntries(acc.parameters, key, num);
      } else {
        var up := Upper(Strip(ValueText(v, showFloat)));
        if up in StatusWords {
          PutEntries(acc.status, key, up);
        }
      }
    }
  }

  /** Whatever the object, the loaded result is well formed. */
  lemma {:induction false} RouteJsonWellFormed(entries: seq<(string, Value)>, showFloat: real -> string)
    ensures WellFormedJson(RouteJson(entries, showFloat))
  {
    if |entries| > 0 {
      var n := |entries| - 1;
      RouteJsonWellFormed(entries[..n], showFloat);
      JsonEntryWellFormed(RouteJson(entries[..n], showFloat), CanonicalKey(Some(entries[n].0)), entries[n].1, showFloat);
    }
  }

  /** JSON metadata, age included, keeps its value under the capitalised
      key: "age" becomes "Age". */
  lemma JsonAgeKey(acc: Loaded, v: Value, showFloat: real -> string)
    ensures RouteJsonEntry(acc, "age", v, showFloat) == acc.(meta := Put(acc.meta, "Age", v))
  {
    AgeCanonical();
  }
}
