/** Shared vocabulary of the model: optional values, the Python scalar values
    that flow through the analysers, ASCII string helpers with Python's
    semantics, insertion-ordered dictionaries, and decimal rounding. */
module Common {

  datatype Option<T> = None | Some(value: T)

  /** A Python scalar as it appears in the records the analysers read:
      None, a bool, an int, a float or a str. */
  datatype Value = VNone | VBool(b: bool) | VInt(i: int) | VFloat(r: real) | VStr(s: string)

  /** `isinstance(v, (int, float))`; a bool is an int in Python. */
  predicate IsNumeric(v: Value) {
    v.VBool? || v.VInt? || v.VFloat?
  }

  /** `float(v)` for a numeric value. */
  function AsReal(v: Value): real
    requires IsNumeric(v)
  {
    match v
    case VBool(b) => if b then 1.0 else 0.0
    case VInt(i) => i as real
    case VFloat(r) => r
  }

  /** Python truthiness of a scalar. */
  predicate Truthy(v: Value) {
    match v
    case VNone => false
    case VBool(b) => b
    case VInt(i) => i != 0
    case VFloat(r) => r != 0.0
    case VStr(s) => s != ""
  }

  /** `str(v)`: a string is itself; the text of any other value (Python's
      number formatting) is left to `show`. */
  function Str(v: Value, show: Value -> string): string {
    if v.VStr? then v.s else show(v)
  }

  // ---------------------------------------------------------------------
  // Characters (ASCII classes; Python's Unicode classes are wider)

  predicate IsSpace(c: char) {
    c == ' ' || (9 <= c as int <= 13) || (28 <= c as int <= 31)
  }

  predicate IsUpperAscii(c: char) { 'A' <= c <= 'Z' }
  predicate IsLowerAscii(c: char) { 'a' <= c <= 'z' }
  predicate IsAlpha(c: char) { IsUpperAscii(c) || IsLowerAscii(c) }
  predicate IsDigit(c: char) { '0' <= c <= '9' }
  predicate IsAlnum(c: char) { IsAlpha(c) || IsDigit(c) }

  function LowerChar(c: char): (r: char)
    ensures !IsUpperAscii(r)
    ensures IsAlpha(c) <==> IsAlpha(r)
  {
    if IsUpperAscii(c) then (c as int + 32) as char else c
  }

  function UpperChar(c: char): (r: char)
    ensures !IsLowerAscii(r)
    ensures IsAlpha(c) <==> IsAlpha(r)
  {
    if IsLowerAscii(c) then (c as int - 32) as char else c
  }

  // ---------------------------------------------------------------------
  // Strings

  /** `s.lower()` */
  function Lower(s: string): (r: string)
    ensures |r| == |s|
    ensures forall i :: 0 <= i < |s| ==> r[i] == LowerChar(s[i])
  {
    seq(|s|, i requires 0 <= i < |s| => LowerChar(s[i]))
  }

  /** `s.upper()` */
  function Upper(s: string): (r: string)
    ensures |r| == |s|
    ensures forall i :: 0 <= i < |s| ==> r[i] == UpperChar(s[i])
  {
    seq(|s|, i requires 0 <= i < |s| => UpperChar(s[i]))
  }

  /** `s.capitalize()`: first character upper-cased, the rest lower-cased. */
  function Capitalize(s: string): (r: string)
    ensures |r| == |s|
    ensures |s| > 0 ==> r[0] == UpperChar(s[0]) && r[1..] == Lower(s[1..])
  {
    if |s| == 0 then "" else [UpperChar(s[0])] + Lower(s[1..])
  }

  predicate StartsWith(s: string, p: string) {
    |p| <= |s| && s[..|p|] == p
  }

  predicate EndsWith(s: string, p: string) {
    |p| <= |s| && s[|s| - |p|..] == p
  }

  /** `sub in s` */
  predicate Contains(s: string, sub: string)
    decreases |s|
  {
    StartsWith(s, sub) || (|s| > 0 && Contains(s[1..], sub))
  }

  /** `re.search(r'\d', s)` finds a match. */
  predicate HasDigit(s: string) {
    exists i :: 0 <= i < |s| && IsDigit(s[i])
  }

  predicate ContainsChar(s: string, c: char) {
    exists i :: 0 <= i < |s| && s[i] == c
  }

  /** `s.lstrip()` */
  function StripLeft(s: string): (r: string)
    ensures |r| <= |s| && r == s[|s| - |r|..]
    ensures r == "" || !IsSpace(r[0])
    ensures forall i :: 0 <= i < |s| - |r| ==> IsSpace(s[i])
    decreases |s|
  {
    if |s| > 0 && IsSpace(s[0]) then StripLeft(s[1..]) else s
  }

  /** `s.rstrip()` */
  function StripRight(s: string): (r: string)
    ensures |r| <= |s| && r == s[..|r|]
    ensures r == "" || !IsSpace(r[|r| - 1])
    ensures forall i :: |r| <= i < |s| ==> IsSpace(s[i])
    decreases |s|
  {
    if |s| > 0 && IsSpace(s[|s| - 1]) then StripRight(s[..|s| - 1]) else s
  }

  /** `s.strip()` */
  function Strip(s: string): (r: string)
    ensures |r| <= |s|
    ensures r == "" || (!IsSpace(r[0]) && !IsSpace(r[|r| - 1]))
  {
    StripRight(StripLeft(s))
  }

  /** A string with no blank at either end is its own strip. */
  lemma StripKeeps(s: string)
    requires s == "" || (!IsSpace(s[0]) && !IsSpace(s[|s| - 1]))
    ensures Strip(s) == s
  {
    assert StripLeft(s) == s;
    assert StripRight(s) == s;
  }

  /** Stripping keeps a contiguous part of the string. */
  lemma StripInside(s: string, p: char -> bool)
    requires forall i :: 0 <= i < |s| ==> p(s[i])
    ensures forall i :: 0 <= i < |Strip(s)| ==> p(Strip(s)[i])
  {
    var l := StripLeft(s);
    var r := StripRight(l);
    forall i | 0 <= i < |r|
      ensures p(r[i])
    {
      assert r[i] == l[i] == s[|s| - |l| + i];
    }
  }

  /** `s.lstrip(chars)` for an explicit character set. */
  function StripLeftChars(s: string, cs: set<char>): (r: string)
    ensures |r| <= |s| && r == s[|s| - |r|..]
    ensures r == "" || r[0] !in cs
    decreases |s|
  {
    if |s| > 0 && s[0] in cs then StripLeftChars(s[1..], cs) else s
  }

  /** `s.rstrip(chars)` for an explicit character set. */
  function StripRightChars(s: string, cs: set<char>): (r: string)
    ensures |r| <= |s| && r == s[..|r|]
    ensures r == "" || r[|r| - 1] !in cs
    decreases |s|
  {
    if |s| > 0 && s[|s| - 1] in cs then StripRightChars(s[..|s| - 1], cs) else s
  }

  /** `s.strip(chars)` */
  function StripChars(s: string, cs: set<char>): (r: string)
    ensures |r| <= |s|
    ensures r == "" || (r[0] !in cs && r[|r| - 1] !in cs)
  {
    StripRightChars(StripLeftChars(s, cs), cs)
  }

  /** Every character of `cs` deleted from `s` (a chain of `s.replace(c, "")`). */
  function RemoveChars(s: string, cs: set<char>): (r: string)
    ensures |r| <= |s|
    ensures forall i :: 0 <= i < |r| ==> r[i] !in cs
    ensures forall c :: c !in cs ==> multiset(r)[c] == multiset(s)[c]
  {
    if |s| == 0 then ""
    else
      var rest := RemoveChars(s[1..], cs);
      assert s == [s[0]] + s[1..];
      if s[0] in cs then rest else [s[0]] + rest
  }

  /** Deleting characters that do not occur changes nothing. */
  lemma {:induction false} RemoveCharsKeeps(s: string, cs: set<char>)
    requires forall i :: 0 <= i < |s| ==> s[i] !in cs
    ensures RemoveChars(s, cs) == s
  {
    if |s| > 0 {
      RemoveCharsKeeps(s[1..], cs);
      assert s == [s[0]] + s[1..];
    }
  }

  /** The characters of `s` that `drop` does not select, in order
      (`re.sub("[...]+", "", s)` for a character class). */
  function RemoveWhere(s: string, drop: char -> bool): (r: string)
    ensures |r| <= |s|
    ensures forall i :: 0 <= i < |r| ==> !drop(r[i])
  {
    if |s| == 0 then ""
    else
      var rest := RemoveWhere(s[1..], drop);
      if drop(s[0]) then rest else [s[0]] + rest
  }

  lemma RemoveWhereKeepsPred(s: string, drop: char -> bool, p: char -> bool)
    requires forall i :: 0 <= i < |s| ==> p(s[i])
    ensures forall i :: 0 <= i < |RemoveWhere(s, drop)| ==> p(RemoveWhere(s, drop)[i])
  {
    if |s| > 0 {
      RemoveWhereKeepsPred(s[1..], drop, p);
    }
  }

  lemma RemoveWhereAppend(a: string, b: string, drop: char -> bool)
    ensures RemoveWhere(a + b, drop) == RemoveWhere(a, drop) + RemoveWhere(b, drop)
  {
    if |a| > 0 {
      assert (a + b)[1..] == a[1..] + b;
      RemoveWhereAppend(a[1..], b, drop);
    } else {
      assert a + b == b;
    }
  }

  lemma RemoveWhereKeeps(s: string, drop: char -> bool)
    requires forall i :: 0 <= i < |s| ==> !drop(s[i])
    ensures RemoveWhere(s, drop) == s
  {
    if |s| > 0 {
      RemoveWhereKeeps(s[1..], drop);
    }
  }

  lemma RemoveWhereDrops(s: string, drop: char -> bool)
    requires forall i :: 0 <= i < |s| ==> drop(s[i])
    ensures RemoveWhere(s, drop) == ""
  {
    if |s| > 0 {
      RemoveWhereDrops(s[1..], drop);
    }
  }

  /** A string containing `sub` contains each of its characters. */
  lemma {:induction false} ContainsHasChar(s: string, sub: string, k: nat)
    requires Contains(s, sub) && k < |sub|
    ensures sub[k] in s
    decreases |s|
  {
    if StartsWith(s, sub) {
      assert s[k] == sub[k];
    } else {
      ContainsHasChar(s[1..], sub, k);
      assert sub[k] in s[1..];
    }
  }

  /** A character of `sub` that `s` lacks rules `sub` out. */
  lemma MissingChar(s: string, sub: string, k: nat)
    requires k < |sub| && sub[k] !in s
    ensures !Contains(s, sub)
  {
    if Contains(s, sub) {
      ContainsHasChar(s, sub, k);
    }
  }

  /** An occurrence at offset `k` is an occurrence. */
  lemma {:induction false} ContainsAt(s: string, sub: string, k: nat)
    requires k <= |s| && StartsWith(s[k..], sub)
    ensures Contains(s, sub)
    decreases k
  {
    if k > 0 {
      assert s[1..][k - 1..] == s[k..];
      ContainsAt(s[1..], sub, k - 1);
    } else {
      assert s[0..] == s;
    }
  }

  /** `s.replace(pat, rep)`: left-to-right, non-overlapping. */
  function Replace(s: string, pat: string, rep: string): (r: string)
    requires |pat| > 0
    ensures !Contains(s, pat) ==> r == s
    decreases |s|
  {
    if |s| < |pat| then s
    else if s[..|pat|] == pat then rep + Replace(s[|pat|..], pat, rep)
    else [s[0]] + Replace(s[1..], pat, rep)
  }

  /** `sep.join(parts)` */
  function Join(parts: seq<string>, sep: string): string {
    if |parts| == 0 then ""
    else if |parts| == 1 then parts[0]
    else parts[0] + sep + Join(parts[1..], sep)
  }

  /** Joining one more piece appends the separator and the piece. */
  lemma {:induction false} JoinSnoc(parts: seq<string>, x: string, sep: string)
    requires |parts| > 0
    ensures Join(parts + [x], sep) == Join(parts, sep) + sep + x
  {
    if |parts| > 1 {
      assert (parts + [x])[1..] == parts[1..] + [x];
      JoinSnoc(parts[1..], x, sep);
    } else {
      assert parts + [x] == [parts[0], x];
      assert [parts[0], x][1..] == [x];
    }
  }

  /** A join starts with its first piece. */
  lemma JoinHead(parts: seq<string>, sep: string)
    requires |parts| > 0
    ensures StartsWith(Join(parts, sep), parts[0])
  {
    if |parts| > 1 {
      assert (parts[0] + sep + Join(parts[1..], sep))[..|parts[0]|] == parts[0];
    }
  }

  /** `s.split(c)` for a one-character separator: always at least one piece. */
  function Split(s: string, c: char): (r: seq<string>)
    ensures |r| >= 1
    ensures forall i :: 0 <= i < |r| ==> c !in r[i]
    decreases |s|
  {
    if |s| == 0 then [""]
    else
      var rest := Split(s[1..], c);
      if s[0] == c then [""] + rest else [[s[0]] + rest[0]] + rest[1..]
  }

  /** Splitting at a separator that does not occur in the first piece. */
  lemma {:induction false} SplitAt(a: string, b: string, c: char)
    requires c !in a
    ensures Split(a + [c] + b, c) == [a] + Split(b, c)
    decreases |a|
  {
    var s := a + [c] + b;
    if |a| == 0 {
      assert s[1..] == b;
    } else {
      assert s[1..] == a[1..] + [c] + b;
      SplitAt(a[1..], b, c);
      assert [a[0]] + a[1..] == a;
    }
  }

  lemma {:induction false} SplitNone(a: string, c: char)
    requires c !in a
    ensures Split(a, c) == [a]
    decreases |a|
  {
    if |a| > 0 {
      SplitNone(a[1..], c);
      assert [a[0]] + a[1..] == a;
    }
  }

  /** Joining pieces that do not contain the separator and splitting again
      gives the pieces back. */
  lemma {:induction false} SplitJoinOn(ps: seq<string>, c: char)
    requires |ps| >= 1
    requires forall i :: 0 <= i < |ps| ==> c !in ps[i]
    ensures Split(Join(ps, [c]), c) == ps
    decreases |ps|
  {
    if |ps| == 1 {
      SplitNone(ps[0], c);
    } else {
      SplitJoinOn(ps[1..], c);
      SplitAt(ps[0], Join(ps[1..], [c]), c);
      assert [ps[0]] + ps[1..] == ps;
    }
  }

  /** A non-empty string without whitespace. */
  predicate IsWord(w: string) {
    w != "" && forall j :: 0 <= j < |w| ==> !IsSpace(w[j])
  }

  /** `s.split()`: the maximal runs of non-whitespace characters. */
  function Words(s: string): (r: seq<string>)
    ensures forall i :: 0 <= i < |r| ==> IsWord(r[i])
    decreases |s|
  {
    var t := StripLeft(s);
    if t == "" then []
    else
      var w := TakeWord(t);
      assert IsWord(w);
      var rest := Words(t[|w|..]);
      ConsWords(w, rest);
      [w] + rest
  }

  lemma ConsWords(w: string, rest: seq<string>)
    requires IsWord(w) && forall i :: 0 <= i < |rest| ==> IsWord(rest[i])
    ensures forall i :: 0 <= i < |[w] + rest| ==> IsWord(([w] + rest)[i])
  {
    forall i | 0 <= i < |[w] + rest|
      ensures IsWord(([w] + rest)[i])
    {
      if i > 0 {
        assert ([w] + rest)[i] == rest[i - 1];
      }
    }
  }

  /** The longest prefix of `s` without whitespace. */
  function TakeWord(s: string): (w: string)
    ensures |w| <= |s| && w == s[..|w|]
    ensures forall j :: 0 <= j < |w| ==> !IsSpace(s[j])
    ensures |s| > 0 && !IsSpace(s[0]) ==> |w| > 0
    decreases |s|
  {
    if |s| == 0 || IsSpace(s[0]) then "" else [s[0]] + TakeWord(s[1..])
  }

  /** The first `n` elements, or all of them when there are fewer (`xs[:n]`). */
  function Take<T>(xs: seq<T>, n: nat): (r: seq<T>)
    ensures |r| == if |xs| < n then |xs| else n
    ensures r == xs[..|r|]
  {
    if |xs| <= n then xs else xs[..n]
  }

  /** Order-preserving removal of repeated elements (`list(dict.fromkeys(xs))`). */
  function Dedupe<T(==,!new)>(xs: seq<T>): (r: seq<T>)
    ensures forall x :: x in r <==> x in xs
    ensures forall i, j :: 0 <= i < j < |r| ==> r[i] != r[j]
  {
    DedupeFrom(xs, [])
  }

  function DedupeFrom<T(==,!new)>(xs: seq<T>, seen: seq<T>): (r: seq<T>)
    requires forall i, j :: 0 <= i < j < |seen| ==> seen[i] != seen[j]
    ensures forall x :: x in r <==> x in xs || x in seen
    ensures |r| >= |seen| && r[..|seen|] == seen
    ensures forall i, j :: 0 <= i < j < |r| ==> r[i] != r[j]
    decreases |xs|
  {
    if |xs| == 0 then seen
    else if xs[0] in seen then DedupeFrom(xs[1..], seen)
    else DedupeFrom(xs[1..], seen + [xs[0]])
  }

  // ---------------------------------------------------------------------
  // Sequences

  /** `[x]` when `c` holds, else nothing: one conditional `append`. */
  function When<T>(c: bool, x: T): seq<T> {
    if c then [x] else []
  }

  /** `[x for x in xs if p(x)]` */
  function Filter<T>(xs: seq<T>, p: T -> bool): (r: seq<T>)
    ensures |r| <= |xs|
  {
    if |xs| == 0 then []
    else Filter(xs[..|xs| - 1], p) + When(p(xs[|xs| - 1]), xs[|xs| - 1])
  }

  /** Filtering keeps exactly the elements that pass. */
  lemma {:induction false} FilterIff<T>(xs: seq<T>, p: T -> bool, x: T)
    ensures x in Filter(xs, p) <==> x in xs && p(x)
  {
    if |xs| > 0 {
      var init := xs[..|xs| - 1];
      FilterIff(init, p, x);
      assert xs == init + [xs[|xs| - 1]];
    }
  }

  /** Filtering keeps an order that rises strictly under `key`. */
  lemma {:induction false} FilterIncreasing<T>(xs: seq<T>, p: T -> bool, key: T -> int)
    requires forall i, j :: 0 <= i < j < |xs| ==> key(xs[i]) < key(xs[j])
    ensures forall i, j :: 0 <= i < j < |Filter(xs, p)| ==>
      key(Filter(xs, p)[i]) < key(Filter(xs, p)[j])
  {
    if |xs| > 0 {
      var init := xs[..|xs| - 1];
      var last := xs[|xs| - 1];
      var f := Filter(init, p);
      assert forall i, j :: 0 <= i < j < |init| ==> init[i] == xs[i] && init[j] == xs[j];
      FilterIncreasing(init, p, key);
      forall y | y in f
        ensures key(y) < key(last)
      {
        FilterIff(init, p, y);
        var i :| 0 <= i < |init| && init[i] == y;
        assert xs[i] == y;
      }
      var r := f + When(p(last), last);
      assert r == Filter(xs, p);
      forall i, j | 0 <= i < j < |r|
        ensures key(r[i]) < key(r[j])
      {
        assert r[i] == f[i];
        if j >= |f| {
          assert r[j] == last;
          assert f[i] in f;
        } else {
          assert r[j] == f[j];
        }
      }
    }
  }

  /** Filtering twice removes nothing more. */
  lemma {:induction false} FilterIdempotent<T>(xs: seq<T>, p: T -> bool)
    ensures Filter(Filter(xs, p), p) == Filter(xs, p)
  {
    if |xs| > 0 {
      var init := xs[..|xs| - 1];
      var last := xs[|xs| - 1];
      FilterIdempotent(init, p);
      var f := Filter(init, p);
      assert Filter(xs, p) == f + When(p(last), last);
      if p(last) {
        assert (f + [last])[..|f|] == f;
        assert Filter(f + [last], p) == Filter(f, p) + [last];
      } else {
        assert Filter(xs, p) == f;
      }
    }
  }

  /** Python's `any(p(x) for x in s)`. */
  predicate Any<T>(s: seq<T>, p: T -> bool) {
    exists i :: 0 <= i < |s| && p(s[i])
  }

  /** `any` over a list is `any` over all but the last element, or the last. */
  lemma AnySnoc<T>(s: seq<T>, p: T -> bool)
    requires |s| > 0
    ensures Any(s, p) <==> Any(s[..|s| - 1], p) || p(s[|s| - 1])
  {
    var init := s[..|s| - 1];
    if Any(init, p) {
      var i :| 0 <= i < |init| && p(init[i]);
      assert s[i] == init[i];
    }
    if Any(s, p) {
      var i :| 0 <= i < |s| && p(s[i]);
      if i < |init| {
        assert init[i] == s[i];
      }
    }
  }

  // ---------------------------------------------------------------------
  // Insertion-ordered dictionaries (Python dicts with string keys)

  type Dict<V> = seq<(string, V)>

  function Keys<V>(d: Dict<V>): (ks: seq<string>)
    ensures |ks| == |d|
    ensures forall i :: 0 <= i < |d| ==> ks[i] == d[i].0
  {
    seq(|d|, i requires 0 <= i < |d| => d[i].0)
  }

  predicate HasKey<V>(d: Dict<V>, k: string) {
    exists i :: 0 <= i < |d| && d[i].0 == k
  }

  /** Position of the entry for `k`, or -1 when there is none. */
  function IndexOf<V>(d: Dict<V>, k: string): (i: int)
    ensures -1 <= i < |d|
    ensures i >= 0 ==> d[i].0 == k && forall j :: 0 <= j < i ==> d[j].0 != k
    ensures i < 0 <==> !HasKey(d, k)
  {
    if |d| == 0 then -1
    else if d[0].0 == k then 0
    else
      var i := IndexOf(d[1..], k);
      assert forall j :: 1 <= j < |d| ==> d[1..][j - 1] == d[j];
      if i < 0 then -1 else i + 1
  }

  /** `d.get(k)` */
  function Get<V>(d: Dict<V>, k: string): (r: Option<V>)
    ensures r.Some? <==> HasKey(d, k)
    ensures r.Some? ==> (k, r.value) in d
  {
    var i := IndexOf(d, k);
    if i < 0 then None else Some(d[i].1)
  }

  /** `d.get(k, dflt)` */
  function GetOr<V>(d: Dict<V>, k: string, dflt: V): (r: V)
    ensures HasKey(d, k) ==> (k, r) in d
    ensures !HasKey(d, k) ==> r == dflt
  {
    match Get(d, k)
    case None => dflt
    case Some(v) => v
  }

  /** `d[k] = v`: an existing key keeps its position, a new key goes last. */
  function Put<V>(d: Dict<V>, k: string, v: V): (r: Dict<V>)
  {
    var i := IndexOf(d, k);
    if i < 0 then
      var r := d + [(k, v)];
      assert r[|d|].0 == k && forall j :: 0 <= j < |d| ==> r[j] == d[j];
      r
    else d[i := (k, v)]
  }

  /** The keys after `d[k] = v`: unchanged for an existing key, `k`
      appended for a new one. */
  lemma PutKeys<V>(d: Dict<V>, k: string, v: V)
    ensures Keys(Put(d, k, v)) == if HasKey(d, k) then Keys(d) else Keys(d) + [k]
  {
  }

  /** `d[k] = v` stores `v` under `k`. */
  lemma PutGet<V>(d: Dict<V>, k: string, v: V)
    ensures Get(Put(d, k, v), k) == Some(v)
  {
    var r := Put(d, k, v);
    var i := IndexOf(d, k);
    if i < 0 {
      assert r[|d|].0 == k && forall j :: 0 <= j < |d| ==> r[j] == d[j];
    } else {
      assert r[i].0 == k && forall j :: 0 <= j < i ==> r[j] == d[j];
      assert IndexOf(r, k) == i;
    }
  }

  /** Every entry after `d[k] = v` was already there or is `(k, v)`. */
  lemma PutEntries<V>(d: Dict<V>, k: string, v: V)
    ensures forall e :: e in Put(d, k, v) ==> e in d || e == (k, v)
  {
  }

  /** A Python dict never repeats a key. */
  predicate DistinctKeys<V>(d: Dict<V>) {
    forall i, j :: 0 <= i < j < |d| ==> d[i].0 != d[j].0
  }

  /** Storing a key that is not there yet appends it. */
  lemma PutFresh<V>(d: Dict<V>, k: string, v: V)
    requires !HasKey(d, k)
    ensures Put(d, k, v) == d + [(k, v)]
  {
  }

  /** Storing a key keeps the keys distinct. */
  lemma PutDistinct<V>(d: Dict<V>, k: string, v: V)
    requires DistinctKeys(d)
    ensures DistinctKeys(Put(d, k, v))
  {
    var i := IndexOf(d, k);
    if i < 0 {
      var r := d + [(k, v)];
      assert forall j :: 0 <= j < |d| ==> r[j] == d[j];
      assert forall j :: 0 <= j < |d| ==> d[j].0 != k;
    }
  }

  /** `d.pop(k)` for its effect on `d`: every entry for `k` removed. */
  function Remove<V>(d: Dict<V>, k: string): (r: Dict<V>)
    ensures !HasKey(r, k)
    ensures forall e :: e in r ==> e in d
  {
    if |d| == 0 then []
    else (if d[0].0 == k then [] else [d[0]]) + Remove(d[1..], k)
  }

  /** Setting one key leaves every other key's value alone. */
  lemma GetPutOther<V>(d: Dict<V>, k: string, v: V, k2: string)
    requires k2 != k
    ensures Get(Put(d, k, v), k2) == Get(d, k2)
  {
    var r := Put(d, k, v);
    var i := IndexOf(d, k2);
    var j := IndexOf(r, k2);
    if i >= 0 {
      assert r[i] == d[i];
    }
  }

  /** A JSON document: the nested dicts, lists and scalars the pipelines
      emit. */
  datatype Json =
    | JNull
    | JBool(b: bool)
    | JInt(i: int)
    | JNum(r: real)
    | JStr(s: string)
    | JList(items: seq<Json>)
    | JObj(fields: seq<(string, Json)>)

  // ---------------------------------------------------------------------
  // Decimal rounding

  function Pow10(n: nat): (r: real)
    ensures r >= 1.0
  {
    if n == 0 then 1.0 else 10.0 * Pow10(n - 1)
  }

  /** `x` rounded to the nearest multiple of `1 / p`, halves upwards. */
  function Scaled(x: real, p: real): real
    requires p > 0.0
  {
    ((x * p + 0.5).Floor as real) / p
  }

  /** `round(x, n)`, rounding halves upwards on exact reals. */
  function Round(x: real, n: nat): real {
    Scaled(x, Pow10(n))
  }

  lemma ScaledMonotone(x: real, y: real, p: real)
    requires x <= y && p > 0.0
    ensures Scaled(x, p) <= Scaled(y, p)
  {
    assert x * p <= y * p;
    var a := (x * p + 0.5).Floor;
    var b := (y * p + 0.5).Floor;
    assert a <= b;
    assert (a as real) / p <= (b as real) / p;
  }

  /** Rounding is monotone. */
  lemma RoundMonotone(x: real, y: real, n: nat)
    requires x <= y
    ensures Round(x, n) <= Round(y, n)
  {
    ScaledMonotone(x, y, Pow10(n));
  }

  lemma PowInteger(n: nat)
    ensures Pow10(n) == Pow10(n).Floor as real
  {
    if n > 0 {
      PowInteger(n - 1);
      var m := Pow10(n - 1).Floor;
      assert Pow10(n) == (10 * m) as real;
    }
  }

  lemma ScaledUnit(x: real, p: real)
    requires 0.0 <= x <= 1.0 && p >= 1.0 && p == p.Floor as real
    ensures 0.0 <= Scaled(x, p)
    ensures Scaled(x, p) <= 1.0
  {
    var y := x * p;
    assert 0.0 <= y <= p by { UnitProduct(x, p); }
    var f := (y + 0.5).Floor;
    assert 0 <= f <= p.Floor;
    assert Scaled(x, p) == (f as real) / p;
    FractionUnit(f as real, p);
  }

  lemma UnitProduct(x: real, p: real)
    requires 0.0 <= x <= 1.0 && p >= 0.0
    ensures 0.0 <= x * p <= p
  {
    assert p - x * p == (1.0 - x) * p;
  }

  lemma FractionUnit(q: real, p: real)
    requires 0.0 <= q <= p && p > 0.0
    ensures 0.0 <= q / p <= 1.0
  {
    assert q / p * p == q;
  }

  /** Rounding keeps a value of [0, 1] inside [0, 1]. */
  lemma RoundUnit(x: real, n: nat)
    requires 0.0 <= x <= 1.0
    ensures 0.0 <= Round(x, n) <= 1.0
  {
    PowInteger(n);
    ScaledUnit(x, Pow10(n));
  }

  /** Rounding to 3 places keeps 0, 0.5 and 1. */
  lemma RoundFixed()
    ensures Round(0.0, 3) == 0.0 && Round(0.5, 3) == 0.5 && Round(1.0, 3) == 1.0
  {
    assert Pow10(3) == 1000.0;
    assert Scaled(0.0, 1000.0) == ((0.5).Floor as real) / 1000.0;
    assert Scaled(0.5, 1000.0) == ((500.5).Floor as real) / 1000.0;
    assert Scaled(1.0, 1000.0) == ((1000.5).Floor as real) / 1000.0;
  }

  function Min(a: real, b: real): (r: real)
    ensures r <= a && r <= b && (r == a || r == b)
  {
    if a <= b then a else b
  }

  function Max(a: real, b: real): (r: real)
    ensures r >= a && r >= b && (r == a || r == b)
  {
    if a >= b then a else b
  }

  function Abs(x: real): (r: real)
    ensures r >= 0.0 && (r == x || r == -x)
  {
    if x < 0.0 then -x else x
  }
}
