/** The free-text parameter extractor (extractor/param_extractor.py): the
    junk-name filter, the tolerant number reader, the alias matcher (the
    path taken without the optional fuzzy-matching library) and the
    candidate filters of the two scanners. Every regular-expression search
    is abstracted into the matches it returns. */
module ParamExtractor {
  import opened Common
  import opened Numeric
  import opened UnitStandardization

  // ---------------------------------------------------------------------
  // Names

  predicate HasLetter(s: string) {
    exists i :: 0 <= i < |s| && IsAlpha(s[i])
  }

  /** The number of letters in `s`. */
  function Letters(s: string): (n: nat)
    ensures n <= |s|
  {
    if |s| == 0 then 0 else (if IsAlpha(s[0]) then 1 else 0) + Letters(s[1..])
  }

  /** `_looks_like_name(s)`: non-empty, at least two characters once
      stripped, with a letter, and letters make up at least 30% of the
      characters other than the space. The share test `letters / total <
      0.3` is written without the division; `NameFilterShare` shows the
      two agree. */
  predicate LooksLikeName(s: string) {
    if s == "" then false
    else
      var t := Strip(s);
      if |t| < 2 then false
      else if !HasLetter(t) then false
      else
        var total := |RemoveChars(t, {' '})|;
        !(total > 0 && 10 * Letters(t) < 3 * total)
  }

  // ---------------------------------------------------------------------
  // Numbers

  /** What `normalize_number` hands to `float`: the stripped text without
      blanks, commas read as points, and leading '<'/'>' removed. */
  function NumberText(s: string): string {
    Strip(StripLeftChars(CleanText(Strip(s)), {'<', '>'}))
  }

  /** `normalize_number(s)`: `float` of the cleaned text, else the first
      `-?\d+(\.\d+)?` in it, else None. The cleaned text holds no comma
      (`NumberTextNoComma`), so `FirstNumber`'s `[.,]` matches the point
      alone there. */
  function NormalizeNumber(s: Option<string>): Option<real> {
    match s
    case None => None
    case Some(x) =>
      if Strip(x) == "" then None
      else
        ReadNumber(NumberText(x))
  }

  /** `float(t)`, else the first number in `t`. */
  function ReadNumber(t: string): Option<real> {
    match ParseFloat(t)
    case Some(v) => Some(v)
    case None => FirstNumber(t, false)
  }

  // ---------------------------------------------------------------------
  // Alias lookup

  /** What the parameter map holds for a canonical name: a record whose
      "aliases" field lists the aliases (absent reads as none), a bare list
      of aliases, or anything else (no aliases). */
  datatype MapInfo = AliasRecord(aliases: seq<string>) | AliasList(list: seq<string>) | Other

  function AliasesOf(info: MapInfo): seq<string> {
    match info
    case AliasRecord(a) => a
    case AliasList(a) => a
    case Other => []
  }

  /** Every alias, lower-cased, mapped to `canon`, in list order. */
  function AddAliases(d: Dict<string>, aliases: seq<string>, canon: string): Dict<string>
    decreases |aliases|
  {
    if |aliases| == 0 then d
    else Put(AddAliases(d, aliases[..|aliases| - 1], canon), Lower(aliases[|aliases| - 1]), canon)
  }

  /** `CANONICAL_LOOKUP`: for each canonical name in map order, its
      aliases and then its own lower-cased name; a later entry overwrites
      an earlier one with the same key. */
  function BuildLookup(pm: Dict<MapInfo>): Dict<string>
    decreases |pm|
  {
    if |pm| == 0 then []
    else
      var last := pm[|pm| - 1];
      Put(AddAliases(BuildLookup(pm[..|pm| - 1]), AliasesOf(last.1), last.0), Lower(last.0), last.0)
  }

  /** The module-level loops that fill `CANONICAL_LOOKUP`. */
  method BuildCanonicalLookup(pm: Dict<MapInfo>) returns (lookup: Dict<string>)
    ensures lookup == BuildLookup(pm)
  {
    lookup := [];
    var i := 0;
    while i < |pm|
      invariant 0 <= i <= |pm|
      invariant lookup == BuildLookup(pm[..i])
    {
      var canon := pm[i].0;
      var aliases := AliasesOf(pm[i].1);
      var j := 0;
      while j < |aliases|
        invariant 0 <= j <= |aliases|
        invariant lookup == AddAliases(BuildLookup(pm[..i]), aliases[..j], canon)
      {
        assert aliases[..j + 1][..j] == aliases[..j];
        lookup := Put(lookup, Lower(aliases[j]), canon);
        j := j + 1;
      }
      assert aliases[..j] == aliases;
      lookup := Put(lookup, Lower(canon), canon);
      assert pm[..i + 1][..i] == pm[..i];
      i := i + 1;
    }
    assert pm[..i] == pm;
  }

  /** A character `[A-Za-z0-9 ]` keeps; every other becomes a blank. */
  function Blanked(c: char): char {
    if IsAlnum(c) || c == ' ' then c else ' '
  }

  /** `re.sub(r'[^A-Za-z0-9 ]', ' ', name).strip().lower()` */
  function Clean(name: string): (r: string)
    ensures forall i :: 0 <= i < |r| ==> IsDigit(r[i]) || IsLowerAscii(r[i]) || r[i] == ' '
  {
    var b := seq(|name|, i requires 0 <= i < |name| => Blanked(name[i]));
    var t := Strip(b);
    StripInside(b, c => IsAlnum(c) || c == ' ');
    Lower(t)
  }

  /** The words of more than one character, in order. */
  function LongTokens(words: seq<string>): (r: seq<string>)
    ensures forall i :: 0 <= i < |r| ==> |r[i]| > 1 && r[i] in words
    ensures forall w :: w in words && |w| > 1 ==> w in r
  {
    if |words| == 0 then []
    else (if |words[0]| > 1 then [words[0]] else []) + LongTokens(words[1..])
  }

  /** Filtering distributes over concatenation, so the tokens keep the
      order and the multiplicity the words have. */
  lemma {:induction false} LongTokensAppend(a: seq<string>, b: seq<string>)
    ensures LongTokens(a + b) == LongTokens(a) + LongTokens(b)
  {
    if |a| > 0 {
      assert (a + b)[0] == a[0];
      assert (a + b)[1..] == a[1..] + b;
      LongTokensAppend(a[1..], b);
    } else {
      assert a + b == b;
    }
  }

  /** The index of the first word longer than one character that is a
      lookup key, found directly on the words. */
  function FirstLongKeyAt(words: seq<string>, lookup: Dict<string>): (r: Option<nat>)
    ensures r.Some? ==> r.value < |words| && |words[r.value]| > 1 && HasKey(lookup, words[r.value])
    ensures r.Some? ==> forall i :: 0 <= i < r.value && |words[i]| > 1 ==> !HasKey(lookup, words[i])
    ensures r.None? ==> forall i :: 0 <= i < |words| && |words[i]| > 1 ==> !HasKey(lookup, words[i])
  {
    if |words| == 0 then None
    else if |words[0]| > 1 && HasKey(lookup, words[0]) then Some(0)
    else
      var r := FirstLongKeyAt(words[1..], lookup);
      assert forall i :: 1 <= i < |words| ==> words[1..][i - 1] == words[i];
      if r.None? then None else Some(r.value + 1)
  }

  /** The key token the loop returns, as a word. */
  function KnownToken(tokens: seq<string>, lookup: Dict<string>): Option<string> {
    if |tokens| == 0 then None
    else if HasKey(lookup, tokens[0]) then Some(tokens[0])
    else KnownToken(tokens[1..], lookup)
  }

  /** The earliest word longer than one character that is a key. */
  function LongKnownWord(words: seq<string>, lookup: Dict<string>): Option<string> {
    if |words| == 0 then None
    else if |words[0]| > 1 && HasKey(lookup, words[0]) then Some(words[0])
    else LongKnownWord(words[1..], lookup)
  }

  lemma {:induction false} KnownLongWord(words: seq<string>, lookup: Dict<string>)
    ensures KnownToken(LongTokens(words), lookup) == LongKnownWord(words, lookup)
  {
    if |words| > 0 {
      var w := words[0];
      var t := LongTokens(words[1..]);
      KnownLongWord(words[1..], lookup);
      if |w| > 1 {
        assert LongTokens(words) == [w] + t;
        assert ([w] + t)[1..] == t;
      } else {
        assert LongTokens(words) == t;
      }
    }
  }

  lemma {:induction false} KnownTokenAt(tokens: seq<string>, lookup: Dict<string>)
    ensures KnownToken(tokens, lookup) ==
      if FirstKnown(tokens, lookup).None? then None else Some(tokens[FirstKnown(tokens, lookup).value])
  {
    if |tokens| > 0 {
      KnownTokenAt(tokens[1..], lookup);
      assert [tokens[0]] + tokens[1..] == tokens;
      FirstKnownCons(tokens[0], tokens[1..], lookup);
    }
  }

  lemma {:induction false} LongKnownWordAt(words: seq<string>, lookup: Dict<string>)
    ensures LongKnownWord(words, lookup) ==
      if FirstLongKeyAt(words, lookup).None? then None else Some(words[FirstLongKeyAt(words, lookup).value])
  {
    if |words| > 0 {
      LongKnownWordAt(words[1..], lookup);
      FirstLongKeyAtCons(words, lookup);
    }
  }

  /** The first known token is the first long word of the name that is a
      key: the token loop returns the earliest such word, and none exactly
      when no long word is a key. */
  lemma LongTokensFirst(words: seq<string>, lookup: Dict<string>)
    ensures FirstKnown(LongTokens(words), lookup).None? <==> FirstLongKeyAt(words, lookup).None?
    ensures FirstKnown(LongTokens(words), lookup).Some? ==>
      LongTokens(words)[FirstKnown(LongTokens(words), lookup).value] == words[FirstLongKeyAt(words, lookup).value]
  {
    KnownLongWord(words, lookup);
    KnownTokenAt(LongTokens(words), lookup);
    LongKnownWordAt(words, lookup);
  }

  /** The direct search on a list of words, one word at a time. */
  lemma FirstLongKeyAtCons(words: seq<string>, lookup: Dict<string>)
    requires |words| > 0
    ensures |words[0]| > 1 && HasKey(lookup, words[0]) ==> FirstLongKeyAt(words, lookup) == Some(0)
    ensures !(|words[0]| > 1 && HasKey(lookup, words[0])) ==>
      FirstLongKeyAt(words, lookup).None? == FirstLongKeyAt(words[1..], lookup).None?
    ensures !(|words[0]| > 1 && HasKey(lookup, words[0])) && FirstLongKeyAt(words[1..], lookup).Some? ==>
      FirstLongKeyAt(words, lookup) == Some(FirstLongKeyAt(words[1..], lookup).value + 1)
      && words[FirstLongKeyAt(words[1..], lookup).value + 1] == words[1..][FirstLongKeyAt(words[1..], lookup).value]
  {
  }

  /** The token loop on a list that starts with `w`. */
  lemma FirstKnownCons(w: string, t: seq<string>, lookup: Dict<string>)
    ensures HasKey(lookup, w) ==> FirstKnown([w] + t, lookup) == Some(0)
    ensures !HasKey(lookup, w) ==> FirstKnown([w] + t, lookup).None? == FirstKnown(t, lookup).None?
    ensures !HasKey(lookup, w) && FirstKnown(t, lookup).Some? ==>
      FirstKnown([w] + t, lookup) == Some(FirstKnown(t, lookup).value + 1)
      && ([w] + t)[FirstKnown(t, lookup).value + 1] == t[FirstKnown(t, lookup).value]
  {
    assert ([w] + t)[1..] == t;
  }

  /** The first token that is a lookup key. */
  function FirstKnown(tokens: seq<string>, lookup: Dict<string>): (r: Option<nat>)
    ensures r.Some? ==> r.value < |tokens| && HasKey(lookup, tokens[r.value])
    ensures r.Some? ==> forall i :: 0 <= i < r.value ==> !HasKey(lookup, tokens[i])
    ensures r.None? ==> forall i :: 0 <= i < |tokens| ==> !HasKey(lookup, tokens[i])
  {
    if |tokens| == 0 then None
    else if HasKey(lookup, tokens[0]) then Some(0)
    else
      var r := FirstKnown(tokens[1..], lookup);
      assert forall i :: 1 <= i < |tokens| ==> tokens[1..][i - 1] == tokens[i];
      if r.None? then None else Some(r.value + 1)
  }

  /** The lookup key a cleaned name hits and the score of the hit: the
      whole name (1.0), else its first known long word (0.9), else the
      first key of three or more characters inside it (0.6). */
  function MatchKey(clean: string, lookup: Dict<string>): (Option<string>, real) {
    if HasKey(lookup, clean) then (Some(clean), 1.0)
    else
      var tokens := LongTokens(Words(clean));
      match FirstKnown(tokens, lookup)
      case Some(i) => (Some(tokens[i]), 0.9)
      case None =>
        match FirstFitting(Keys(lookup), clean)
        case Some(j) => (Some(lookup[j].0), 0.6)
        case None => (None, 0.0)
  }

  /** `fuzzy_canonical(name)` without the fuzzy-matching library. */
  function FuzzyCanonical(name: string, lookup: Dict<string>): (Option<string>, real) {
    if name == "" then (None, 0.0)
    else
      var c := Clean(name);
      if c == "" then (None, 0.0)
      else
        var m := MatchKey(c, lookup);
        (if m.0.Some? then Get(lookup, m.0.value) else None, m.1)
  }

  // ---------------------------------------------------------------------
  // Properties of names

  lemma {:induction false} LettersPositive(s: string)
    ensures Letters(s) > 0 <==> HasLetter(s)
  {
    if |s| > 0 {
      LettersPositive(s[1..]);
      if HasLetter(s) && !IsAlpha(s[0]) {
        var i :| 0 <= i < |s| && IsAlpha(s[i]);
        assert IsAlpha(s[1..][i - 1]);
      }
      if HasLetter(s[1..]) {
        var i :| 0 <= i < |s| - 1 && IsAlpha(s[1..][i]);
        assert IsAlpha(s[i + 1]);
      }
    }
  }

  /** Letters are never blanks, so they are counted among the non-blank
      characters. */
  lemma {:induction false} LettersNotBlank(s: string)
    ensures Letters(s) <= |RemoveChars(s, {' '})|
  {
    if |s| > 0 {
      LettersNotBlank(s[1..]);
    }
  }

  lemma MulLess(a: real, b: real, y: real)
    requires y > 0.0 && a <= b
    ensures a * y <= b * y && (a < b ==> a * y < b * y)
  {
    assert b * y - a * y == (b - a) * y;
  }

  /** A share below `c` is a count below `c` times the total. */
  lemma DivBelow(x: real, y: real, c: real)
    requires y > 0.0
    ensures x / y < c <==> x < c * y
  {
    var q := x / y;
    assert q * y == x;
    if q < c {
      MulLess(q, c, y);
    } else {
      MulLess(c, q, y);
    }
  }

  lemma {:induction false} Ratio(l: nat, t: nat)
    requires t > 0
    ensures (l as real) / (t as real) < 0.3 <==> 10 * l < 3 * t
  {
    DivBelow(l as real, t as real, 0.3);
  }

  /** The filter with the share of letters computed by division, as the
      source writes it. */
  lemma {:induction false} NameFilterShare(s: string)
    ensures var t := Strip(s);
      var total := |RemoveChars(t, {' '})|;
      LooksLikeName(s) <==>
        s != "" && |t| >= 2 && HasLetter(t) && !(total > 0 && (Letters(t) as real) / (total as real) < 0.3)
  {
    var t := Strip(s);
    var total := |RemoveChars(t, {' '})|;
    if total > 0 {
      Ratio(Letters(t), total);
    }
  }

  /** The name filter in counts: a name has at least two characters once
      stripped, a letter, and at least three letters in every ten
      non-blank characters. Once a letter is present the non-blank count is
      positive, so the guard on that count never fails there. */
  lemma {:induction false} LooksLikeNameIff(s: string)
    ensures var t := Strip(s);
      LooksLikeName(s) <==>
        |t| >= 2 && Letters(t) > 0 && 10 * Letters(t) >= 3 * |RemoveChars(t, {' '})|
  {
    var t := Strip(s);
    LettersPositive(t);
    LettersNotBlank(t);
  }

  lemma {:induction false} AllLetters(s: string)
    requires forall i :: 0 <= i < |s| ==> IsAlpha(s[i])
    ensures Letters(s) == |s|
  {
    if |s| > 0 {
      AllLetters(s[1..]);
    }
  }

  /** A word of two or more letters is always taken for a name. */
  lemma {:induction false} LetterWordIsName(s: string)
    requires |s| >= 2 && forall i :: 0 <= i < |s| ==> IsAlpha(s[i])
    ensures LooksLikeName(s)
  {
    StripKeeps(s);
    RemoveCharsKeeps(s, {' '});
    AllLetters(s);
    LooksLikeNameIff(s);
  }

  // ---------------------------------------------------------------------
  // Properties of numbers

  /** The characters `lstrip(chars)` drops all come from `chars`. */
  lemma {:induction false} StripLeftCharsDropped(s: string, cs: set<char>)
    ensures forall i :: 0 <= i < |s| - |StripLeftChars(s, cs)| ==> s[i] in cs
    decreases |s|
  {
    if |s| > 0 && s[0] in cs {
      StripLeftCharsDropped(s[1..], cs);
      forall i | 1 <= i < |s| - |StripLeftChars(s, cs)|
        ensures s[i] in cs
      {
        assert s[i] == s[1..][i - 1];
      }
    }
  }

  /** A digit survives `lstrip(chars)` when no digit is in `chars`. */
  lemma {:induction false} DigitSurvives(s: string, cs: set<char>, i: nat)
    requires forall c :: c in cs ==> !IsDigit(c)
    requires i < |s| && IsDigit(s[i])
    ensures HasDigit(StripLeftChars(s, cs))
  {
    var r := StripLeftChars(s, cs);
    var k := |s| - |r|;
    StripLeftCharsDropped(s, cs);
    assert i >= k;
    assert r[i - k] == s[i];
  }

  lemma {:induction false} StripLeftCharsDigits(s: string, cs: set<char>)
    requires forall c :: c in cs ==> !IsDigit(c)
    ensures HasDigit(StripLeftChars(s, cs)) <==> HasDigit(s)
  {
    if HasDigit(s) {
      var i :| 0 <= i < |s| && IsDigit(s[i]);
      DigitSurvives(s, cs, i);
    }
    if HasDigit(StripLeftChars(s, cs)) {
      DigitKept(s, cs);
    }
  }

  /** A digit left after `lstrip(chars)` was in the string. */
  lemma DigitKept(s: string, cs: set<char>)
    requires HasDigit(StripLeftChars(s, cs))
    ensures HasDigit(s)
  {
    var r := StripLeftChars(s, cs);
    var i :| 0 <= i < |r| && IsDigit(r[i]);
    assert s[|s| - |r| + i] == r[i];
  }

  /** Stripping blanks and leading markers keeps exactly the digits there
      were. */
  lemma {:induction false} TrimDigits(c: string, cs: set<char>)
    requires forall ch :: ch in cs ==> !IsDigit(ch)
    ensures HasDigit(Strip(StripLeftChars(c, cs))) <==> HasDigit(c)
  {
    StripLeftCharsDigits(c, cs);
    StripDigits(StripLeftChars(c, cs));
  }

  /** Cleaning keeps exactly the digits there were. */
  lemma {:induction false} NumberTextDigits(s: string)
    ensures HasDigit(NumberText(s)) <==> HasDigit(s)
  {
    var a := Strip(s);
    var b := CleanText(a);
    StripDigits(s);
    CleanDigits(a);
    TrimDigits(b, {'<', '>'});
    assert NumberText(s) == Strip(StripLeftChars(b, {'<', '>'}));
  }

  /** Trimming keeps a property every character has. */
  lemma {:induction false} TrimKeeps(c: string, cs: set<char>, p: char -> bool)
    requires forall i :: 0 <= i < |c| ==> p(c[i])
    ensures forall i :: 0 <= i < |Strip(StripLeftChars(c, cs))| ==> p(Strip(StripLeftChars(c, cs))[i])
  {
    var l := StripLeftChars(c, cs);
    assert forall i :: 0 <= i < |l| ==> p(l[i]) by {
      forall i | 0 <= i < |l|
        ensures p(l[i])
      {
        assert l[i] == c[|c| - |l| + i];
      }
    }
    StripInside(l, p);
  }

  lemma {:induction false} CleanNoComma(t: string)
    ensures forall i :: 0 <= i < |CleanText(t)| ==> CleanText(t)[i] != ','
  {
  }

  /** No comma survives cleaning. */
  lemma {:induction false} NumberTextNoComma(s: string)
    ensures forall i :: 0 <= i < |NumberText(s)| ==> NumberText(s)[i] != ','
  {
    CleanNoComma(Strip(s));
    TrimKeeps(CleanText(Strip(s)), {'<', '>'}, ch => ch != ',');
  }

  lemma {:induction false} UnsignedHasDigit(s: string)
    requires ParseUnsigned(s).Some?
    ensures HasDigit(s)
  {
    var i := Find(s, '.');
    if i > 0 {
      assert IsDigit(s[..i][0]);
    } else {
      assert s[i + 1..][0] == s[1];
    }
  }

  /** Whatever `float` accepts holds a digit. */
  lemma {:induction false} ParsedHasDigit(s: string)
    requires ParseFloat(s).Some?
    ensures HasDigit(s)
  {
    var t := Strip(s);
    if |t| > 0 && (t[0] == '-' || t[0] == '+') {
      UnsignedHasDigit(t[1..]);
      var i :| 0 <= i < |t| - 1 && IsDigit(t[1..][i]);
      assert IsDigit(t[i + 1]);
    } else {
      UnsignedHasDigit(t);
    }
    StripDigits(s);
  }

  /** `normalize_number` reads a number from a string exactly when the
      string holds a digit. */
  lemma {:induction false} ReadNumberIff(t: string)
    ensures ReadNumber(t).Some? <==> HasDigit(t)
  {
    FirstNumberIff(t, false);
    if ParseFloat(t).Some? {
      ParsedHasDigit(t);
    }
  }

  lemma {:induction false} NormalizeNumberIff(s: string)
    ensures NormalizeNumber(Some(s)).Some? <==> HasDigit(s)
  {
    StripDigits(s);
    if Strip(s) != "" {
      NumberTextDigits(s);
      ReadNumberIff(NumberText(s));
    }
  }

  /** Only None and blank text give None without looking further. */
  lemma NormalizeNumberMissing()
    ensures NormalizeNumber(None) == None && NormalizeNumber(Some("")) == None
  {
  }

  lemma {:induction false} FindPoint(a: string, b: string)
    requires AllDigits(a)
    ensures Find(a + "." + b, '.') == |a|
  {
    var c := a + "." + b;
    var n := Find(c, '.');
    if n < |a| { Pick(a, '.', b, n); }
    Pick(a, '.', b, |a|);
  }

  lemma {:induction false} PointFloat(a: string, b: string)
    requires |a| > 0 && |b| > 0 && AllDigits(a) && AllDigits(b)
    ensures ParseFloat(a + "." + b) == Some(Decimal(a, b))
  {
    var c := a + "." + b;
    Pick(a, '.', b, 0);
    Pick(a, '.', b, |c| - 1);
    StripKeeps(c);
    FindPoint(a, b);
    assert c[..|a|] == a && c[|a| + 1..] == b;
  }

  /** Text without blanks at its ends and without a leading marker is left
      as it is. */
  lemma {:induction false} TrimNothing(c: string, cs: set<char>)
    requires |c| > 0 && c[0] !in cs && !IsSpace(c[0]) && !IsSpace(c[|c| - 1])
    ensures Strip(StripLeftChars(c, cs)) == c
  {
    assert StripLeftChars(c, cs) == c;
    StripKeeps(c);
  }

  /** A decimal comma reads as a decimal point: "a,b" gives a.b. */
  lemma {:induction false} CommaDecimal(a: string, b: string)
    requires |a| > 0 && |b| > 0 && AllDigits(a) && AllDigits(b)
    ensures NormalizeNumber(Some(a + "," + b)) == Some(Decimal(a, b))
  {
    CommaText(a, b);
    PointFloat(a, b);
    FloatRead(a + "," + b);
  }

  /** "a,b" cleans to "a.b". */
  lemma CommaText(a: string, b: string)
    requires |a| > 0 && |b| > 0 && AllDigits(a) && AllDigits(b)
    ensures Strip(a + "," + b) != "" && NumberText(a + "," + b) == a + "." + b
  {
    var s := a + "," + b;
    var c := a + "." + b;
    CommaStrip(a, b);
    assert CleanText(Strip(s)) == c by { CommaCleaned(a, b); }
    Pick(a, '.', b, 0);
    Pick(a, '.', b, |c| - 1);
    TrimNothing(c, {'<', '>'});
  }

  /** "a,b" has no blanks to strip. */
  lemma CommaStrip(a: string, b: string)
    requires |a| > 0 && |b| > 0 && AllDigits(a) && AllDigits(b)
    ensures Strip(a + "," + b) == a + "," + b != ""
  {
    var s := a + "," + b;
    Pick(a, ',', b, 0);
    Pick(a, ',', b, |s| - 1);
    StripKeeps(s);
  }

  /** When `float` reads the cleaned text, that is the number. */
  lemma FloatRead(s: string)
    requires Strip(s) != "" && ParseFloat(NumberText(s)).Some?
    ensures NormalizeNumber(Some(s)) == ParseFloat(NumberText(s))
  {
  }

  // ---------------------------------------------------------------------
  // Properties of the alias lookup

  lemma PutKeeps(d: Dict<string>, k: string, v: string, k2: string)
    requires HasKey(d, k2)
    ensures HasKey(Put(d, k, v), k2)
  {
    var i :| 0 <= i < |d| && d[i].0 == k2;
    var r := Put(d, k, v);
    var j := IndexOf(d, k);
    if j < 0 {
      assert r[i] == d[i];
    } else if i != j {
      assert r[i] == d[i];
    } else {
      assert r[j].0 == k2;
    }
  }

  predicate ValuesIn(d: Dict<string>, names: seq<string>) {
    forall i :: 0 <= i < |d| ==> d[i].1 in names
  }

  lemma {:induction false} AddAliasesValues(d: Dict<string>, aliases: seq<string>, canon: string, names: seq<string>)
    requires ValuesIn(d, names) && canon in names
    ensures ValuesIn(AddAliases(d, aliases, canon), names)
    decreases |aliases|
  {
    if |aliases| > 0 {
      var e := AddAliases(d, aliases[..|aliases| - 1], canon);
      AddAliasesValues(d, aliases[..|aliases| - 1], canon, names);
      PutEntries(e, Lower(aliases[|aliases| - 1]), canon);
    }
  }

  lemma {:induction false} AddAliasesKeeps(d: Dict<string>, aliases: seq<string>, canon: string, k: string)
    requires HasKey(d, k)
    ensures HasKey(AddAliases(d, aliases, canon), k)
    decreases |aliases|
  {
    if |aliases| > 0 {
      AddAliasesKeeps(d, aliases[..|aliases| - 1], canon, k);
      PutKeeps(AddAliases(d, aliases[..|aliases| - 1], canon), Lower(aliases[|aliases| - 1]), canon, k);
    }
  }

  /** Every value of the lookup is a canonical name of the map. */
  lemma {:induction false} LookupValues(pm: Dict<MapInfo>)
    ensures ValuesIn(BuildLookup(pm), Keys(pm))
    decreases |pm|
  {
    if |pm| > 0 {
      var init := pm[..|pm| - 1];
      var last := pm[|pm| - 1];
      LookupValues(init);
      assert forall i :: 0 <= i < |init| ==> Keys(init)[i] == Keys(pm)[i];
      assert ValuesIn(BuildLookup(init), Keys(pm));
      assert Keys(pm)[|pm| - 1] == last.0;
      var e := AddAliases(BuildLookup(init), AliasesOf(last.1), last.0);
      AddAliasesValues(BuildLookup(init), AliasesOf(last.1), last.0, Keys(pm));
      PutEntries(e, Lower(last.0), last.0);
    }
  }

  /** Every canonical name, lower-cased, is a key of the lookup. */
  lemma {:induction false} LookupHasCanonical(pm: Dict<MapInfo>, i: nat)
    requires i < |pm|
    ensures HasKey(BuildLookup(pm), Lower(pm[i].0))
    decreases |pm|
  {
    var init := pm[..|pm| - 1];
    var last := pm[|pm| - 1];
    var e := AddAliases(BuildLookup(init), AliasesOf(last.1), last.0);
    if i == |pm| - 1 {
      PutGet(e, Lower(last.0), last.0);
    } else {
      LookupHasCanonical(init, i);
      assert init[i] == pm[i];
      AddAliasesKeeps(BuildLookup(init), AliasesOf(last.1), last.0, Lower(pm[i].0));
      PutKeeps(e, Lower(last.0), last.0, Lower(pm[i].0));
    }
  }

  // ---------------------------------------------------------------------
  // Properties of the matcher

  /** The hit and its score: the key is in the lookup; score 1.0 exactly
      for the whole name, 0.9 for a long word of it, 0.6 for a key of
      three or more characters inside it; no hit scores 0.0, and then no
      word is a key and no key fits. */
  lemma MatchKeyCases(clean: string, lookup: Dict<string>)
    ensures var r := MatchKey(clean, lookup);
      (r.0.Some? ==> HasKey(lookup, r.0.value)) &&
      (r.1 == 1.0 <==> HasKey(lookup, clean)) &&
      (r.1 == 1.0 ==> r.0 == Some(clean)) &&
      (r.1 == 0.9 ==> r.0.value in Words(clean) && |r.0.value| > 1) &&
      (r.1 == 0.6 ==> Fits(r.0.value, clean)) &&
      (r.0.None? <==> r.1 == 0.0) &&
      (r.1 == 1.0 || r.1 == 0.9 || r.1 == 0.6 || r.1 == 0.0)
  {
    var r := MatchKey(clean, lookup);
    if !HasKey(lookup, clean) {
      var tokens := LongTokens(Words(clean));
      var f := FirstKnown(tokens, lookup);
      if f.None? {
        var g := FirstFitting(Keys(lookup), clean);
        if g.Some? {
          assert r.0 == Some(lookup[g.value].0);
          assert HasKey(lookup, lookup[g.value].0);
        }
      }
    }
  }

  /** The 0.9 hit is the earliest word of the name, longer than one
      character, that is a key; it happens exactly when the whole name is
      not a key and some such word is. */
  lemma MatchKeyFirstWord(clean: string, lookup: Dict<string>)
    ensures MatchKey(clean, lookup).1 == 0.9 <==>
      !HasKey(lookup, clean) && FirstLongKeyAt(Words(clean), lookup).Some?
    ensures MatchKey(clean, lookup).1 == 0.9 ==>
      MatchKey(clean, lookup).0 == Some(Words(clean)[FirstLongKeyAt(Words(clean), lookup).value])
  {
    LongTokensFirst(Words(clean), lookup);
  }

  /** When nothing is hit, neither the name nor any of its long words is a
      key and no key of three or more characters lies inside it. */
  lemma NoMatch(clean: string, lookup: Dict<string>)
    requires MatchKey(clean, lookup).0.None?
    ensures !HasKey(lookup, clean)
    ensures forall w :: w in Words(clean) && |w| > 1 ==> !HasKey(lookup, w)
    ensures forall j :: 0 <= j < |lookup| ==> !Fits(lookup[j].0, clean)
  {
    var words := Words(clean);
    var tokens := LongTokens(words);
    assert !HasKey(lookup, clean);
    assert FirstKnown(tokens, lookup).None?;
    UnknownWords(words, tokens, lookup);
    assert FirstFitting(Keys(lookup), clean).None?;
    NoKeyFits(lookup, clean);
  }

  /** Every long word is a token, and no token is a key. */
  lemma UnknownWords(words: seq<string>, tokens: seq<string>, lookup: Dict<string>)
    requires forall w :: w in words && |w| > 1 ==> w in tokens
    requires forall i :: 0 <= i < |tokens| ==> !HasKey(lookup, tokens[i])
    ensures forall w :: w in words && |w| > 1 ==> !HasKey(lookup, w)
  {
    forall w | w in words && |w| > 1
      ensures !HasKey(lookup, w)
    {
      var i :| 0 <= i < |tokens| && tokens[i] == w;
    }
  }

  lemma NoKeyFits(lookup: Dict<string>, clean: string)
    requires FirstFitting(Keys(lookup), clean).None?
    ensures forall j :: 0 <= j < |lookup| ==> !Fits(lookup[j].0, clean)
  {
    assert forall j :: 0 <= j < |lookup| ==> Keys(lookup)[j] == lookup[j].0;
  }

  /** The score of `fuzzy_canonical` lies in [0, 1] and is 0.0 exactly when
      there is no canonical name; a name is found with score at least 0.6. */
  lemma FuzzyScore(name: string, lookup: Dict<string>)
    ensures var r := FuzzyCanonical(name, lookup);
      0.0 <= r.1 <= 1.0 && (r.0.None? <==> r.1 == 0.0) && (r.0.Some? ==> r.1 >= 0.6)
  {
    if name != "" && Clean(name) != "" {
      MatchKeyCases(Clean(name), lookup);
    }
  }

  /** A cleaned name that is a key is found with score 1.0. */
  lemma FuzzyExact(name: string, lookup: Dict<string>)
    requires Clean(name) != "" && HasKey(lookup, Clean(name))
    ensures FuzzyCanonical(name, lookup) == (Get(lookup, Clean(name)), 1.0)
  {
  }

  /** Against the map's lookup, a found canonical name is one of the map's
      canonical names. */
  lemma FuzzyFromMap(name: string, pm: Dict<MapInfo>)
    ensures var r := FuzzyCanonical(name, BuildLookup(pm));
      r.0.Some? ==> r.0.value in Keys(pm)
  {
    var lookup := BuildLookup(pm);
    LookupValues(pm);
    if name != "" && Clean(name) != "" {
      MatchKeyCases(Clean(name), lookup);
    }
  }

  // ---------------------------------------------------------------------
  // Candidates

  /** Which strategy produced a candidate ("regex", "line_firstnum",
      "special_line_start", "line_token"). */
  datatype Source = Regex | LineFirstNum | SpecialLineStart | LineToken

  datatype Candidate = Candidate(
    rawName: string, rawValue: Option<string>, value: Option<real>, unit: Option<string>,
    canonical: Option<string>, confidence: real, source: Source)

  /** The text functions the scanners call: `str.strip()`,
      `str.strip(chars)`, the name filter, the number reader and the alias
      matcher. The scanners are written over them; `ModuleReaders` gives
      the module's own. */
  datatype Readers = Readers(
    strip: string -> string, stripChars: (string, set<char>) -> string, isName: string -> bool,
    read: Option<string> -> Option<real>, fuzzy: string -> (Option<string>, real))

  function ModuleReaders(lookup: Dict<string>): Readers {
    Readers(Strip, StripChars, LooksLikeName, NormalizeNumber, name => FuzzyCanonical(name, lookup))
  }

  /** The matcher's scores lie in [0, 1], and a found name scores at least
      0.6. */
  ghost predicate Scored(rd: Readers) {
    forall n :: 0.0 <= rd.fuzzy(n).1 <= 1.0 && (rd.fuzzy(n).0.Some? ==> rd.fuzzy(n).1 >= 0.6)
  }

  lemma ModuleScored(lookup: Dict<string>)
    ensures Scored(ModuleReaders(lookup))
  {
    forall n: string
      ensures 0.0 <= FuzzyCanonical(n, lookup).1 <= 1.0
      ensures FuzzyCanonical(n, lookup).0.Some? ==> FuzzyCanonical(n, lookup).1 >= 0.6
    {
      FuzzyScore(n, lookup);
    }
  }

  /** The three groups of one name/value/unit match; the unit group may be
      missing. */
  datatype Groups = Groups(name: string, value: string, unit: Option<string>)

  /** `m.group(3) if m.group(3) else None` */
  function UnitOf(u: Option<string>): Option<string> {
    if u.Some? && u.value != "" then u else None
  }

  /** A canonical name Python treats as true: present and non-empty. */
  predicate Named(canon: Option<string>) {
    canon.Some? && canon.value != ""
  }

  /** The candidate `extract_params_from_text` records for one match. */
  function RegexCandidate(m: Groups, rd: Readers): Candidate {
    var name := rd.strip(m.name);
    var raw := rd.strip(m.value);
    var f := rd.fuzzy(name);
    Candidate(name, Some(raw), rd.read(Some(raw)), UnitOf(m.unit), f.0, f.1, Regex)
  }

  /** A match is kept when its stripped name passes the name filter. */
  predicate KeptMatch(m: Groups, rd: Readers) {
    rd.isName(rd.strip(m.name))
  }

  function RegexCandidates(matches: seq<Groups>, rd: Readers): seq<Candidate>
    decreases |matches|
  {
    if |matches| == 0 then []
    else
      var m := matches[|matches| - 1];
      RegexCandidates(matches[..|matches| - 1], rd) + (if KeptMatch(m, rd) then [RegexCandidate(m, rd)] else [])
  }

  /** `extract_params_from_text(text)`, given the matches of the candidate
      pattern in `text`, in order. */
  method ExtractParamsFromText(text: string, matches: seq<Groups>, rd: Readers) returns (out: seq<Candidate>)
    ensures out == if text == "" then [] else RegexCandidates(matches, rd)
  {
    out := [];
    if text == "" {
      return;
    }
    var i := 0;
    while i < |matches|
      invariant 0 <= i <= |matches|
      invariant out == RegexCandidates(matches[..i], rd)
    {
      assert matches[..i + 1][..i] == matches[..i];
      var m := matches[i];
      if KeptMatch(m, rd) {
        out := out + [RegexCandidate(m, rd)];
      }
      i := i + 1;
    }
    assert matches[..i] == matches;
  }

  /** One line of the text, with what the line's patterns find in it: the
      first number in the stripped line (its offset and its text), the
      groups of the line-start pattern, and every number in the line. */
  datatype Line = Line(text: string, firstNumber: Option<(nat, string)>, lineStart: Option<Groups>, numbers: seq<string>)

  /** Python's `s[:k]`. */
  function Prefix(s: string, k: nat): string {
    if k <= |s| then s[..k] else s
  }

  /** The name part of step A0: the stripped line up to the first number,
      with ':', '-', blanks and tabs trimmed from both ends. */
  function NamePart(stripped: string, pos: nat, rd: Readers): string {
    rd.stripChars(Prefix(stripped, pos), {':', '-', ' ', '\t'})
  }

  /** Step A0: the text before the first number names it; the score gets
      0.05 more, capped at 1. */
  function FirstNumberCandidate(stripped: string, first: Option<(nat, string)>, rd: Readers): seq<Candidate> {
    match first
    case None => []
    case Some((pos, text)) =>
      var raw := rd.strip(text);
      var name := NamePart(stripped, pos, rd);
      if !rd.isName(name) then []
      else
        var value := rd.read(Some(raw));
        var f := rd.fuzzy(name);
        if Named(f.0) && value.Some? then
          [Candidate(name, Some(raw), value, None, f.0, Min(1.0, f.1 + 0.05), LineFirstNum)]
        else []
  }

  /** Step A: the line-start pattern. */
  function LineStartCandidate(start: Option<Groups>, rd: Readers): seq<Candidate> {
    match start
    case None => []
    case Some(m) =>
      var name := rd.strip(m.name);
      var raw := rd.strip(m.value);
      if !rd.isName(name) then []
      else
        var value := rd.read(Some(raw));
        var f := rd.fuzzy(name);
        if Named(f.0) && value.Some? then
          [Candidate(name, Some(raw), value, UnitOf(m.unit), f.0, f.1, SpecialLineStart)]
        else []
  }

  /** Step B for one field of the line: `raw` is the line's first number
      and `value` its reading. */
  function TokenCandidate(token: string, raw: Option<string>, value: Option<real>, rd: Readers): seq<Candidate> {
    var name := rd.strip(token);
    if !rd.isName(name) then []
    else
      var f := rd.fuzzy(name);
      if Named(f.0) && value.Some? then [Candidate(name, raw, value, None, f.0, f.1, LineToken)] else []
  }

  function TokenCandidates(tokens: seq<string>, raw: Option<string>, value: Option<real>, rd: Readers): seq<Candidate>
    decreases |tokens|
  {
    if |tokens| == 0 then []
    else TokenCandidates(tokens[..|tokens| - 1], raw, value, rd) + TokenCandidate(tokens[|tokens| - 1], raw, value, rd)
  }

  /** `re.split(r'[\t,;|:]', s)`: the pieces between separators. */
  function SplitAny(s: string, seps: set<char>): (r: seq<string>)
    ensures |r| >= 1
    decreases |s|
  {
    if |s| == 0 then [""]
    else
      var rest := SplitAny(s[1..], seps);
      if s[0] in seps then [""] + rest else [[s[0]] + rest[0]] + rest[1..]
  }

  const FieldSeparators: set<char> := {'\t', ',', ';', '|', ':'}

  /** Step B runs only on lines with both a letter and a digit. */
  predicate LabLike(stripped: string) {
    HasLetter(stripped) && HasDigit(stripped)
  }

  /** The candidates of steps A0 and A for a non-blank line. */
  function HeadCandidates(line: Line, rd: Readers): seq<Candidate> {
    FirstNumberCandidate(rd.strip(line.text), line.firstNumber, rd) + LineStartCandidate(line.lineStart, rd)
  }

  /** The candidates of step B: every field against the line's first
      number. */
  function FieldCandidates(line: Line, rd: Readers): seq<Candidate> {
    var raw := if |line.numbers| > 0 then Some(line.numbers[0]) else None;
    var value := if |line.numbers| > 0 then rd.read(raw) else None;
    TokenCandidates(SplitAny(line.text, FieldSeparators), raw, value, rd)
  }

  /** All candidates of one line; blank lines give none. */
  function LineCandidates(line: Line, rd: Readers): seq<Candidate> {
    if rd.strip(line.text) == "" then []
    else HeadCandidates(line, rd) + (if LabLike(rd.strip(line.text)) then FieldCandidates(line, rd) else [])
  }

  function ScanCandidates(lines: seq<Line>, rd: Readers): seq<Candidate>
    decreases |lines|
  {
    if |lines| == 0 then []
    else ScanCandidates(lines[..|lines| - 1], rd) + LineCandidates(lines[|lines| - 1], rd)
  }

  lemma ScanSnoc(lines: seq<Line>, i: nat, rd: Readers)
    requires i < |lines|
    ensures ScanCandidates(lines[..i + 1], rd) == ScanCandidates(lines[..i], rd) + LineCandidates(lines[i], rd)
  {
    assert lines[..i + 1][..i] == lines[..i];
  }

  lemma TokensSnoc(tokens: seq<string>, j: nat, raw: Option<string>, value: Option<real>, rd: Readers)
    requires j < |tokens|
    ensures TokenCandidates(tokens[..j + 1], raw, value, rd) ==
      TokenCandidates(tokens[..j], raw, value, rd) + TokenCandidate(tokens[j], raw, value, rd)
  {
    assert tokens[..j + 1][..j] == tokens[..j];
  }

  /** What one line contributes, step by step. */
  lemma LineSteps(line: Line, rd: Readers)
    ensures LineCandidates(line, rd) ==
      if rd.strip(line.text) == "" then []
      else if LabLike(rd.strip(line.text)) then HeadCandidates(line, rd) + FieldCandidates(line, rd)
      else HeadCandidates(line, rd)
  {
    assert HeadCandidates(line, rd) + [] == HeadCandidates(line, rd);
  }

  lemma Assoc<T>(a: seq<T>, b: seq<T>, c: seq<T>)
    ensures a + b + c == a + (b + c)
  {
  }

  /** Step B of `fallback_line_scan`'s loop: every field of the line
      against its first number. */
  method ScanFields(line: Line, rd: Readers) returns (out: seq<Candidate>)
    ensures out == FieldCandidates(line, rd)
  {
    var raw := if |line.numbers| > 0 then Some(line.numbers[0]) else None;
    var value := if |line.numbers| > 0 then rd.read(raw) else None;
    var tokens := SplitAny(line.text, FieldSeparators);
    out := [];
    var j := 0;
    while j < |tokens|
      invariant 0 <= j <= |tokens|
      invariant out == TokenCandidates(tokens[..j], raw, value, rd)
    {
      TokensSnoc(tokens, j, raw, value, rd);
      out := out + TokenCandidate(tokens[j], raw, value, rd);
      j := j + 1;
    }
    assert tokens[..j] == tokens;
  }

  /** The body of `fallback_line_scan`'s loop for one line. */
  method ScanLine(line: Line, rd: Readers) returns (out: seq<Candidate>)
    ensures out == LineCandidates(line, rd)
  {
    LineSteps(line, rd);
    out := [];
    var stripped := rd.strip(line.text);
    if stripped == "" {
      return;
    }
    out := HeadCandidates(line, rd);
    if LabLike(stripped) {
      var fields := ScanFields(line, rd);
      out := out + fields;
    }
  }

  /** `fallback_line_scan(text)`, given the lines of `text` with their
      pattern matches. */
  method FallbackLineScan(text: string, lines: seq<Line>, rd: Readers) returns (out: seq<Candidate>)
    ensures out == if text == "" then [] else ScanCandidates(lines, rd)
  {
    out := [];
    if text == "" {
      return;
    }
    var i := 0;
    while i < |lines|
      invariant 0 <= i <= |lines|
      invariant out == ScanCandidates(lines[..i], rd)
    {
      ScanSnoc(lines, i, rd);
      var found := ScanLine(lines[i], rd);
      out := out + found;
      i := i + 1;
    }
    assert lines[..i] == lines;
  }

  // ---------------------------------------------------------------------
  // Properties of the scanners

  /** Every regex candidate has a name that passes the filter, comes from
      a kept match and is tagged "regex"; every kept match yields one. */
  lemma {:induction false} RegexCandidatesKept(matches: seq<Groups>, rd: Readers)
    requires Scored(rd)
    ensures forall c :: c in RegexCandidates(matches, rd) ==>
      rd.isName(c.rawName) && c.source == Regex && 0.0 <= c.confidence <= 1.0
    ensures forall i :: 0 <= i < |matches| && KeptMatch(matches[i], rd) ==>
      RegexCandidate(matches[i], rd) in RegexCandidates(matches, rd)
    ensures |RegexCandidates(matches, rd)| <= |matches|
    decreases |matches|
  {
    if |matches| > 0 {
      var init := matches[..|matches| - 1];
      RegexCandidatesKept(init, rd);
      assert forall i :: 0 <= i < |init| ==> init[i] == matches[i];
    }
  }

  /** With the module's readers: regex candidates carry names that pass
      `_looks_like_name`. */
  lemma RegexNamesPass(matches: seq<Groups>, lookup: Dict<string>)
    ensures forall c :: c in RegexCandidates(matches, ModuleReaders(lookup)) ==>
      LooksLikeName(c.rawName) && 0.0 <= c.confidence <= 1.0
  {
    ModuleScored(lookup);
    RegexCandidatesKept(matches, ModuleReaders(lookup));
  }

  /** A candidate every fallback step records: a non-empty canonical name,
      a value, and a score in [0.6, 1]. */
  predicate Usable(c: Candidate) {
    Named(c.canonical) && c.value.Some? && 0.6 <= c.confidence <= 1.0
  }

  lemma {:induction false} HeadUsable(line: Line, rd: Readers)
    requires Scored(rd)
    ensures forall c :: c in HeadCandidates(line, rd) ==> Usable(c)
    ensures forall c :: c in HeadCandidates(line, rd) && c.source == LineFirstNum ==> c.confidence >= 0.65
  {
  }

  lemma {:induction false} TokensUsable(tokens: seq<string>, raw: Option<string>, value: Option<real>, rd: Readers)
    requires Scored(rd)
    ensures forall c :: c in TokenCandidates(tokens, raw, value, rd) ==> Usable(c) && c.source == LineToken
    decreases |tokens|
  {
    if |tokens| > 0 {
      TokensUsable(tokens[..|tokens| - 1], raw, value, rd);
    }
  }

  /** The fallback scan records only candidates with a canonical name and a
      value, scored between 0.6 and 1; a first-number candidate, boosted by
      0.05, scores at least 0.65. */
  lemma {:induction false} ScanUsable(lines: seq<Line>, rd: Readers)
    requires Scored(rd)
    ensures forall c :: c in ScanCandidates(lines, rd) ==> Usable(c)
    ensures forall c :: c in ScanCandidates(lines, rd) && c.source == LineFirstNum ==> c.confidence >= 0.65
    decreases |lines|
  {
    if |lines| > 0 {
      var line := lines[|lines| - 1];
      ScanUsable(lines[..|lines| - 1], rd);
      HeadUsable(line, rd);
      var raw := if |line.numbers| > 0 then Some(line.numbers[0]) else None;
      var value := if |line.numbers| > 0 then rd.read(raw) else None;
      TokensUsable(SplitAny(line.text, FieldSeparators), raw, value, rd);
    }
  }

  /** With the module's readers. */
  lemma ModuleScanUsable(lines: seq<Line>, lookup: Dict<string>)
    ensures forall c :: c in ScanCandidates(lines, ModuleReaders(lookup)) ==> Usable(c)
  {
    ModuleScored(lookup);
    ScanUsable(lines, ModuleReaders(lookup));
  }

  /** Blank lines give no candidates; lines without both a letter and a
      digit give only those of steps A0 and A. */
  lemma QuietLines(line: Line, rd: Readers)
    ensures rd.strip(line.text) == "" ==> LineCandidates(line, rd) == []
    ensures rd.strip(line.text) != "" && !LabLike(rd.strip(line.text)) ==> LineCandidates(line, rd) == HeadCandidates(line, rd)
  {
    assert HeadCandidates(line, rd) + [] == HeadCandidates(line, rd);
  }
}
