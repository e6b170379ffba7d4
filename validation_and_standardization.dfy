/** The structured-table standardiser (validation_and_standardization.py):
    numeric parsing of raw cells, the unit-conversion table, header-to-
    canonical resolution against the parameter map, and the per-row rules
    that produce the numeric value, the reported unit and the validity flag. */
module UnitStandardization {
  import opened Common
  import opened Numeric

  // ---------------------------------------------------------------------
  // Numeric tokens

  /** The length of the run of digits that opens `s`. */
  function DigitRun(s: string): (n: nat)
    ensures n <= |s| && AllDigits(s[..n])
    ensures n < |s| ==> !IsDigit(s[n])
  {
    if |s| == 0 || !IsDigit(s[0]) then 0
    else
      var n := 1 + DigitRun(s[1..]);
      assert s[..n] == [s[0]] + s[1..][..n - 1];
      n
  }

  /** The length of the run of blanks that opens `s` (a regex `\s*`). */
  function SpaceRun(s: string): (n: nat)
    ensures n <= |s|
    ensures n < |s| ==> !IsSpace(s[n])
  {
    if |s| == 0 || !IsSpace(s[0]) then 0 else 1 + SpaceRun(s[1..])
  }

  /** The value of the numeric token that matches at the very start of `s`,
      if one does. With `marked`, the token is `[<>]?\s*-?\d+([.,]\d+)?`
      (the number pattern of `parse_number`); without it, `-?\d+([.,]\d+)?`
      (the fallback pattern of `standardize_dataframe`). Either way the
      value is what `float` reads once the mark and the blanks are dropped
      and a comma is read as a decimal point. */
  function NumberAt(s: string, marked: bool): Option<real> {
    var a := if marked && |s| > 0 && (s[0] == '<' || s[0] == '>') then 1 else 0;
    var t := s[a..];
    var b := if marked then SpaceRun(t) else 0;
    var u := t[b..];
    var neg := |u| > 0 && u[0] == '-';
    var v := if neg then u[1..] else u;
    var n := DigitRun(v);
    if n == 0 then None
    else
      var w := v[n..];
      var f := if |w| >= 2 && (w[0] == '.' || w[0] == ',') then w[1..] else "";
      var m := DigitRun(f);
      var mag := DigitsValue(v[..n]) as real
        + (if m > 0 then DigitsValue(f[..m]) as real / Pow10(m) else 0.0);
      Some(if neg then -mag else mag)
  }

  /** The leftmost match of the token pattern (`re.search`). */
  function FirstNumber(s: string, marked: bool): Option<real> {
    if |s| == 0 then None
    else if NumberAt(s, marked).Some? then NumberAt(s, marked)
    else FirstNumber(s[1..], marked)
  }

  /** `s.replace(a, b)` for single characters. */
  function ReplaceChar(s: string, a: char, b: char): (r: string)
    ensures |r| == |s|
    ensures forall i :: 0 <= i < |s| ==> r[i] == if s[i] == a then b else s[i]
  {
    seq(|s|, i requires 0 <= i < |s| => if s[i] == a then b else s[i])
  }

  /** The cleaned text `parse_number` searches: spaces removed, commas
      turned into points. */
  function CleanText(t: string): string {
    ReplaceChar(RemoveChars(t, {' '}), ',', '.')
  }

  /** `parse_number` on the text of a value. */
  function ParseText(s: string): Option<real> {
    var t := Strip(s);
    if t == "" then None else FirstNumber(CleanText(t), true)
  }

  /** `parse_number(s)`: None for None, the number itself for a non-bool
      int or float, and otherwise the first numeric token of `str(s)`. */
  function ParseNumber(v: Value): Option<real> {
    match v
    case VNone => None
    case VInt(i) => Some(i as real)
    case VFloat(r) => Some(r)
    case VBool(b) => ParseText(if b then "True" else "False")
    case VStr(s) => ParseText(s)
  }

  // ---------------------------------------------------------------------
  // Unit conversion

  /** One entry of the conversion table: multiplying a value in `observed`
      by `factor` gives it in `standard`. */
  datatype Factor = Factor(observed: string, standard: string, factor: real)

  const ConversionFactors: seq<Factor> := [
    Factor("g/l", "g/dl", 0.1),
    Factor("g/dl", "g/l", 10.0),
    Factor("l/l", "%", 100.0),
    Factor("%", "l/l", 0.01),
    Factor("10^6/ul", "10^12/l", 1000.0),
    Factor("10^12/l", "10^6/ul", 0.001),
    Factor("10^3/ul", "10^9/l", 1.0),
    Factor("10^9/l", "10^3/ul", 1.0),
    Factor("mg/dl", "umol/l", 88.4),
    Factor("umol/l", "mg/dl", 1.0 / 88.4),
    Factor("mg/dl", "mmol/l", 0.01129),
    Factor("mmol/l", "mg/dl", 1.0 / 0.01129)
  ]

  /** `table.get((obs, std))`. */
  function Lookup(table: seq<Factor>, obs: string, std: string): (r: Option<real>)
    ensures r.Some? ==> Factor(obs, std, r.value) in table
    ensures r.None? ==> forall i :: 0 <= i < |table| ==> !(table[i].observed == obs && table[i].standard == std)
  {
    if |table| == 0 then None
    else if table[0].observed == obs && table[0].standard == std then Some(table[0].factor)
    else Lookup(table[1..], obs, std)
  }

  function FactorFor(obs: string, std: string): Option<real> {
    Lookup(ConversionFactors, obs, std)
  }

  /** `_norm_unit(u)`. */
  function NormUnit(u: Option<string>): (r: string)
    ensures u.None? ==> r == ""
    ensures u.Some? ==> |r| <= |u.value| && forall i :: 0 <= i < |r| ==> !IsUpperAscii(r[i])
  {
    if u.None? then "" else Lower(Strip(u.value))
  }

  /** `convert_value` once both units are normalised, over a conversion
      table. */
  function Converted(table: seq<Factor>, x: real, obs: string, std: string): real {
    if obs == "" || std == "" || obs == std then x
    else
      match Lookup(table, obs, std)
      case Some(f) => x * f
      case None => x
  }

  /** `convert_value(value, obs_unit, std_unit)` over a conversion table. */
  function ConvertWith(table: seq<Factor>, value: Option<real>, obsUnit: Option<string>, stdUnit: Option<string>): (r: Option<real>)
    ensures r.Some? <==> value.Some?
    ensures value.Some? && (NormUnit(obsUnit) == "" || NormUnit(stdUnit) == "" || NormUnit(obsUnit) == NormUnit(stdUnit)) ==>
      r == value
    ensures value.Some? && Lookup(table, NormUnit(obsUnit), NormUnit(stdUnit)).None? ==> r == value
    ensures value.Some? && r != value ==>
      value.value != 0.0 && Factor(NormUnit(obsUnit), NormUnit(stdUnit), r.value / value.value) in table
  {
    if value.None? then None
    else
      var obs := NormUnit(obsUnit);
      var std := NormUnit(stdUnit);
      ConvertedByFactor(table, value.value, obs, std);
      Some(Converted(table, value.value, obs, std))
  }

  /** `convert_value` with the module's table. */
  function ConvertValue(value: Option<real>, obsUnit: Option<string>, stdUnit: Option<string>): Option<real> {
    ConvertWith(ConversionFactors, value, obsUnit, stdUnit)
  }

  /** A changed value was scaled by the table's factor for the pair. */
  lemma ConvertedByFactor(table: seq<Factor>, x: real, obs: string, std: string)
    ensures Converted(table, x, obs, std) != x ==>
      x != 0.0 && Factor(obs, std, Converted(table, x, obs, std) / x) in table
  {
    var y := Converted(table, x, obs, std);
    if y != x {
      var f := Lookup(table, obs, std).value;
      assert y == x * f;
      assert y / x == f;
    }
  }

  // ---------------------------------------------------------------------
  // Properties of the conversion table

  /** No unit pair appears twice, so `Lookup` is the dictionary's `get`. */
  predicate DistinctPairs(table: seq<Factor>) {
    forall i, j :: 0 <= i < j < |table| ==>
      table[i].observed != table[j].observed || table[i].standard != table[j].standard
  }

  /** Every entry converts between two different, non-empty units. */
  predicate ProperPairs(table: seq<Factor>) {
    forall i :: 0 <= i < |table| ==>
      table[i].observed != "" && table[i].standard != "" && table[i].observed != table[i].standard
  }

  /** Entries `2k` and `2k + 1` convert in opposite directions and their
      factors multiply to 1. */
  predicate InversePairs(table: seq<Factor>) {
    |table| % 2 == 0 &&
    forall k :: 0 <= k < |table| / 2 ==>
      table[2 * k + 1].observed == table[2 * k].standard &&
      table[2 * k + 1].standard == table[2 * k].observed &&
      table[2 * k].factor * table[2 * k + 1].factor == 1.0
  }

  lemma {:induction false} LookupFinds(table: seq<Factor>, i: int)
    requires DistinctPairs(table) && 0 <= i < |table|
    ensures Lookup(table, table[i].observed, table[i].standard) == Some(table[i].factor)
  {
    if i > 0 {
      assert table[0].observed != table[i].observed || table[0].standard != table[i].standard;
      assert table[1..][i - 1] == table[i];
      LookupFinds(table[1..], i - 1);
    }
  }

  /** The module's table is well formed: distinct proper pairs, each with
      its inverse next to it. */
  lemma TableWellFormed()
    ensures DistinctPairs(ConversionFactors)
    ensures ProperPairs(ConversionFactors)
    ensures InversePairs(ConversionFactors)
  {
    TableDistinct();
    TableProper();
    TableInverse();
  }

  lemma TableDistinct()
    ensures DistinctPairs(ConversionFactors)
  {
  }

  lemma TableProper()
    ensures ProperPairs(ConversionFactors)
  {
  }

  lemma TableInverse()
    ensures InversePairs(ConversionFactors)
  {
    var t := ConversionFactors;
    forall k | 0 <= k < |t| / 2
      ensures t[2 * k + 1].observed == t[2 * k].standard && t[2 * k + 1].standard == t[2 * k].observed
      ensures t[2 * k].factor * t[2 * k + 1].factor == 1.0
    {
      if k == 4 {
        assert 88.4 * (1.0 / 88.4) == 1.0;
      } else if k == 5 {
        assert 0.01129 * (1.0 / 0.01129) == 1.0;
      }
    }
  }

  /** Converting there and back along a table pair restores the value (over
      the reals), whatever spelling of the units normalises to the pair. */
  lemma RoundTrip(v: real, a: string, b: string, k: int)
    requires 0 <= k < |ConversionFactors|
    requires NormUnit(Some(a)) == ConversionFactors[k].observed
    requires NormUnit(Some(b)) == ConversionFactors[k].standard
    ensures ConvertValue(ConvertValue(Some(v), Some(a), Some(b)), Some(b), Some(a)) == Some(v)
  {
    TableWellFormed();
    RoundTripWith(ConversionFactors, v, a, b, k);
  }

  lemma RoundTripWith(t: seq<Factor>, v: real, a: string, b: string, k: int)
    requires DistinctPairs(t) && ProperPairs(t) && InversePairs(t)
    requires 0 <= k < |t|
    requires NormUnit(Some(a)) == t[k].observed && NormUnit(Some(b)) == t[k].standard
    ensures ConvertWith(t, ConvertWith(t, Some(v), Some(a), Some(b)), Some(b), Some(a)) == Some(v)
  {
    var o, s := t[k].observed, t[k].standard;
    var x := Converted(t, v, o, s);
    assert ConvertWith(t, Some(v), Some(a), Some(b)) == Some(x);
    assert ConvertWith(t, Some(x), Some(b), Some(a)) == Some(Converted(t, x, s, o));
    ConvertedRoundTrip(t, v, k);
  }

  lemma ConvertedRoundTrip(t: seq<Factor>, v: real, k: int)
    requires DistinctPairs(t) && ProperPairs(t) && InversePairs(t)
    requires 0 <= k < |t|
    ensures Converted(t, Converted(t, v, t[k].observed, t[k].standard), t[k].standard, t[k].observed) == v
  {
    var j := k / 2;
    var e, r := t[2 * j], t[2 * j + 1];
    assert r.observed == e.standard && r.standard == e.observed && e.factor * r.factor == 1.0;
    var k2 := if k == 2 * j then 2 * j + 1 else 2 * j;
    LookupFinds(t, k);
    LookupFinds(t, k2);
    var f1, f2 := t[k].factor, t[k2].factor;
    Inverse(v, f1, f2, e.factor, r.factor);
    assert t[k].observed != "" && t[k].standard != "" && t[k].observed != t[k].standard;
    ConvertedBy(t, v, t[k].observed, t[k].standard, f1);
    ConvertedBy(t, v * f1, t[k2].observed, t[k2].standard, f2);
  }

  lemma ConvertedBy(t: seq<Factor>, v: real, o: string, s: string, f: real)
    requires o != "" && s != "" && o != s && Lookup(t, o, s) == Some(f)
    ensures Converted(t, v, o, s) == v * f
  {
  }

  lemma Inverse(v: real, f1: real, f2: real, g1: real, g2: real)
    requires g1 * g2 == 1.0 && ((f1 == g1 && f2 == g2) || (f1 == g2 && f2 == g1))
    ensures v * f1 * f2 == v
  {
    assert f1 * f2 == 1.0;
    assert v * f1 * f2 == v * (f1 * f2);
  }

  /** The 10^6/uL to 10^12/L factor is 1000, although the two units count
      the same number of cells. */
  lemma RedCellFactor()
    ensures FactorFor("10^6/ul", "10^12/l") == Some(1000.0)
    ensures FactorFor("10^12/l", "10^6/ul") == Some(0.001)
  {
    TableWellFormed();
    LookupFinds(ConversionFactors, 4);
    LookupFinds(ConversionFactors, 5);
  }

  // ---------------------------------------------------------------------
  // Properties of number parsing

  /** A token matches wherever a digit stands. */
  lemma DigitStartsNumber(s: string, marked: bool)
    requires |s| > 0 && IsDigit(s[0])
    ensures NumberAt(s, marked).Some?
  {
    assert DigitRun(s) > 0;
  }

  /** A token holds a digit. */
  lemma NumberHasDigit(s: string, marked: bool)
    requires NumberAt(s, marked).Some?
    ensures HasDigit(s)
  {
    var a := if marked && |s| > 0 && (s[0] == '<' || s[0] == '>') then 1 else 0;
    var t := s[a..];
    var b := if marked then SpaceRun(t) else 0;
    var u := t[b..];
    var neg := |u| > 0 && u[0] == '-';
    var c := if neg then 1 else 0;
    var v := u[c..];
    assert DigitRun(v) > 0;
    assert s[a + b + c] == v[0];
  }

  /** The token search succeeds exactly on text holding a digit. */
  lemma {:induction false} FirstNumberIff(s: string, marked: bool)
    ensures FirstNumber(s, marked).Some? <==> HasDigit(s)
  {
    if |s| > 0 {
      FirstNumberIff(s[1..], marked);
      if NumberAt(s, marked).Some? {
        NumberHasDigit(s, marked);
      } else {
        if IsDigit(s[0]) {
          DigitStartsNumber(s, marked);
        }
        if HasDigit(s) {
          var i :| 0 <= i < |s| && IsDigit(s[i]);
          assert s[1..][i - 1] == s[i];
        }
        if HasDigit(s[1..]) {
          var i :| 0 <= i < |s[1..]| && IsDigit(s[1..][i]);
          assert s[i + 1] == s[1..][i];
        }
      }
    }
  }

  /** Stripping blanks keeps every digit. */
  lemma StripDigits(s: string)
    ensures HasDigit(Strip(s)) <==> HasDigit(s)
  {
    StripLeftDigits(s);
    StripRightDigits(StripLeft(s));
  }

  lemma StripLeftDigits(s: string)
    ensures HasDigit(StripLeft(s)) <==> HasDigit(s)
  {
    SpaceDropDigits(s, StripLeft(s));
  }

  /** Dropping a leading run of blanks keeps whether there is a digit. */
  lemma SpaceDropDigits(s: string, l: string)
    requires |l| <= |s| && l == s[|s| - |l|..]
    requires forall i :: 0 <= i < |s| - |l| ==> IsSpace(s[i])
    ensures HasDigit(l) <==> HasDigit(s)
  {
    if HasDigit(s) {
      var i :| 0 <= i < |s| && IsDigit(s[i]);
      DigitKept(s, l, i);
    }
    if HasDigit(l) {
      var k :| 0 <= k < |l| && IsDigit(l[k]);
      assert l[k] == s[|s| - |l| + k];
    }
  }

  lemma DigitKept(s: string, l: string, i: nat)
    requires |l| <= |s| && l == s[|s| - |l|..]
    requires forall j :: 0 <= j < |s| - |l| ==> IsSpace(s[j])
    requires i < |s| && IsDigit(s[i])
    ensures HasDigit(l)
  {
    assert !IsSpace(s[i]);
    var d := |s| - |l|;
    assert l[i - d] == s[i];
  }

  lemma StripRightDigits(s: string)
    ensures HasDigit(StripRight(s)) <==> HasDigit(s)
  {
    var r := StripRight(s);
    if HasDigit(s) {
      var i :| 0 <= i < |s| && IsDigit(s[i]);
      assert !IsSpace(s[i]);
      assert r[i] == s[i];
    }
    if HasDigit(r) {
      var k :| 0 <= k < |r| && IsDigit(r[k]);
      assert r[k] == s[k];
    }
  }

  /** Cleaning keeps every digit. */
  lemma CleanDigits(t: string)
    ensures HasDigit(CleanText(t)) <==> HasDigit(t)
  {
    var r := RemoveChars(t, {' '});
    if HasDigit(t) {
      var i :| 0 <= i < |t| && IsDigit(t[i]);
      assert t[i] in multiset(t);
      assert multiset(r)[t[i]] == multiset(t)[t[i]];
      assert t[i] in r;
      var k :| 0 <= k < |r| && r[k] == t[i];
      assert CleanText(t)[k] == r[k];
    }
    if HasDigit(CleanText(t)) {
      var k :| 0 <= k < |r| && IsDigit(CleanText(t)[k]);
      var c := r[k];
      assert IsDigit(c);
      assert c in multiset(r);
      assert multiset(r)[c] == multiset(t)[c];
      assert c in t;
    }
  }

  /** `parse_number` on text gives a number exactly when the text holds a
      digit; so the `float` fallback inside it is never reached. */
  lemma ParseTextIff(s: string)
    ensures ParseText(s).Some? <==> HasDigit(s)
  {
    StripDigits(s);
    if Strip(s) != "" {
      CleanDigits(Strip(s));
      FirstNumberIff(CleanText(Strip(s)), true);
    }
  }

  /** Booleans are not numbers: `str(True)` holds no digit. */
  lemma BoolsAreNotNumbers(b: bool)
    ensures ParseNumber(VBool(b)) == None
  {
    var s := if b then "True" else "False";
    assert !HasDigit(s) by {
      forall i | 0 <= i < |s|
        ensures !IsDigit(s[i])
      {
      }
    }
    ParseTextIff(s);
  }

  /** A comma between two digit runs is read as a decimal point, so
      "1,234" reads as 1.234 and not as a thousands separator. */
  lemma CommaIsDecimalPoint(a: string, b: string)
    requires |a| > 0 && |b| > 0 && AllDigits(a) && AllDigits(b)
    ensures ParseNumber(VStr(a + "," + b)) == Some(Decimal(a, b))
  {
    var s := a + "," + b;
    assert s[0] == a[0] && s[|s| - 1] == b[|b| - 1];
    StripKeeps(s);
    CommaCleaned(a, b);
    var c := a + "." + b;
    PointNumber(a, b);
    assert FirstNumber(c, true) == NumberAt(c, true);
  }

  /** The value `float` gives "a.b". */
  function Decimal(a: string, b: string): real
    requires AllDigits(a) && AllDigits(b)
  {
    DigitsValue(a) as real + FractionValue(b)
  }

  lemma CommaCleaned(a: string, b: string)
    requires AllDigits(a) && AllDigits(b)
    ensures CleanText(a + "," + b) == a + "." + b
  {
    var s := a + "," + b;
    assert NoBlank: forall i :: 0 <= i < |s| ==> s[i] !in {' '} by {
      forall i | 0 <= i < |s|
        ensures s[i] != ' '
      {
        Pick(a, ',', b, i);
      }
    }
    RemoveCharsKeeps(s, {' '});
    var c := ReplaceChar(s, ',', '.');
    var e := a + "." + b;
    forall i | 0 <= i < |c|
      ensures c[i] == e[i]
    {
      Pick(a, ',', b, i);
      Pick(a, '.', b, i);
    }
    assert c == e;
  }

  /** Where an index of `a + [x] + b` falls. */
  lemma Pick(a: string, x: char, b: string, i: int)
    requires 0 <= i < |a| + 1 + |b|
    ensures (a + [x] + b)[i] == if i < |a| then a[i] else if i == |a| then x else b[i - |a| - 1]
  {
  }

  lemma PointNumber(a: string, b: string)
    requires |a| > 0 && |b| > 0 && AllDigits(a) && AllDigits(b)
    ensures NumberAt(a + "." + b, true) == Some(Decimal(a, b))
  {
    var c := a + "." + b;
    Pick(a, '.', b, 0);
    assert SpaceRun(c) == 0;
    assert c[0..] == c;
    DigitRunStops(a, '.', b);
    assert c[..|a|] == a;
    var w := c[|a|..];
    assert |w| >= 2 && w[0] == '.' by { Pick(a, '.', b, |a|); }
    assert w[1..] == b;
    assert DigitRun(b) == |b|;
    assert b[..|b|] == b;
  }

  /** The digit run of `a + [x] + b` stops at `x` when `a` is all digits
      and `x` is not one. */
  lemma DigitRunStops(a: string, x: char, b: string)
    requires AllDigits(a) && !IsDigit(x)
    ensures DigitRun(a + [x] + b) == |a|
  {
    var n := DigitRun(a + [x] + b);
    if n < |a| { Pick(a, x, b, n); }
    if n > |a| { Pick(a, x, b, |a|); }
  }

  /** "1,234" reads as 1.234. */
  lemma CommaExample()
    ensures ParseNumber(VStr("1" + "," + "234")) == Some(1.234)
  {
    ExampleValue();
    CommaIsDecimalPoint("1", "234");
  }

  lemma ExampleValue()
    ensures AllDigits("1") && AllDigits("234") && Decimal("1", "234") == 1.234
  {
    var b := "234";
    assert b[..2] == "23" && b[..2][..1] == "2";
    assert DigitsValue("2") == 2;
    assert DigitsValue("23") == 23;
    assert DigitsValue(b) == 234;
    assert Pow10(3) == 1000.0;
  }

  // ---------------------------------------------------------------------
  // Header resolution

  /** What the standardiser reads from one entry of the parameter map:
      whether the entry is a dictionary, its aliases (as `str` gives them),
      its "param_id", its "unit" and its range's "units" (None when
      absent). */
  datatype ParamInfo = ParamInfo(
    isDict: bool,
    aliases: seq<string>,
    paramId: Option<string>,
    unit: Option<string>,
    rangeUnits: Option<string>)

  /** `str(x).strip().lower()` */
  function Norm(s: string): string {
    Lower(Strip(s))
  }

  /** `d[norm(a)] = canon` for each alias in turn. */
  function PutAliases(d: Dict<string>, aliases: seq<string>, canon: string): Dict<string>
    decreases |aliases|
  {
    if |aliases| == 0 then d
    else Put(PutAliases(d, aliases[..|aliases| - 1], canon), Norm(aliases[|aliases| - 1]), canon)
  }

  /** The aliases an entry contributes (none unless it is a dictionary). */
  function AliasesOf(info: ParamInfo): seq<string> {
    if info.isDict then info.aliases else []
  }

  /** ALIAS_TO_CANON: each entry's aliases, then its own name, map to the
      entry's key; a later entry overwrites an earlier one. */
  function AliasTable(pm: Dict<ParamInfo>): Dict<string> {
    if |pm| == 0 then []
    else
      var (canon, info) := pm[|pm| - 1];
      Put(PutAliases(AliasTable(pm[..|pm| - 1]), AliasesOf(info), canon), Norm(canon), canon)
  }

  /** CANONICAL_KEYS: each key's lower-case form maps to the key. */
  function CanonicalKeys(pm: Dict<ParamInfo>): Dict<string> {
    if |pm| == 0 then []
    else
      var canon := pm[|pm| - 1].0;
      Put(CanonicalKeys(pm[..|pm| - 1]), Lower(canon), canon)
  }

  /** One more alias, in the order the inner loop adds them. */
  lemma PutAliasesStep(d: Dict<string>, aliases: seq<string>, j: nat, canon: string)
    requires j < |aliases|
    ensures PutAliases(d, aliases[..j + 1], canon)
      == Put(PutAliases(d, aliases[..j], canon), Norm(aliases[j]), canon)
  {
    assert aliases[..j + 1][..j] == aliases[..j];
  }

  /** One more entry, in the order the outer loop visits them. */
  lemma TablesStep(pm: Dict<ParamInfo>, i: nat)
    requires i < |pm|
    ensures AliasTable(pm[..i + 1])
      == Put(PutAliases(AliasTable(pm[..i]), AliasesOf(pm[i].1), pm[i].0), Norm(pm[i].0), pm[i].0)
    ensures CanonicalKeys(pm[..i + 1]) == Put(CanonicalKeys(pm[..i]), Lower(pm[i].0), pm[i].0)
  {
    assert pm[..i + 1][..i] == pm[..i] && pm[..i + 1][i] == pm[i];
  }

  /** The import-time loops that build ALIAS_TO_CANON and CANONICAL_KEYS. */
  method BuildTables(pm: Dict<ParamInfo>) returns (alias: Dict<string>, canonical: Dict<string>)
    ensures alias == AliasTable(pm) && canonical == CanonicalKeys(pm)
  {
    alias, canonical := [], [];
    var i := 0;
    while i < |pm|
      invariant 0 <= i <= |pm|
      invariant alias == AliasTable(pm[..i]) && canonical == CanonicalKeys(pm[..i])
    {
      var canon := pm[i].0;
      TablesStep(pm, i);
      canonical := Put(canonical, Lower(canon), canon);
      var aliases := AliasesOf(pm[i].1);
      var j := 0;
      ghost var start := alias;
      while j < |aliases|
        invariant 0 <= j <= |aliases|
        invariant alias == PutAliases(start, aliases[..j], canon)
      {
        PutAliasesStep(start, aliases, j, canon);
        alias := Put(alias, Norm(aliases[j]), canon);
        j := j + 1;
      }
      assert aliases[..j] == aliases;
      alias := Put(alias, Norm(canon), canon);
      i := i + 1;
    }
    assert pm[..i] == pm;
  }

  /** Whether `kk` may stand for a header whose normal form is `pkey`: it is
      at least three characters long and occurs in `pkey`. */
  predicate Fits(kk: string, pkey: string) {
    |kk| >= 3 && Contains(pkey, kk)
  }

  /** The first key, in table order, that fits the header. */
  function FirstFitting(keys: seq<string>, pkey: string): (r: Option<nat>)
    ensures r.Some? ==> r.value < |keys| && Fits(keys[r.value], pkey)
    ensures r.Some? ==> forall i :: 0 <= i < r.value ==> !Fits(keys[i], pkey)
    ensures r.None? ==> forall i :: 0 <= i < |keys| ==> !Fits(keys[i], pkey)
  {
    if |keys| == 0 then None
    else if Fits(keys[0], pkey) then Some(0)
    else
      var r := FirstFitting(keys[1..], pkey);
      assert forall i :: 1 <= i < |keys| ==> keys[1..][i - 1] == keys[i];
      if r.None? then None else Some(r.value + 1)
  }

  /** The canonical name a header matches, before `canonical or param`. */
  function Match(header: string, alias: Dict<string>, canonical: Dict<string>): Option<string> {
    var pkey := Norm(header);
    if HasKey(alias, pkey) then Get(alias, pkey)
    else if HasKey(canonical, pkey) then Get(canonical, pkey)
    else
      var ks := Keys(canonical);
      match FirstFitting(ks, pkey)
      case Some(i) => Some(canonical[i].1)
      case None => None
  }

  /** The "canonical" column for a header: the matched name, or the header
      itself when nothing (or an empty name) matched. */
  function Resolve(header: string, pm: Dict<ParamInfo>): string {
    match Match(header, AliasTable(pm), CanonicalKeys(pm))
    case Some(c) => if c == "" then header else c
    case None => header
  }

  /** The per-header lookup of `read_structured_csv`, with its scan over the
      canonical keys. */
  method ResolveHeader(header: string, alias: Dict<string>, canonical: Dict<string>) returns (c: string)
    ensures c == (match Match(header, alias, canonical) case Some(m) => if m == "" then header else m case None => header)
  {
    var pkey := Norm(header);
    var found: Option<string> := None;
    if HasKey(alias, pkey) {
      found := Get(alias, pkey);
    } else if HasKey(canonical, pkey) {
      found := Get(canonical, pkey);
    } else {
      var i := 0;
      while i < |canonical|
        invariant 0 <= i <= |canonical|
        invariant forall j :: 0 <= j < i ==> !Fits(canonical[j].0, pkey)
      {
        if Fits(canonical[i].0, pkey) {
          assert FirstFitting(Keys(canonical), pkey) == Some(i);
          found := Some(canonical[i].1);
          break;
        }
        i := i + 1;
      }
    }
    c := if found.Some? && found.value != "" then found.value else header;
  }

  // ---------------------------------------------------------------------
  // Properties of header resolution

  /** Entry `e` of the parameter map writes `key` into ALIAS_TO_CANON. */
  predicate Claims(e: (string, ParamInfo), key: string) {
    key == Norm(e.0) || Names(AliasesOf(e.1), key)
  }

  /** One of `aliases` normalises to `key`. */
  predicate Names(aliases: seq<string>, key: string) {
    exists j :: 0 <= j < |aliases| && Norm(aliases[j]) == key
  }

  lemma {:induction false} PutAliasesEntries(d: Dict<string>, aliases: seq<string>, canon: string)
    ensures forall e :: e in PutAliases(d, aliases, canon) ==> e in d || e.1 == canon
  {
    if |aliases| > 0 {
      var init := aliases[..|aliases| - 1];
      PutAliasesEntries(d, init, canon);
      PutEntries(PutAliases(d, init, canon), Norm(aliases[|aliases| - 1]), canon);
    }
  }

  lemma HasKeyPrefix(pm: Dict<ParamInfo>, n: nat, k: string)
    requires n <= |pm| && HasKey(pm[..n], k)
    ensures HasKey(pm, k)
  {
    var i :| 0 <= i < n && pm[..n][i].0 == k;
    assert pm[i].0 == k;
  }

  /** Every name in ALIAS_TO_CANON is a key of the parameter map. */
  lemma {:induction false} AliasTableNamesKeys(pm: Dict<ParamInfo>)
    ensures forall e :: e in AliasTable(pm) ==> HasKey(pm, e.1)
  {
    if |pm| > 0 {
      var n := |pm| - 1;
      var (canon, info) := pm[n];
      var prev := AliasTable(pm[..n]);
      AliasTableNamesKeys(pm[..n]);
      var d := PutAliases(prev, AliasesOf(info), canon);
      PutAliasesEntries(prev, AliasesOf(info), canon);
      PutEntries(d, Norm(canon), canon);
      assert pm[n].0 == canon;
      forall e | e in AliasTable(pm)
        ensures HasKey(pm, e.1)
      {
        if e in prev {
          HasKeyPrefix(pm, n, e.1);
        }
      }
    }
  }

  /** CANONICAL_KEYS maps each key's lower-case form to that key. */
  lemma {:induction false} CanonicalEntries(pm: Dict<ParamInfo>)
    ensures forall e :: e in CanonicalKeys(pm) ==> e.0 == Lower(e.1) && HasKey(pm, e.1)
  {
    if |pm| > 0 {
      var n := |pm| - 1;
      var canon := pm[n].0;
      var prev := CanonicalKeys(pm[..n]);
      CanonicalEntries(pm[..n]);
      PutEntries(prev, Lower(canon), canon);
      forall e | e in CanonicalKeys(pm)
        ensures e.0 == Lower(e.1) && HasKey(pm, e.1)
      {
        if e in prev {
          HasKeyPrefix(pm, n, e.1);
        }
      }
    }
  }

  /** A header resolves to itself or to a key of the parameter map. */
  lemma ResolveRange(header: string, pm: Dict<ParamInfo>)
    ensures Resolve(header, pm) == header || HasKey(pm, Resolve(header, pm))
  {
    AliasTableNamesKeys(pm);
    CanonicalEntries(pm);
    var alias, canonical := AliasTable(pm), CanonicalKeys(pm);
    var pkey := Norm(header);
    var m := Match(header, alias, canonical);
    if m.Some? {
      if HasKey(alias, pkey) {
        assert (pkey, m.value) in alias;
      } else if HasKey(canonical, pkey) {
        assert (pkey, m.value) in canonical;
      } else {
        var i := FirstFitting(Keys(canonical), pkey).value;
        assert canonical[i] in canonical;
      }
    }
  }

  /** Aliases that name `key` map it to the entry's name. */
  lemma {:induction false} PutAliasesGet(d: Dict<string>, aliases: seq<string>, canon: string, key: string)
    requires Names(aliases, key)
    ensures Get(PutAliases(d, aliases, canon), key) == Some(canon)
  {
    var n := |aliases| - 1;
    var init := aliases[..n];
    var prev := PutAliases(d, init, canon);
    if Norm(aliases[n]) == key {
      PutGet(prev, key, canon);
    } else {
      GetPutOther(prev, Norm(aliases[n]), canon, key);
      var j :| 0 <= j < |aliases| && Norm(aliases[j]) == key;
      if j == n {
        assert false;
      }
      assert init[j] == aliases[j];
      PutAliasesGet(d, init, canon, key);
    }
  }

  /** Aliases that do not name `key` leave its lookup alone. */
  lemma {:induction false} PutAliasesOther(d: Dict<string>, aliases: seq<string>, canon: string, key: string)
    requires !Names(aliases, key)
    ensures Get(PutAliases(d, aliases, canon), key) == Get(d, key)
  {
    if |aliases| > 0 {
      var n := |aliases| - 1;
      var init := aliases[..n];
      assert !Names(init, key);
      PutAliasesOther(d, init, canon, key);
      assert Norm(aliases[n]) != key;
      GetPutOther(PutAliases(d, init, canon), Norm(aliases[n]), canon, key);
    }
  }

  /** The last entry that claims `key` wins it in ALIAS_TO_CANON. */
  lemma {:induction false} AliasTableGet(pm: Dict<ParamInfo>, i: nat, key: string)
    requires i < |pm| && Claims(pm[i], key)
    requires forall j :: i < j < |pm| ==> !Claims(pm[j], key)
    ensures Get(AliasTable(pm), key) == Some(pm[i].0)
  {
    var n := |pm| - 1;
    if i == n {
      LastClaimWins(pm, key);
    } else {
      UnclaimedKeeps(pm, key);
      assert pm[..n][i] == pm[i];
      AliasTableGet(pm[..n], i, key);
    }
  }

  lemma LastClaimWins(pm: Dict<ParamInfo>, key: string)
    requires |pm| > 0 && Claims(pm[|pm| - 1], key)
    ensures Get(AliasTable(pm), key) == Some(pm[|pm| - 1].0)
  {
    var n := |pm| - 1;
    var canon, aliases := pm[n].0, AliasesOf(pm[n].1);
    var d := PutAliases(AliasTable(pm[..n]), aliases, canon);
    assert AliasTable(pm) == Put(d, Norm(canon), canon);
    if key == Norm(canon) {
      PutGet(d, key, canon);
    } else {
      GetPutOther(d, Norm(canon), canon, key);
      PutAliasesGet(AliasTable(pm[..n]), aliases, canon, key);
    }
  }

  lemma UnclaimedKeeps(pm: Dict<ParamInfo>, key: string)
    requires |pm| > 0 && !Claims(pm[|pm| - 1], key)
    ensures Get(AliasTable(pm), key) == Get(AliasTable(pm[..|pm| - 1]), key)
  {
    var n := |pm| - 1;
    var canon, aliases := pm[n].0, AliasesOf(pm[n].1);
    var d := PutAliases(AliasTable(pm[..n]), aliases, canon);
    assert AliasTable(pm) == Put(d, Norm(canon), canon);
    GetPutOther(d, Norm(canon), canon, key);
    PutAliasesOther(AliasTable(pm[..n]), aliases, canon, key);
  }

  /** A header whose normal form an entry claims, with no later entry
      claiming it, resolves to that entry's (non-empty) name. */
  lemma ResolveClaimed(header: string, pm: Dict<ParamInfo>, i: nat)
    requires i < |pm| && pm[i].0 != "" && Claims(pm[i], Norm(header))
    requires forall j :: i < j < |pm| ==> !Claims(pm[j], Norm(header))
    ensures Resolve(header, pm) == pm[i].0
  {
    AliasTableGet(pm, i, Norm(header));
  }

  /** A header no entry claims, and that is no key's lower-case form,
      resolves to the first key, in map order of CANONICAL_KEYS, whose
      lower-case form (of three or more characters) it contains; failing
      that, to itself. */
  lemma ResolveBySubstring(header: string, pm: Dict<ParamInfo>)
    requires forall j :: 0 <= j < |pm| ==> !Claims(pm[j], Norm(header)) && Lower(pm[j].0) != Norm(header)
    ensures var ks := Keys(CanonicalKeys(pm));
      match FirstFitting(ks, Norm(header))
      case Some(i) => Resolve(header, pm) == (if CanonicalKeys(pm)[i].1 == "" then header else CanonicalKeys(pm)[i].1)
      case None => Resolve(header, pm) == header
  {
    var key := Norm(header);
    var alias, canonical := AliasTable(pm), CanonicalKeys(pm);
    if HasKey(alias, key) {
      AliasTableClaimed(pm, key);
      assert false;
    }
    if HasKey(canonical, key) {
      CanonicalEntries(pm);
      assert false;
    }
  }

  /** Every key of ALIAS_TO_CANON is claimed by some entry. */
  lemma {:induction false} AliasTableClaimed(pm: Dict<ParamInfo>, key: string)
    requires HasKey(AliasTable(pm), key)
    ensures exists j :: 0 <= j < |pm| && Claims(pm[j], key)
  {
    var n := |pm| - 1;
    if !Claims(pm[n], key) {
      UnclaimedKeeps(pm, key);
      AliasTableClaimed(pm[..n], key);
      var j :| 0 <= j < n && Claims(pm[..n][j], key);
      assert pm[..n][j] == pm[j];
    }
  }

  // ---------------------------------------------------------------------
  // Row standardisation

  /** One long-form row as `standardize_dataframe` reads it: the raw cell
      text and the resolved canonical name. */
  datatype Row = Row(raw: string, canonical: string)

  /** The columns the standardiser adds to a row. */
  datatype Standardized = Standardized(
    valueStd: string,
    valueNum: Option<real>,
    unitStd: string,
    valid: bool,
    invalidReason: string)

  /** Whether parameter-map entry (k, v) is the one for `canonKey`: the key
      matches case-insensitively, or the entry's truthy "param_id" does. */
  predicate EntryFor(e: (string, ParamInfo), canonKey: string) {
    Lower(e.0) == Lower(canonKey) ||
    (e.1.isDict && e.1.paramId.Some? && e.1.paramId.value != "" && Lower(e.1.paramId.value) == Lower(canonKey))
  }

  /** The position of the first entry for `canonKey`, in map order, or -1. */
  function FirstEntry(pm: Dict<ParamInfo>, canonKey: string): (i: int)
    ensures -1 <= i < |pm|
    ensures i >= 0 ==> EntryFor(pm[i], canonKey)
    ensures forall j :: 0 <= j < |pm| && (i < 0 || j < i) ==> !EntryFor(pm[j], canonKey)
  {
    if |pm| == 0 then -1
    else if EntryFor(pm[0], canonKey) then 0
    else
      var i := FirstEntry(pm[1..], canonKey);
      assert forall j :: 1 <= j < |pm| ==> pm[1..][j - 1] == pm[j];
      if i < 0 then -1 else i + 1
  }

  function FindEntry(pm: Dict<ParamInfo>, canonKey: string): Option<ParamInfo> {
    var i := FirstEntry(pm, canonKey);
    if i < 0 then None else Some(pm[i].1)
  }

  /** The scan over the parameter map for a row's entry. */
  method LookupEntry(pm: Dict<ParamInfo>, canonKey: string) returns (entry: Option<ParamInfo>)
    ensures entry == FindEntry(pm, canonKey)
  {
    var i := 0;
    while i < |pm|
      invariant 0 <= i <= |pm|
      invariant forall j :: 0 <= j < i ==> !EntryFor(pm[j], canonKey)
    {
      if EntryFor(pm[i], canonKey) {
        return Some(pm[i].1);
      }
      i := i + 1;
    }
    return None;
  }

  /** The preferred unit: the entry's truthy "unit", else its range's truthy
      "units", else "" (also when there is no dictionary entry). */
  function PreferredUnit(entry: Option<ParamInfo>): string {
    if entry.None? || !entry.value.isDict then ""
    else
      var info := entry.value;
      if info.unit.Some? && info.unit.value != "" then info.unit.value
      else if info.rangeUnits.Some? && info.rangeUnits.value != "" then info.rangeUnits.value
      else ""
  }

  /** The characters of the unit pattern `[A-Za-z%µμ^0-9/\. ]`. */
  predicate UnitChar(c: char) {
    IsAlpha(c) || IsDigit(c) || c == '%' || c == '\U{00B5}' || c == '\U{03BC}' || c == '^' || c == '/' || c == '.' || c == ' '
  }

  /** Where the longest run of unit characters ending `s` starts: the start
      of the leftmost match of the unit pattern anchored at the end. */
  function RunStart(s: string): (k: nat)
    ensures k <= |s|
    ensures forall i :: k <= i < |s| ==> UnitChar(s[i])
    ensures k > 0 ==> !UnitChar(s[k - 1])
  {
    if |s| == 0 || !UnitChar(s[|s| - 1]) then |s|
    else RunStart(s[..|s| - 1])
  }

  /** The micro signs written as "u". */
  function Micro(s: string): (r: string)
    ensures |r| == |s|
  {
    ReplaceChar(ReplaceChar(s, '\U{00B5}', 'u'), '\U{03BC}', 'u')
  }

  /** The candidate holds a letter, "%" or "/". */
  predicate UnitLike(s: string) {
    exists i :: 0 <= i < |s| && (IsAlpha(s[i]) || s[i] == '%' || s[i] == '/')
  }

  /** The unit detected at the end of a raw cell, or "". */
  function DetectUnit(raw: string): string {
    var t := Strip(raw);
    if t == "" then ""
    else
      var k := RunStart(t);
      if k == |t| then ""
      else
        var candidate := Micro(Strip(t[k..]));
        if UnitLike(candidate) then candidate else ""
  }

  /** `float(num) * float(conv)` */
  function Scale(x: real, f: real): real {
    x * f
  }

  /** The value and the unit to report once the conversion rules ran:
      the table's factor for the pair (`factor`), else the L/L-to-percent
      rule, else unchanged. */
  function ConvertRow(factor: Option<real>, num: Option<real>, detected: string, preferred: string): (r: (Option<real>, string))
    ensures r.0.Some? <==> num.Some?
  {
    var report := if detected != "" then detected else preferred;
    if num.Some? && preferred != "" && detected != "" && detected != preferred then
      if factor.Some? then (Some(Scale(num.value, factor.value)), preferred)
      else if detected == "l/l" && preferred == "%" then (Some(num.value * 100.0), preferred)
      else (num, report)
    else (num, report)
  }

  /** The normalised detected unit of a row. */
  function DetectedOf(row: Row): string {
    NormUnit(Some(DetectUnit(row.raw)))
  }

  /** The normalised preferred unit of a row's parameter-map entry. */
  function PreferredOf(pm: Dict<ParamInfo>, row: Row): string {
    var canonKey := Strip(row.canonical);
    NormUnit(Some(PreferredUnit(if canonKey != "" then FindEntry(pm, canonKey) else None)))
  }

  /** The columns from the parsed number, the fallback search's number and
      the conversion step's value and unit; `show` is `str` on a float. */
  function Columns(num: Option<real>, fallback: Option<real>, conv: (Option<real>, string), show: real -> string): (r: Standardized)
    ensures r.unitStd == conv.1
  {
    var (num2, converted) := if num.None? && fallback.Some? then (fallback, fallback) else (num, conv.0);
    Standardized(
      if converted.None? then "" else show(converted.value),
      converted,
      conv.1,
      num2.Some?,
      if num2.None? then "no_numeric" else "")
  }

  /** The fallback search, run on non-blank text. */
  function Fallback(raw: string): Option<real> {
    if Strip(raw) != "" then FirstNumber(raw, false) else None
  }

  /** The row's columns, given its preferred unit. */
  function Finish(factors: seq<Factor>, row: Row, preferred: string, show: real -> string): Standardized {
    var num := ParseNumber(VStr(row.raw));
    var detected := DetectedOf(row);
    Columns(num, Fallback(row.raw), ConvertRow(Lookup(factors, detected, preferred), num, detected, preferred), show)
  }

  /** The columns `standardize_dataframe` adds to one row, given the
      parameter map and the conversion table (`ConversionFactors` in the
      module). */
  function StandardizeRow(pm: Dict<ParamInfo>, factors: seq<Factor>, row: Row, show: real -> string): Standardized {
    Finish(factors, row, PreferredOf(pm, row), show)
  }

  /** The body of the per-row loop of `standardize_dataframe`. */
  method StandardizeOne(pm: Dict<ParamInfo>, factors: seq<Factor>, row: Row, show: real -> string) returns (r: Standardized)
    ensures r == StandardizeRow(pm, factors, row, show)
  {
    var canonKey := Strip(row.canonical);
    var entry: Option<ParamInfo> := None;
    if canonKey != "" {
      entry := LookupEntry(pm, canonKey);
    }
    r := Finish(factors, row, NormUnit(Some(PreferredUnit(entry))), show);
  }

  /** `f` applied to every row, in order. */
  function MapRows(rows: seq<Row>, f: Row -> Standardized): (r: seq<Standardized>)
    ensures |r| == |rows|
    ensures forall i :: 0 <= i < |rows| ==> r[i] == f(rows[i])
  {
    seq(|rows|, i requires 0 <= i < |rows| => f(rows[i]))
  }

  lemma MapRowsSnoc(rows: seq<Row>, f: Row -> Standardized, i: int)
    requires 0 <= i < |rows|
    ensures MapRows(rows[..i + 1], f) == MapRows(rows[..i], f) + [f(rows[i])]
  {
    assert rows[..i + 1][..i] == rows[..i];
  }

  /** The added columns for every row, in order. */
  function StandardizeAll(pm: Dict<ParamInfo>, factors: seq<Factor>, rows: seq<Row>, show: real -> string): seq<Standardized> {
    MapRows(rows, row => StandardizeRow(pm, factors, row, show))
  }

  /** `standardize_dataframe` on the rows' raw values and canonical names. */
  method StandardizeRows(pm: Dict<ParamInfo>, factors: seq<Factor>, rows: seq<Row>, show: real -> string) returns (out: seq<Standardized>)
    ensures out == StandardizeAll(pm, factors, rows, show)
  {
    var f := row => StandardizeRow(pm, factors, row, show);
    out := [];
    var i := 0;
    while i < |rows|
      invariant 0 <= i <= |rows|
      invariant out == MapRows(rows[..i], f)
    {
      var r := StandardizeOne(pm, factors, rows[i], show);
      assert r == f(rows[i]);
      MapRowsSnoc(rows, f, i);
      out := out + [r];
      i := i + 1;
    }
    assert rows[..i] == rows;
  }

  // ---------------------------------------------------------------------
  // Properties of row standardisation

  /** The fallback search of `standardize_dataframe` never finds a number
      that `parse_number` missed: both need a digit. */
  lemma FallbackNeverFires(raw: string)
    ensures ParseNumber(VStr(raw)).None? ==> FirstNumber(raw, false).None?
  {
    ParseTextIff(raw);
    FirstNumberIff(raw, false);
  }

  /** Without a fallback number, a row is valid exactly when a number was
      parsed; then the value is the converted one, and otherwise the value
      is None, the text "" and the reason "no_numeric". */
  lemma ColumnsValidity(num: Option<real>, fallback: Option<real>, conv: (Option<real>, string), show: real -> string)
    requires num.None? ==> fallback.None?
    requires conv.0.Some? <==> num.Some?
    ensures var r := Columns(num, fallback, conv, show);
      (r.valid <==> num.Some?) &&
      r.valueNum == conv.0 &&
      r.invalidReason == (if r.valid then "" else "no_numeric") &&
      (!r.valid ==> r.valueStd == "")
  {
  }

  /** A row is valid exactly when `parse_number` found a number, and it
      has a value exactly when it is valid. */
  lemma RowValidity(pm: Dict<ParamInfo>, factors: seq<Factor>, row: Row, show: real -> string)
    ensures var r := StandardizeRow(pm, factors, row, show);
      (r.valid <==> ParseNumber(VStr(row.raw)).Some?) && (r.valueNum.None? <==> !r.valid)
  {
    var num := ParseNumber(VStr(row.raw));
    var detected, preferred := DetectedOf(row), PreferredOf(pm, row);
    var conv := ConvertRow(Lookup(factors, detected, preferred), num, detected, preferred);
    FallbackNeverFires(row.raw);
    ColumnsValidity(num, Fallback(row.raw), conv, show);
  }

  /** An invalid row has the reason "no_numeric" and an empty value text; a
      valid one has no reason. */
  lemma RowReason(pm: Dict<ParamInfo>, factors: seq<Factor>, row: Row, show: real -> string)
    ensures var r := StandardizeRow(pm, factors, row, show);
      r.invalidReason == (if r.valid then "" else "no_numeric") && (!r.valid ==> r.valueStd == "")
  {
    var num := ParseNumber(VStr(row.raw));
    var detected, preferred := DetectedOf(row), PreferredOf(pm, row);
    var conv := ConvertRow(Lookup(factors, detected, preferred), num, detected, preferred);
    FallbackNeverFires(row.raw);
    ColumnsValidity(num, Fallback(row.raw), conv, show);
  }

  /** `parse_number` on a string finds a number exactly when the string
      holds a digit. */
  lemma ParseNumberIff(raw: string)
    ensures ParseNumber(VStr(raw)).Some? <==> HasDigit(raw)
  {
    ParseTextIff(raw);
  }

  /** So a row is valid exactly when its raw text holds a digit. */
  lemma RowNeedsDigit(pm: Dict<ParamInfo>, factors: seq<Factor>, row: Row, show: real -> string)
    ensures StandardizeRow(pm, factors, row, show).valid <==> HasDigit(row.raw)
  {
    RowValidity(pm, factors, row, show);
    ParseNumberIff(row.raw);
  }

  /** The L/L-to-percent rule is never reached: the table already holds that
      pair, with the same factor. */
  lemma LitreRuleRedundant()
    ensures FactorFor("l/l", "%") == Some(100.0)
  {
    var t := ConversionFactors;
    assert t[0].observed != "l/l" && t[1].observed != "l/l" && t[2] == Factor("l/l", "%", 100.0);
    LookupThird(t, "l/l", "%");
  }

  lemma LookupThird(t: seq<Factor>, obs: string, std: string)
    requires |t| >= 3 && t[0].observed != obs && t[1].observed != obs
    requires t[2].observed == obs && t[2].standard == std
    ensures Lookup(t, obs, std) == Some(t[2].factor)
  {
    var u := t[1..];
    assert Lookup(t, obs, std) == Lookup(u, obs, std);
    assert u[0] == t[1] && u[1..][0] == t[2];
    assert Lookup(u, obs, std) == Lookup(u[1..], obs, std);
  }

  /** The conversion step changes a value only for two different, non-empty
      units, by the table's factor for the pair or by the L/L-to-percent
      rule, and then reports the preferred unit; the unit reported is always
      the detected or the preferred one. */
  lemma ConvertRowChanges(factor: Option<real>, num: Option<real>, detected: string, preferred: string)
    ensures var r := ConvertRow(factor, num, detected, preferred);
      (r.1 == detected || r.1 == preferred) &&
      (r.0 != num ==>
        num.Some? && detected != "" && preferred != "" && detected != preferred && r.1 == preferred &&
        (if factor.Some? then r.0 == Some(Scale(num.value, factor.value))
         else detected == "l/l" && preferred == "%" && r.0 == Some(num.value * 100.0)))
  {
  }

  /** At row level: the value is converted only when the detected and the
      preferred units differ, are both non-empty and the table pairs them,
      and then by the table's factor. The requirement holds for the
      module's table (`LitreRuleRedundant`). */
  lemma ConversionOnlyWhen(pm: Dict<ParamInfo>, factors: seq<Factor>, row: Row, show: real -> string)
    requires Lookup(factors, "l/l", "%") == Some(100.0)
    ensures var r := StandardizeRow(pm, factors, row, show);
      var num := ParseNumber(VStr(row.raw));
      var det, pref := DetectedOf(row), PreferredOf(pm, row);
      (r.unitStd == det || r.unitStd == pref) &&
      (r.valueNum != num ==>
        num.Some? && det != "" && pref != "" && det != pref &&
        Lookup(factors, det, pref).Some? && r.valueNum == Some(Scale(num.value, Lookup(factors, det, pref).value)))
  {
    var num := ParseNumber(VStr(row.raw));
    var det, pref := DetectedOf(row), PreferredOf(pm, row);
    var factor := Lookup(factors, det, pref);
    var conv := ConvertRow(factor, num, det, pref);
    ParseTextIff(row.raw);
    FallbackNeverFires(row.raw);
    ColumnsValidity(num, Fallback(row.raw), conv, show);
    ConvertRowChanges(factor, num, det, pref);
  }
}
