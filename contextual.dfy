/** The value clean-up of `model2/pipeline/contextual.py`: numeric-looking
    cells of a result row become floats, and the age becomes an int. */
module Contextual {
  import opened Common
  import opened Numeric

  /** `to_float_safe(v)`: None and "" give nothing; an int, bool or float
      is read as a float; any other text is stripped, its thousands commas
      dropped, and its first whitespace-separated token parsed. */
  function ToFloatSafe(v: Value): (r: Option<real>)
    ensures v.VNone? || v == VStr("") ==> r.None?
    ensures IsNumeric(v) ==> r == Some(AsReal(v))
  {
    match v
    case VNone => None
    case VStr(s) =>
      if s == "" then None
      else
        var parts := Words(Replace(Strip(s), ",", ""));
        if |parts| == 0 then None else ParseFloat(parts[0])
    case _ => Some(AsReal(v))
  }

  lemma WordOnly(w: string)
    requires IsWord(w)
    ensures Words(w) == [w]
  {
    assert StripLeft(w) == w;
    assert TakeWord(w) == w by {
      WholeWord(w);
    }
    assert w[|w|..] == "";
  }

  lemma {:induction false} WholeWord(w: string)
    requires forall j :: 0 <= j < |w| ==> !IsSpace(w[j])
    ensures TakeWord(w) == w
    decreases |w|
  {
    if |w| > 0 {
      WholeWord(w[1..]);
      assert [w[0]] + w[1..] == w;
    }
  }

  /** A plain run of digits, as `str` prints a natural number, reads back
      as that number. */
  lemma ToFloatSafeShowNat(n: nat)
    ensures ToFloatSafe(VStr(ShowNat(n))) == Some(n as real)
  {
    var s := ShowNat(n);
    assert IsDigit(s[0]) && IsDigit(s[|s| - 1]);
    StripKeeps(s);
    assert !Contains(s, ",") by {
      NoComma(s);
    }
    assert IsWord(s);
    WordOnly(s);
    ParseShowNat(n);
  }

  lemma {:induction false} NoComma(s: string)
    requires forall j :: 0 <= j < |s| ==> IsDigit(s[j])
    ensures !Contains(s, ",")
    decreases |s|
  {
    if |s| > 0 {
      assert s[..1][0] == s[0];
      NoComma(s[1..]);
    }
  }

  /** The cell after the conversion loop: the float when `to_float_safe`
      reads one, the original value otherwise. */
  function Converted(v: Value): Value {
    match ToFloatSafe(v)
    case Some(f) => VFloat(f)
    case None => v
  }

  /** `int(v)`: a float truncates toward zero, a bool is 0 or 1, a string
      must be an optionally signed run of digits; None has no int. */
  function AsInt(v: Value): (r: Option<int>)
    ensures IsNumeric(v) ==> r.Some? && (AsReal(v) >= 0.0 ==> r.value as real <= AsReal(v) < r.value as real + 1.0)
    ensures v.VNone? ==> r.None?
  {
    match v
    case VNone => None
    case VBool(b) => Some(if b then 1 else 0)
    case VInt(i) => Some(i)
    case VFloat(x) => Some(Truncate(x))
    case VStr(s) => ParseInt(s)
  }

  /** The row after the conversion loop: every cell converted, the keys
      untouched. */
  function ConvertAll(row: Dict<Value>): (r: Dict<Value>)
    ensures Keys(r) == Keys(row)
  {
    MapCells(row, Converted)
  }

  /** Every cell of a row passed through `f`, the keys untouched. */
  function MapCells(row: Dict<Value>, f: Value -> Value): (r: Dict<Value>)
    ensures |r| == |row|
    ensures forall i :: 0 <= i < |row| ==> r[i] == (row[i].0, f(row[i].1))
  {
    seq(|row|, i requires 0 <= i < |row| => (row[i].0, f(row[i].1)))
  }

  /** `normalize_values(row)` as a value: the converted row, then a present,
      non-None age passed through `int` when that succeeds. */
  function Normalized(row: Dict<Value>): Dict<Value> {
    FixAge(ConvertAll(row))
  }

  /** The age rule: a present, non-None age is passed through `int` when
      that succeeds. */
  function FixAge(out: Dict<Value>): Dict<Value> {
    match Get(out, "age")
    case Some(age) =>
      if age != VNone && AsInt(age).Some? then Put(out, "age", VInt(AsInt(age).value)) else out
    case None => out
  }

  /** `normalize_values(row)`: the row is copied, never changed; a Python
      dict's keys are distinct. */
  method NormalizeValues(row: Dict<Value>) returns (out: Dict<Value>)
    requires DistinctKeys(row)
    ensures out == Normalized(row)
  {
    out := row;
    var i := 0;
    while i < |row|
      invariant 0 <= i <= |row|
      invariant out == MapCells(row[..i], Converted) + row[i..]
    {
      var key := row[i].0;
      var f := ToFloatSafe(row[i].1);
      if f.Some? {
        MapStep(row, Converted, i);
        out := Put(out, key, VFloat(f.value));
      } else {
        MapSkip(row, Converted, i);
      }
      i := i + 1;
    }
    assert row[..|row|] == row;
    assert out == ConvertAll(row);
    ghost var converted := out;
    FixAgeCases(converted);
    var age := Get(out, "age");
    if age.Some? && age.value != VNone {
      var n := AsInt(age.value);
      if n.Some? {
        out := Put(out, "age", VInt(n.value));
      }
    }
    assert out == FixAge(converted);
  }

  /** One turn of the conversion loop: storing the new value of cell `i`
      changes that cell and no other. */
  lemma MapStep(row: Dict<Value>, f: Value -> Value, i: nat)
    requires i < |row| && DistinctKeys(row)
    ensures Put(MapCells(row[..i], f) + row[i..], row[i].0, f(row[i].1)) == MapCells(row[..i + 1], f) + row[i + 1..]
  {
    var out := MapCells(row[..i], f) + row[i..];
    var next := MapCells(row[..i + 1], f) + row[i + 1..];
    assert |out| == |row| && forall j :: 0 <= j < |row| ==> out[j].0 == row[j].0;
    assert DistinctKeys(out);
    assert next == out[i := (row[i].0, f(row[i].1))];
    PutAt(out, i, f(row[i].1));
  }

  /** A cell `to_float_safe` cannot read keeps its value, so the loop turn
      that skips it still converts it. */
  lemma MapSkip(row: Dict<Value>, f: Value -> Value, i: nat)
    requires i < |row| && f(row[i].1) == row[i].1
    ensures MapCells(row[..i], f) + row[i..] == MapCells(row[..i + 1], f) + row[i + 1..]
  {
  }

  lemma FixAgeCases(out: Dict<Value>)
    ensures var age := Get(out, "age");
      FixAge(out) == if age.Some? && age.value != VNone && AsInt(age.value).Some?
        then Put(out, "age", VInt(AsInt(age.value).value)) else out
  {
  }

  /** Storing under the key of entry `i` of a dict whose keys are distinct
      overwrites that entry in place. */
  lemma PutAt(d: Dict<Value>, i: nat, v: Value)
    requires i < |d| && DistinctKeys(d)
    ensures Put(d, d[i].0, v) == d[i := (d[i].0, v)]
  {
    assert IndexOf(d, d[i].0) == i;
  }

  /** The result has exactly the keys of the row, in the same order. */
  lemma NormalizedKeys(row: Dict<Value>)
    ensures Keys(Normalized(row)) == Keys(row)
  {
    PutKeys(ConvertAll(row), "age", VInt(0));
    var out := ConvertAll(row);
    if HasKey(out, "age") {
      forall v ensures Keys(Put(out, "age", v)) == Keys(out) {
        PutKeys(out, "age", v);
      }
    }
  }

  /** Every cell other than the age holds the float `to_float_safe` reads
      from it when there is one, and its original value otherwise. */
  lemma NormalizedCells(row: Dict<Value>, i: nat)
    requires i < |row| && row[i].0 != "age"
    ensures |Normalized(row)| == |row|
    ensures Normalized(row)[i] ==
      (row[i].0, if ToFloatSafe(row[i].1).Some? then VFloat(ToFloatSafe(row[i].1).value) else row[i].1)
  {
    var out := ConvertAll(row);
    var k := IndexOf(out, "age");
    if k >= 0 {
      assert out[k].0 == "age" && out[i].0 != "age";
    }
  }

  /** The age: absent stays absent; otherwise it is the converted cell,
      turned into an int when it is not None and `int` accepts it. */
  lemma NormalizedAge(row: Dict<Value>)
    ensures var before := Get(ConvertAll(row), "age");
      Get(Normalized(row), "age") ==
        if before.None? then None
        else if before.value != VNone && AsInt(before.value).Some? then Some(VInt(AsInt(before.value).value))
        else before
  {
    var out := ConvertAll(row);
    var before := Get(out, "age");
    if before.Some? && before.value != VNone && AsInt(before.value).Some? {
      PutGet(out, "age", VInt(AsInt(before.value).value));
    }
  }

  /** A numeric age, or one whose text reads as a number, ends up an int:
      the float truncated toward zero. */
  lemma NumericAgeBecomesInt(row: Dict<Value>, i: nat)
    requires i < |row| && row[i].0 == "age" && DistinctKeys(row)
    requires ToFloatSafe(row[i].1).Some?
    ensures Get(Normalized(row), "age") == Some(VInt(Truncate(ToFloatSafe(row[i].1).value)))
  {
    var out := ConvertAll(row);
    assert out[i] == ("age", VFloat(ToFloatSafe(row[i].1).value));
    assert IndexOf(out, "age") == i;
    NormalizedAge(row);
  }
}
