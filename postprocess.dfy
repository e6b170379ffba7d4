/** The salvage rules applied to one extracted row (extractor/postprocess.py):
    a haemoglobin above 30 is taken for g/L and divided by 10, a total protein
    above 100 is taken for a lost decimal point and divided by 100, each with
    a note under "_notes", and every numeric zero is blanked to "". The row
    is a dict that is changed in place and returned. */
module Postprocess {
  import opened Common
  import opened Numeric

  /** A value held in a row: a scalar, a nested dict (the "_notes" entry),
      or any other object (a list, say). */
  datatype Cell = Scalar(v: Value) | Mapping(m: Dict<Cell>) | Other

  /** A row dict, changed in place. */
  class Row {
    var entries: Dict<Cell>

    constructor (entries: Dict<Cell>)
      ensures this.entries == entries
    {
      this.entries := entries;
    }
  }

  /** What `postprocess_row` is called with: a dict, or anything else. */
  datatype Input = RowInput(row: Row) | NotRow(v: Value)

  /** One salvage rule: the key it reads, the bound above which it fires,
      the divisor it applies and the note it leaves. */
  datatype Rule = Rule(key: string, limit: real, divisor: real, note: string)

  const NotesKey: string := "_notes"

  const HemoglobinRule: Rule :=
    Rule("Hemoglobin", 30.0, 10.0, "Scaled by /10 (possible g/L -> g/dL)")

  const ProteinRule: Rule :=
    Rule("Total Protein", 100.0, 100.0, "Scaled by /100 (possible missing decimal)")

  /** A rule with a positive divisor, on a key other than "_notes". */
  predicate WellFormed(rule: Rule) {
    rule.divisor > 0.0 && rule.key != NotesKey
  }

  /** Two well-formed rules on different keys. */
  predicate Apart(first: Rule, second: Rule) {
    WellFormed(first) && WellFormed(second) && first.key != second.key
  }

  /** `v in (None, "", "None")` for the result of `row.get(key)`. */
  predicate Placeholder(c: Option<Cell>) {
    c == None || c == Some(Scalar(VNone)) || c == Some(Scalar(VStr(""))) || c == Some(Scalar(VStr("None")))
  }

  /** `float(c)`; a dict or another object raises, which the rules swallow. */
  function CellFloat(c: Cell): Option<real> {
    if c.Scalar? then ValueToFloat(c.v) else None
  }

  /** The number a rule reads from the row, if any. */
  function Reading(row: Dict<Cell>, rule: Rule): Option<real> {
    var c := Get(row, rule.key);
    if Placeholder(c) then None else CellFloat(c.value)
  }

  /** Whether a rule rescales the row. */
  predicate Fires(row: Dict<Cell>, rule: Rule) {
    Reading(row, rule).Some? && Reading(row, rule).value > rule.limit
  }

  /** `row.setdefault("_notes", {})` followed by `row["_notes"][key] = note`;
      when "_notes" already holds something other than a dict the item
      assignment raises and the row keeps what it had. */
  function Noted(row: Dict<Cell>, key: string, note: string): Dict<Cell> {
    var r := if HasKey(row, NotesKey) then row else Put(row, NotesKey, Mapping([]));
    var notes := Get(r, NotesKey);
    if notes.Some? && notes.value.Mapping? then
      Put(r, NotesKey, Mapping(Put(notes.value.m, key, Scalar(VStr(note)))))
    else r
  }

  /** `round(x / divisor, 2)`, the value a fired rule stores. */
  function Rescaled(x: real, rule: Rule): real
    requires rule.divisor > 0.0
  {
    Round(x / rule.divisor, 2)
  }

  /** The row after a rule whose reading is `reading`: above the bound the
      value is replaced by its rescaled form and the note is left. */
  function Rescale(row: Dict<Cell>, rule: Rule, reading: Option<real>): Dict<Cell>
    requires rule.divisor > 0.0
  {
    if reading.Some? && reading.value > rule.limit then
      Noted(Put(row, rule.key, Scalar(VFloat(Rescaled(reading.value, rule)))), rule.key, rule.note)
    else row
  }

  /** The row after one salvage rule. */
  function Salvage(row: Dict<Cell>, rule: Rule): Dict<Cell>
    requires rule.divisor > 0.0
  {
    Rescale(row, rule, Reading(row, rule))
  }

  /** `isinstance(v, (int, float)) and v == 0`; False is an int equal to 0. */
  predicate IsZero(c: Cell) {
    c.Scalar? && IsNumeric(c.v) && AsReal(c.v) == 0.0
  }

  /** A cell after the zero rule. */
  function Blank(c: Cell): Cell {
    if IsZero(c) then Scalar(VStr("")) else c
  }

  /** Every entry after the zero rule, keys in place. */
  function Blanked(row: Dict<Cell>): Dict<Cell> {
    seq(|row|, i requires 0 <= i < |row| => (row[i].0, Blank(row[i].1)))
  }

  /** The first `n` entries after the zero rule, the rest untouched. */
  function BlankedPrefix(row: Dict<Cell>, n: nat): Dict<Cell> {
    seq(|row|, i requires 0 <= i < |row| => if i < n then (row[i].0, Blank(row[i].1)) else row[i])
  }

  /** The row `postprocess_row` leaves behind. */
  function Postprocessed(row: Dict<Cell>): Dict<Cell> {
    Blanked(Salvage(Salvage(row, HemoglobinRule), ProteinRule))
  }

  /** One salvage block: read, rescale, note. */
  method ApplyRule(row: Row, rule: Rule)
    requires rule.divisor > 0.0
    modifies row
    ensures row.entries == Salvage(old(row.entries), rule)
  {
    var reading := Reading(row.entries, rule);
    if reading.Some? && reading.value > rule.limit {
      row.entries := Put(row.entries, rule.key, Scalar(VFloat(Rescaled(reading.value, rule))));
      if !HasKey(row.entries, NotesKey) {
        row.entries := Put(row.entries, NotesKey, Mapping([]));
      }
      var notes := Get(row.entries, NotesKey);
      if notes.Some? && notes.value.Mapping? {
        row.entries := Put(row.entries, NotesKey, Mapping(Put(notes.value.m, rule.key, Scalar(VStr(rule.note)))));
      }
    }
  }

  /** The zero loop: every int, float or bool equal to 0 becomes "". */
  method BlankZeros(row: Row)
    requires DistinctKeys(row.entries)
    modifies row
    ensures row.entries == Blanked(old(row.entries))
  {
    var keys := Keys(row.entries);
    ghost var before := row.entries;
    var i := 0;
    while i < |keys|
      invariant 0 <= i <= |keys| == |before|
      invariant row.entries == BlankedPrefix(before, i)
    {
      PrefixIndex(before, i);
      var v := Get(row.entries, keys[i]);
      if v.Some? && IsZero(v.value) {
        row.entries := Put(row.entries, keys[i], Scalar(VStr("")));
      }
      assert row.entries == BlankedPrefix(before, i + 1);
      i := i + 1;
    }
    assert row.entries == Blanked(before);
  }

  /** `postprocess_row(row)`: anything but a dict comes back as it is; a
      dict is salvaged, blanked in place and returned. */
  method PostprocessRow(input: Input) returns (output: Input)
    requires input.RowInput? ==> DistinctKeys(input.row.entries)
    modifies if input.RowInput? then {input.row} else {}
    ensures output == input
    ensures input.RowInput? ==> input.row.entries == Postprocessed(old(input.row.entries))
  {
    if !input.RowInput? {
      return input;
    }
    var row := input.row;
    ApplyRule(row, HemoglobinRule);
    SalvageDistinct(old(row.entries), HemoglobinRule);
    ApplyRule(row, ProteinRule);
    SalvageDistinct(Salvage(old(row.entries), HemoglobinRule), ProteinRule);
    BlankZeros(row);
    return input;
  }

  // ---------------------------------------------------------------------
  // Dictionary facts the loop needs

  /** In a dict with distinct keys, a key is found at its own position. */
  lemma {:induction false} IndexOfDistinct<V>(d: Dict<V>, i: nat)
    requires DistinctKeys(d) && i < |d|
    ensures IndexOf(d, d[i].0) == i
  {
    assert HasKey(d, d[i].0);
  }

  /** The blanked prefix keeps the keys; the next entry is found in place. */
  lemma PrefixIndex(d: Dict<Cell>, i: nat)
    requires DistinctKeys(d) && i < |d|
    ensures DistinctKeys(BlankedPrefix(d, i))
    ensures Get(BlankedPrefix(d, i), d[i].0) == Some(d[i].1)
    ensures Put(BlankedPrefix(d, i), d[i].0, Scalar(VStr(""))) == BlankedPrefix(d, i)[i := (d[i].0, Scalar(VStr("")))]
  {
    var p := BlankedPrefix(d, i);
    assert forall j :: 0 <= j < |p| ==> p[j].0 == d[j].0;
    IndexOfDistinct(p, i);
  }

  /** A salvage rule keeps the keys distinct. */
  lemma SalvageDistinct(row: Dict<Cell>, rule: Rule)
    requires rule.divisor > 0.0 && DistinctKeys(row)
    ensures DistinctKeys(Salvage(row, rule))
  {
    if Fires(row, rule) {
      var y := Scalar(VFloat(Rescaled(Reading(row, rule).value, rule)));
      var r1 := Put(row, rule.key, y);
      PutDistinct(row, rule.key, y);
      var r2 := if HasKey(r1, NotesKey) then r1 else Put(r1, NotesKey, Mapping([]));
      PutDistinct(r1, NotesKey, Mapping([]));
      var notes := Get(r2, NotesKey);
      if notes.Some? && notes.value.Mapping? {
        PutDistinct(r2, NotesKey, Mapping(Put(notes.value.m, rule.key, Scalar(VStr(rule.note)))));
      }
    }
  }

  // ---------------------------------------------------------------------
  // Properties

  /** The placeholder test never changes a reading: None, "" and "None"
      do not parse as numbers anyway. */
  lemma PlaceholderRedundant(row: Dict<Cell>, rule: Rule)
    ensures Reading(row, rule) == if HasKey(row, rule.key) then CellFloat(Get(row, rule.key).value) else None
  {
    var c := Get(row, rule.key);
    if c == Some(Scalar(VStr("None"))) {
      assert Strip("None") == "None" by { StripKeeps("None"); }
      assert Find("None", '.') == 4;
      assert ParseUnsigned("None") == None by { assert !AllDigits("None"[..4]); }
    }
  }

  /** `round(x, 2)` lies within half a hundredth of `x`. */
  lemma RoundNear(x: real)
    ensures x - 0.005 < Round(x, 2) <= x + 0.005
  {
    assert Pow10(2) == 100.0;
    var f := (x * 100.0 + 0.5).Floor;
    assert Round(x, 2) == (f as real) / 100.0;
    assert f as real <= x * 100.0 + 0.5 < f as real + 1.0;
  }

  /** Rounding to two places keeps a bound that has two places. */
  lemma RoundAbove(x: real, b: real)
    requires b == 1.0 || b == 3.0
    requires x >= b
    ensures Round(x, 2) >= b
  {
    assert Pow10(2) == 100.0;
    assert Round(b, 2) == b by {
      assert (b * 100.0 + 0.5).Floor as real == b * 100.0;
    }
    RoundMonotone(b, x, 2);
  }

  /** Noting a key: "_notes" is created when missing, extended when a
      dict, left alone otherwise; no other key changes. */
  lemma {:induction false} NotedFacts(row: Dict<Cell>, key: string, note: string)
    requires key != NotesKey
    ensures Get(row, NotesKey).None? ==>
      Get(Noted(row, key, note), NotesKey) == Some(Mapping([(key, Scalar(VStr(note)))]))
    ensures Get(row, NotesKey).Some? && Get(row, NotesKey).value.Mapping? ==>
      Get(Noted(row, key, note), NotesKey) == Some(Mapping(Put(Get(row, NotesKey).value.m, key, Scalar(VStr(note)))))
    ensures Get(row, NotesKey).Some? && !Get(row, NotesKey).value.Mapping? ==>
      Noted(row, key, note) == row
    ensures forall k :: k != NotesKey ==> Get(Noted(row, key, note), k) == Get(row, k)
  {
    var r := if HasKey(row, NotesKey) then row else Put(row, NotesKey, Mapping([]));
    PutGet(row, NotesKey, Mapping([]));
    var notes := Get(r, NotesKey);
    var n := Scalar(VStr(note));
    if notes.Some? && notes.value.Mapping? {
      PutGet(r, NotesKey, Mapping(Put(notes.value.m, key, n)));
      if !HasKey(row, NotesKey) {
        assert Put([], key, n) == [(key, n)];
      }
    }
    forall k | k != NotesKey
      ensures Get(Noted(row, key, note), k) == Get(row, k)
    {
      GetPutOther(row, NotesKey, Mapping([]), k);
      if notes.Some? && notes.value.Mapping? {
        GetPutOther(r, NotesKey, Mapping(Put(notes.value.m, key, n)), k);
      }
    }
  }

  /** A rule touches only its own key and "_notes". */
  lemma {:induction false} RescaleOthers(row: Dict<Cell>, rule: Rule, reading: Option<real>, k: string)
    requires WellFormed(rule) && k != rule.key && k != NotesKey
    ensures Get(Rescale(row, rule, reading), k) == Get(row, k)
  {
    if reading.Some? && reading.value > rule.limit {
      var y := Scalar(VFloat(Rescaled(reading.value, rule)));
      GetPutOther(row, rule.key, y, k);
      NotedFacts(Put(row, rule.key, y), rule.key, rule.note);
    }
  }

  /** A rule that fires stores the rescaled value and records its note
      when "_notes" is missing or a dict. */
  lemma {:induction false} RescaleFired(row: Dict<Cell>, rule: Rule, x: real)
    requires WellFormed(rule) && x > rule.limit
    ensures Get(Rescale(row, rule, Some(x)), rule.key) == Some(Scalar(VFloat(Rescaled(x, rule))))
    ensures Get(row, NotesKey).None? ==>
      Get(Rescale(row, rule, Some(x)), NotesKey) == Some(Mapping([(rule.key, Scalar(VStr(rule.note)))]))
    ensures Get(row, NotesKey).Some? && Get(row, NotesKey).value.Mapping? ==>
      Get(Rescale(row, rule, Some(x)), NotesKey) ==
        Some(Mapping(Put(Get(row, NotesKey).value.m, rule.key, Scalar(VStr(rule.note)))))
    ensures Get(row, NotesKey).Some? && !Get(row, NotesKey).value.Mapping? ==>
      Get(Rescale(row, rule, Some(x)), NotesKey) == Get(row, NotesKey)
  {
    var y := Scalar(VFloat(Rescaled(x, rule)));
    var r1 := Put(row, rule.key, y);
    PutGet(row, rule.key, y);
    GetPutOther(row, rule.key, y, NotesKey);
    NotedFacts(r1, rule.key, rule.note);
  }

  /** A fired rule stores `round(x / divisor, 2)`, records its note when
      "_notes" is missing or a dict, and changes no other key. */
  lemma {:induction false} SalvageFired(row: Dict<Cell>, rule: Rule, x: real)
    requires WellFormed(rule)
    requires Reading(row, rule) == Some(x) && x > rule.limit
    ensures Get(Salvage(row, rule), rule.key) == Some(Scalar(VFloat(Round(x / rule.divisor, 2))))
    ensures Get(row, NotesKey).None? ==>
      Get(Salvage(row, rule), NotesKey) == Some(Mapping([(rule.key, Scalar(VStr(rule.note)))]))
    ensures Get(row, NotesKey).Some? && Get(row, NotesKey).value.Mapping? ==>
      Get(Salvage(row, rule), NotesKey) == Some(Mapping(Put(Get(row, NotesKey).value.m, rule.key, Scalar(VStr(rule.note)))))
    ensures Get(row, NotesKey).Some? && !Get(row, NotesKey).value.Mapping? ==>
      Get(Salvage(row, rule), NotesKey) == Get(row, NotesKey)
    ensures forall k :: k != rule.key && k != NotesKey ==> Get(Salvage(row, rule), k) == Get(row, k)
  {
    RescaleFired(row, rule, x);
    forall k | k != rule.key && k != NotesKey
      ensures Get(Salvage(row, rule), k) == Get(row, k)
    {
      RescaleOthers(row, rule, Some(x), k);
    }
  }

  /** A rule that does not fire leaves the row as it is. */
  lemma SalvageQuiet(row: Dict<Cell>, rule: Rule)
    requires rule.divisor > 0.0 && !Fires(row, rule)
    ensures Salvage(row, rule) == row
  {
  }

  /** Two dicts with the same keys find every key at the same place. */
  lemma {:induction false} IndexOfKeys<V, W>(a: Dict<V>, b: Dict<W>, k: string)
    requires Keys(a) == Keys(b)
    ensures IndexOf(a, k) == IndexOf(b, k)
  {
    if |a| > 0 && a[0].0 != k {
      assert Keys(a[1..]) == Keys(a)[1..] && Keys(b[1..]) == Keys(b)[1..];
      IndexOfKeys(a[1..], b[1..], k);
    }
  }

  /** The zero rule keeps the keys and blanks exactly the zero values. */
  lemma BlankedGet(row: Dict<Cell>, k: string)
    ensures Keys(Blanked(row)) == Keys(row)
    ensures Get(Blanked(row), k) == if HasKey(row, k) then Some(Blank(Get(row, k).value)) else None
  {
    IndexOfKeys(Blanked(row), row, k);
  }

  /** A cell is blanked exactly when it is 0, 0.0 or False. */
  lemma BlankIff(c: Cell)
    ensures Blank(c) != c <==> c == Scalar(VInt(0)) || c == Scalar(VFloat(0.0)) || c == Scalar(VBool(false))
    ensures !IsZero(Blank(c))
  {
  }

  /** No zero is left in a postprocessed row, so postprocessing twice
      blanks nothing more. */
  lemma NoZeroLeft(row: Dict<Cell>)
    ensures forall e :: e in Postprocessed(row) ==> !IsZero(e.1)
    ensures Blanked(Postprocessed(row)) == Postprocessed(row)
  {
    var p := Postprocessed(row);
    forall e | e in p
      ensures !IsZero(e.1)
    {
      var i :| 0 <= i < |p| && p[i] == e;
      BlankIff(Salvage(Salvage(row, HemoglobinRule), ProteinRule)[i].1);
    }
  }

  /** The three keys the rules touch are different. */
  lemma KeysDiffer()
    ensures Apart(HemoglobinRule, ProteinRule) && Apart(ProteinRule, HemoglobinRule)
  {
    assert HemoglobinRule.key[0] == 'H' && ProteinRule.key[0] == 'T' && NotesKey[0] == '_';
  }

  /** Two rules and then the zero rule leave any key they do not name
      alone unless its value is a zero. */
  lemma {:induction false} KeptThrough(row: Dict<Cell>, first: Rule, second: Rule, k: string)
    requires WellFormed(first) && WellFormed(second)
    requires k != first.key && k != second.key && k != NotesKey
    ensures Get(Blanked(Salvage(Salvage(row, first), second)), k) ==
      if HasKey(row, k) then Some(Blank(Get(row, k).value)) else None
  {
    var r1 := Salvage(row, first);
    var r2 := Salvage(r1, second);
    RescaleOthers(row, first, Reading(row, first), k);
    RescaleOthers(r1, second, Reading(r1, second), k);
    BlankedGet(r2, k);
  }

  /** A key no rule names keeps its value unless it was a zero. */
  lemma OtherKeys(row: Dict<Cell>, k: string)
    requires k != HemoglobinRule.key && k != ProteinRule.key && k != NotesKey
    ensures Get(Postprocessed(row), k) == if HasKey(row, k) then Some(Blank(Get(row, k).value)) else None
  {
    KeysDiffer();
    KeptThrough(row, HemoglobinRule, ProteinRule, k);
  }

  /** A rule leaves the key of another rule, and so its reading, alone. */
  lemma {:induction false} ReadingUnmoved(row: Dict<Cell>, first: Rule, second: Rule)
    requires Apart(first, second)
    ensures Get(Salvage(row, first), second.key) == Get(row, second.key)
    ensures Reading(Salvage(row, first), second) == Reading(row, second)
  {
    RescaleOthers(row, first, Reading(row, first), second.key);
  }

  /** A rescaled value of at least 1 survives the second rule and the
      zero rule. */
  lemma {:induction false} ScaledThrough(r1: Dict<Cell>, first: Rule, second: Rule, y: real)
    requires Apart(first, second) && y >= 1.0
    requires Get(r1, first.key) == Some(Scalar(VFloat(y)))
    ensures Get(Blanked(Salvage(r1, second)), first.key) == Some(Scalar(VFloat(y)))
  {
    RescaleOthers(r1, second, Reading(r1, second), first.key);
    BlankedGet(Salvage(r1, second), first.key);
  }

  /** A rescaled value of at least 1 survives the zero rule. */
  lemma {:induction false} ScaledLast(r1: Dict<Cell>, rule: Rule, x: real)
    requires WellFormed(rule) && x > rule.limit && Rescaled(x, rule) >= 1.0
    ensures Get(Blanked(Rescale(r1, rule, Some(x))), rule.key) == Some(Scalar(VFloat(Rescaled(x, rule))))
  {
    RescaleFired(r1, rule, x);
    BlankedGet(Rescale(r1, rule, Some(x)), rule.key);
  }

  /** The stored haemoglobin is the reading divided by 10, rounded to two
      places: at least 3 and within 0.005 of the quotient. */
  lemma HemoglobinRange(x: real)
    requires x > 30.0
    ensures Rescaled(x, HemoglobinRule) == Round(x / 10.0, 2)
    ensures Rescaled(x, HemoglobinRule) >= 3.0
    ensures x / 10.0 - 0.005 < Rescaled(x, HemoglobinRule) <= x / 10.0 + 0.005
  {
    RoundAbove(x / 10.0, 3.0);
    RoundNear(x / 10.0);
  }

  /** A haemoglobin above 30 is stored rescaled, and no later step
      changes it. */
  lemma HemoglobinScaled(row: Dict<Cell>, x: real)
    requires Reading(row, HemoglobinRule) == Some(x) && x > 30.0
    ensures Get(Postprocessed(row), HemoglobinRule.key) == Some(Scalar(VFloat(Rescaled(x, HemoglobinRule))))
  {
    KeysDiffer();
    var y := Rescaled(x, HemoglobinRule);
    assert y >= 1.0 by { HemoglobinRange(x); }
    RescaleFired(row, HemoglobinRule, x);
    ScaledThrough(Salvage(row, HemoglobinRule), HemoglobinRule, ProteinRule, y);
  }

  /** A haemoglobin of at most 30, or one that does not read as a number,
      is left alone unless it is a zero. */
  lemma HemoglobinKept(row: Dict<Cell>)
    requires !Fires(row, HemoglobinRule)
    ensures Get(Postprocessed(row), HemoglobinRule.key) ==
      if HasKey(row, HemoglobinRule.key) then Some(Blank(Get(row, HemoglobinRule.key).value)) else None
  {
    KeysDiffer();
    RescaleOthers(row, ProteinRule, Reading(row, ProteinRule), HemoglobinRule.key);
    BlankedGet(Salvage(row, ProteinRule), HemoglobinRule.key);
  }

  /** The stored total protein is the reading divided by 100, rounded to
      two places: at least 1 and within 0.005 of the quotient. */
  lemma ProteinRange(x: real)
    requires x > 100.0
    ensures Rescaled(x, ProteinRule) == Round(x / 100.0, 2)
    ensures Rescaled(x, ProteinRule) >= 1.0
    ensures x / 100.0 - 0.005 < Rescaled(x, ProteinRule) <= x / 100.0 + 0.005
  {
    RoundAbove(x / 100.0, 1.0);
    RoundNear(x / 100.0);
  }

  /** A total protein above 100 is stored rescaled, and the zero rule
      leaves it. */
  lemma ProteinScaled(row: Dict<Cell>, x: real)
    requires Reading(row, ProteinRule) == Some(x) && x > 100.0
    ensures Get(Postprocessed(row), ProteinRule.key) == Some(Scalar(VFloat(Rescaled(x, ProteinRule))))
  {
    KeysDiffer();
    assert Rescaled(x, ProteinRule) >= 1.0 by { ProteinRange(x); }
    ReadingUnmoved(row, HemoglobinRule, ProteinRule);
    ScaledLast(Salvage(row, HemoglobinRule), ProteinRule, x);
  }

  /** A total protein of at most 100, or one that does not read as a
      number, is left alone unless it is a zero. */
  lemma ProteinKept(row: Dict<Cell>)
    requires !Fires(row, ProteinRule)
    ensures Get(Postprocessed(row), ProteinRule.key) ==
      if HasKey(row, ProteinRule.key) then Some(Blank(Get(row, ProteinRule.key).value)) else None
  {
    KeysDiffer();
    var r1 := Salvage(row, HemoglobinRule);
    ReadingUnmoved(row, HemoglobinRule, ProteinRule);
    assert Salvage(r1, ProteinRule) == r1;
    BlankedGet(r1, ProteinRule.key);
  }

  /** A key is present exactly when it is among the keys. */
  lemma HasKeyIn<V>(d: Dict<V>, k: string)
    ensures HasKey(d, k) <==> k in Keys(d)
  {
    if k in Keys(d) {
      var i :| 0 <= i < |d| && Keys(d)[i] == k;
      assert d[i].0 == k;
    }
  }

  /** A rule that fires on a present key adds "_notes" as the last key
      when it was missing; otherwise the keys stay as they were. */
  lemma {:induction false} RescaleKeys(row: Dict<Cell>, rule: Rule, reading: Option<real>)
    requires WellFormed(rule)
    requires reading.Some? && reading.value > rule.limit ==> HasKey(row, rule.key)
    ensures Keys(Rescale(row, rule, reading)) ==
      Keys(row) + if reading.Some? && reading.value > rule.limit && !HasKey(row, NotesKey) then [NotesKey] else []
  {
    if reading.Some? && reading.value > rule.limit {
      var y := Scalar(VFloat(Rescaled(reading.value, rule)));
      var r1 := Put(row, rule.key, y);
      PutKeys(row, rule.key, y);
      HasKeyIn(row, NotesKey);
      HasKeyIn(r1, NotesKey);
      var r := if HasKey(r1, NotesKey) then r1 else Put(r1, NotesKey, Mapping([]));
      PutKeys(r1, NotesKey, Mapping([]));
      PutGet(r1, NotesKey, Mapping([]));
      var notes := Get(r, NotesKey);
      if notes.Some? && notes.value.Mapping? {
        PutKeys(r, NotesKey, Mapping(Put(notes.value.m, rule.key, Scalar(VStr(rule.note)))));
      }
    }
  }

  /** A reading exists only for a key that is present. */
  lemma ReadingPresent(row: Dict<Cell>, rule: Rule)
    requires Reading(row, rule).Some?
    ensures HasKey(row, rule.key)
  {
  }

  /** `postprocess_row` keeps the keys in their order and adds "_notes"
      last exactly when a rule fires on a row without it. */
  lemma PostprocessKeys(row: Dict<Cell>)
    ensures Keys(Postprocessed(row)) ==
      Keys(row) + if !HasKey(row, NotesKey) && (Fires(row, HemoglobinRule) || Fires(row, ProteinRule)) then [NotesKey] else []
  {
    KeysDiffer();
    var r1 := Salvage(row, HemoglobinRule);
    if Fires(row, HemoglobinRule) {
      ReadingPresent(row, HemoglobinRule);
    }
    RescaleKeys(row, HemoglobinRule, Reading(row, HemoglobinRule));
    ReadingUnmoved(row, HemoglobinRule, ProteinRule);
    if Fires(row, ProteinRule) {
      ReadingPresent(row, ProteinRule);
      HasKeyIn(row, ProteinRule.key);
      HasKeyIn(r1, ProteinRule.key);
    }
    RescaleKeys(r1, ProteinRule, Reading(r1, ProteinRule));
    HasKeyIn(row, NotesKey);
    HasKeyIn(r1, NotesKey);
    BlankedGet(Salvage(r1, ProteinRule), NotesKey);
  }

  /** Two rules that both fire on a row without notes leave their notes
      in the order they run. */
  lemma {:induction false} TwoNotes(row: Dict<Cell>, first: Rule, second: Rule, x1: real, x2: real)
    requires Apart(first, second) && x1 > first.limit && x2 > second.limit && !HasKey(row, NotesKey)
    ensures Get(Blanked(Rescale(Rescale(row, first, Some(x1)), second, Some(x2))), NotesKey) ==
      Some(Mapping([(first.key, Scalar(VStr(first.note))), (second.key, Scalar(VStr(second.note)))]))
  {
    var r1 := Rescale(row, first, Some(x1));
    var r2 := Rescale(r1, second, Some(x2));
    var m := [(first.key, Scalar(VStr(first.note)))];
    var both := m + [(second.key, Scalar(VStr(second.note)))];
    assert Get(r1, NotesKey) == Some(Mapping(m)) by {
      RescaleFired(row, first, x1);
    }
    assert Get(r2, NotesKey) == Some(Mapping(both)) by {
      RescaleFired(r1, second, x2);
      PutFresh(m, second.key, Scalar(VStr(second.note)));
    }
    BlankedGet(r2, NotesKey);
    assert both == [(first.key, Scalar(VStr(first.note))), (second.key, Scalar(VStr(second.note)))];
  }

  /** When both rules fire on a row without notes, "_notes" holds the two
      notes in the order the rules run. */
  lemma BothNotes(row: Dict<Cell>)
    requires Fires(row, HemoglobinRule) && Fires(row, ProteinRule) && !HasKey(row, NotesKey)
    ensures Get(Postprocessed(row), NotesKey) ==
      Some(Mapping([(HemoglobinRule.key, Scalar(VStr(HemoglobinRule.note))),
                    (ProteinRule.key, Scalar(VStr(ProteinRule.note)))]))
  {
    KeysDiffer();
    ReadingUnmoved(row, HemoglobinRule, ProteinRule);
    TwoNotes(row, HemoglobinRule, ProteinRule, Reading(row, HemoglobinRule).value, Reading(row, ProteinRule).value);
  }
}
