/** `flatten_json_text` of `extractor/json_utils.py`: a parsed JSON
    document turned into one text blob, a line per top-level scalar field
    and a line per element of a top-level list. */
module JsonUtils {
  import opened Common

  /** `isinstance(v, (str, int, float))`; a bool is an int in Python. */
  predicate Scalar(v: Json) {
    v.JStr? || v.JInt? || v.JNum? || v.JBool?
  }

  /** `str(v)` (and `f"{v}"`): a string is itself; the text of any other
      value is left to `show`. */
  function Text(v: Json, show: Json -> string): string {
    if v.JStr? then v.s else show(v)
  }

  /** The `kk=vv` pairs of a dict element's scalar fields, in order. */
  function Pairs(fields: seq<(string, Json)>, show: Json -> string): seq<string>
    decreases |fields|
  {
    if |fields| == 0 then []
    else
      var last := fields[|fields| - 1];
      Pairs(fields[..|fields| - 1], show) + When(Scalar(last.1), last.0 + "=" + Text(last.1, show))
  }

  /** The line for one element of a list field. */
  function ItemText(item: Json, show: Json -> string): string {
    if item.JObj? then Join(Pairs(item.fields, show), " ") else Text(item, show)
  }

  /** The lines for the elements of a list field, one each. */
  function ItemLines(items: seq<Json>, show: Json -> string): (r: seq<string>)
    ensures |r| == |items|
    ensures forall j :: 0 <= j < |items| ==> r[j] == ItemText(items[j], show)
  {
    seq(|items|, j requires 0 <= j < |items| => ItemText(items[j], show))
  }

  /** The lines for one top-level field. */
  function FieldLines(k: string, v: Json, show: Json -> string): seq<string> {
    if Scalar(v) then [k + ": " + Text(v, show)]
    else if v.JList? then ItemLines(v.items, show)
    else [Text(v, show)]
  }

  /** The lines for the first fields of a dict, in field order. */
  function FieldsLines(fields: seq<(string, Json)>, show: Json -> string): seq<string>
    decreases |fields|
  {
    if |fields| == 0 then []
    else
      var last := fields[|fields| - 1];
      FieldsLines(fields[..|fields| - 1], show) + FieldLines(last.0, last.1, show)
  }

  /** The lines of the blob: per field for a dict, `str(data)` otherwise. */
  function Lines(data: Json, show: Json -> string): seq<string> {
    if data.JObj? then FieldsLines(data.fields, show) else [Text(data, show)]
  }

  /** `flatten_json_text(data)`; `show` is Python's `str` of a JSON value. */
  method FlattenJsonText(data: Json, show: Json -> string) returns (text: string)
    ensures text == Join(Lines(data, show), "\n")
  {
    var parts: seq<string> := [];
    if data.JObj? {
      var fields := data.fields;
      var i := 0;
      while i < |fields|
        invariant 0 <= i <= |fields|
        invariant parts == FieldsLines(fields[..i], show)
      {
        FieldsStep(fields, i, show);
        var (k, v) := fields[i];
        if Scalar(v) {
          parts := parts + [k + ": " + Text(v, show)];
        } else if v.JList? {
          var lines := ListLines(v.items, show);
          parts := parts + lines;
        } else {
          parts := parts + [Text(v, show)];
        }
        i := i + 1;
      }
      assert fields[..|fields|] == fields;
    } else {
      parts := parts + [Text(data, show)];
    }
    text := Join(parts, "\n");
  }

  /** The inner loop over the elements of a list field. */
  method ListLines(items: seq<Json>, show: Json -> string) returns (lines: seq<string>)
    ensures lines == ItemLines(items, show)
  {
    lines := [];
    var j := 0;
    while j < |items|
      invariant 0 <= j <= |items|
      invariant lines == ItemLines(items[..j], show)
    {
      var item := items[j];
      if item.JObj? {
        lines := lines + [Join(Pairs(item.fields, show), " ")];
      } else {
        lines := lines + [Text(item, show)];
      }
      j := j + 1;
    }
    assert items[..|items|] == items;
  }

  lemma FieldsStep(fields: seq<(string, Json)>, i: nat, show: Json -> string)
    requires i < |fields|
    ensures FieldsLines(fields[..i + 1], show) == FieldsLines(fields[..i], show) + FieldLines(fields[i].0, fields[i].1, show)
  {
    assert fields[..i + 1][..i] == fields[..i];
  }

  /** A field contributes one line per element when it is a list, one line
      otherwise. */
  function Width(v: Json): nat {
    if v.JList? then |v.items| else 1
  }

  function TotalWidth(fields: seq<(string, Json)>): nat
    decreases |fields|
  {
    if |fields| == 0 then 0 else TotalWidth(fields[..|fields| - 1]) + Width(fields[|fields| - 1].1)
  }

  /** The blob of a dict has one line per scalar or other field and one per
      list element; anything else is a single line. */
  lemma LinesCount(data: Json, show: Json -> string)
    ensures |Lines(data, show)| == if data.JObj? then TotalWidth(data.fields) else 1
  {
    if data.JObj? {
      FieldsCount(data.fields, show);
    }
  }

  lemma {:induction false} FieldsCount(fields: seq<(string, Json)>, show: Json -> string)
    ensures |FieldsLines(fields, show)| == TotalWidth(fields)
  {
    if |fields| > 0 {
      FieldsCount(fields[..|fields| - 1], show);
    }
  }

  /** A dict of scalar fields becomes exactly one `k: v` line per field, in
      field order. */
  lemma {:induction false} ScalarFieldsLines(fields: seq<(string, Json)>, show: Json -> string)
    requires forall i :: 0 <= i < |fields| ==> Scalar(fields[i].1)
    ensures |FieldsLines(fields, show)| == |fields|
    ensures forall i :: 0 <= i < |fields| ==>
      FieldsLines(fields, show)[i] == fields[i].0 + ": " + Text(fields[i].1, show)
  {
    if |fields| > 0 {
      var init := fields[..|fields| - 1];
      ScalarFieldsLines(init, show);
    }
  }

  /** A dict element of a list shows exactly its scalar fields as `kk=vv`,
      in field order. */
  lemma {:induction false} PairsFilter(fields: seq<(string, Json)>, show: Json -> string)
    ensures |Pairs(fields, show)| == |Filter(fields, ScalarField)|
    ensures forall j :: 0 <= j < |Pairs(fields, show)| ==>
      Pairs(fields, show)[j] == Filter(fields, ScalarField)[j].0 + "=" + Text(Filter(fields, ScalarField)[j].1, show)
  {
    if |fields| > 0 {
      var init := fields[..|fields| - 1];
      var last := fields[|fields| - 1];
      PairsFilter(init, show);
      assert Filter(fields, ScalarField) == Filter(init, ScalarField) + When(ScalarField(last), last);
    }
  }

  predicate ScalarField(e: (string, Json)) { Scalar(e.1) }
}
