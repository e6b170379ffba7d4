/** The synthesis node (nodes/synthesis.py): a plain-text summary with one
    line per interpreted parameter, the identified patterns, and a closing
    line. */
module NodesSynthesis {
  import opened Common
  import opened NodesValidate
  import opened NodesInterpretation

  /** What the node reads from one entry of the interpretation map: the
      value, the unit and the status text. */
  datatype Row = Row(value: Value, unit: Value, status: string)

  /** An entry written by the interpretation node. */
  function FromInterpreted(e: Interpreted): Row {
    Row(VFloat(e.value), e.unit, StatusName(e.status))
  }

  /** An entry written by the validation node, which has no "status" key,
      so the node's default "unknown" applies. */
  function FromValidated(e: Validated): Row {
    Row(VFloat(e.value), e.unit, "unknown")
  }

  const NoData: string := "No laboratory data available for synthesis."
  const Header: string := "CBC Summary Report:\n"
  const PatternsHeader: string := "\nIdentified Patterns:"
  const Closing: string := "\nClinical correlation is advised."

  function ParamLine(name: string, row: Row, show: Value -> string): string {
    "- " + name + ": " + Str(row.value, show) + " " + Str(row.unit, show) + " (" + row.status + ")"
  }

  function PatternLine(p: string): string {
    "- " + p
  }

  function ParamLines(params: Dict<Row>, show: Value -> string): (r: seq<string>)
    ensures |r| == |params|
  {
    seq(|params|, i requires 0 <= i < |params| => ParamLine(params[i].0, params[i].1, show))
  }

  function PatternLines(patterns: seq<string>): (r: seq<string>)
    ensures |r| == |patterns|
  {
    seq(|patterns|, i requires 0 <= i < |patterns| => PatternLine(patterns[i]))
  }

  /** The lines of a report with at least one parameter. */
  function Lines(params: Dict<Row>, patterns: seq<string>, show: Value -> string): seq<string> {
    [Header] + ParamLines(params, show)
    + (if |patterns| > 0 then [PatternsHeader] + PatternLines(patterns) else [])
    + [Closing]
  }

  function SynthesisReport(params: Dict<Row>, patterns: seq<string>, show: Value -> string): string {
    if |params| == 0 then NoData else Join(Lines(params, patterns, show), "\n")
  }

  /** `synthesis_node(state)`: the "synthesis_report" text. */
  method Synthesis(params: Dict<Row>, patterns: seq<string>, show: Value -> string) returns (report: string)
    ensures report == SynthesisReport(params, patterns, show)
  {
    if |params| == 0 {
      return NoData;
    }
    var lines := [Header];
    var i := 0;
    while i < |params|
      invariant 0 <= i <= |params|
      invariant lines == [Header] + ParamLines(params[..i], show)
    {
      assert ParamLines(params[..i + 1], show) == ParamLines(params[..i], show) + [ParamLine(params[i].0, params[i].1, show)];
      lines := lines + [ParamLine(params[i].0, params[i].1, show)];
      i := i + 1;
    }
    assert params[..i] == params;
    if |patterns| > 0 {
      lines := lines + [PatternsHeader];
      var j := 0;
      while j < |patterns|
        invariant 0 <= j <= |patterns|
        invariant lines == [Header] + ParamLines(params, show) + [PatternsHeader] + PatternLines(patterns[..j])
      {
        assert PatternLines(patterns[..j + 1]) == PatternLines(patterns[..j]) + [PatternLine(patterns[j])];
        lines := lines + [PatternLine(patterns[j])];
        j := j + 1;
      }
      assert patterns[..j] == patterns;
    }
    lines := lines + [Closing];
    assert lines == Lines(params, patterns, show);
    report := Join(lines, "\n");
  }

  // ---------------------------------------------------------------------
  // Properties

  /** With parameters, the report opens with the header and ends with the
      closing line; the lines between are one per parameter, in order. */
  lemma ReportFrame(params: Dict<Row>, patterns: seq<string>, show: Value -> string)
    requires |params| > 0
    ensures StartsWith(SynthesisReport(params, patterns, show), Header)
    ensures EndsWith(SynthesisReport(params, patterns, show), "\n" + Closing)
    ensures var ls := Lines(params, patterns, show);
      |ls| == 2 + |params| + (if |patterns| > 0 then 1 + |patterns| else 0) &&
      forall i :: 0 <= i < |params| ==> ls[i + 1] == ParamLine(params[i].0, params[i].1, show)
  {
    LinesShape(params, patterns, show);
    var ls := Lines(params, patterns, show);
    JoinHead(ls, "\n");
    JoinEnds(ls, Closing);
  }

  /** The lines: the header, one per parameter in order, the pattern
      section when there are patterns, and the closing line. */
  lemma LinesShape(params: Dict<Row>, patterns: seq<string>, show: Value -> string)
    ensures var ls := Lines(params, patterns, show);
      |ls| == 2 + |params| + (if |patterns| > 0 then 1 + |patterns| else 0) &&
      ls[0] == Header && ls[|ls| - 1] == Closing &&
      forall i :: 0 <= i < |params| ==> ls[i + 1] == ParamLine(params[i].0, params[i].1, show)
  {
  }

  /** Lines ending with a given line join into a text ending with it,
      after a newline. */
  lemma JoinEnds(ls: seq<string>, last: string)
    requires |ls| > 1 && ls[|ls| - 1] == last
    ensures EndsWith(Join(ls, "\n"), "\n" + last)
  {
    var init := ls[..|ls| - 1];
    var j := Join(init, "\n");
    assert Join(ls, "\n") == j + "\n" + last by {
      assert init + [last] == ls;
      JoinSnoc(init, last, "\n");
    }
    SuffixOf(j, "\n", last);
  }

  lemma SuffixOf(a: string, sep: string, b: string)
    ensures EndsWith(a + sep + b, sep + b)
  {
    assert a + sep + b == a + (sep + b);
    assert (a + (sep + b))[|a|..] == sep + b;
  }

  /** A line for a parameter or a pattern starts with "- ", the other
      lines do not. */
  lemma LineKinds(params: Dict<Row>, patterns: seq<string>, show: Value -> string, k: int)
    requires 0 <= k < |Lines(params, patterns, show)|
    ensures var ls := Lines(params, patterns, show);
      StartsWith(ls[k], "- ") <==> 1 <= k <= |params| || (|patterns| > 0 && |params| + 2 <= k < |ls| - 1)
  {
    var ls := Lines(params, patterns, show);
    if 1 <= k <= |params| {
      assert ls[k] == ParamLine(params[k - 1].0, params[k - 1].1, show);
    } else if |patterns| > 0 && |params| + 2 <= k < |ls| - 1 {
      assert ls[k] == PatternLine(patterns[k - |params| - 2]);
    } else if k == 0 {
      assert ls[k][0] == 'C';
    } else if k == |ls| - 1 {
      assert ls[k][0] == '\n';
    } else {
      assert ls[k] == PatternsHeader;
      assert ls[k][0] == '\n';
    }
  }

  /** The "Identified Patterns" section appears exactly when there are
      patterns. */
  lemma PatternSection(params: Dict<Row>, patterns: seq<string>, show: Value -> string)
    ensures PatternsHeader in Lines(params, patterns, show) <==> |patterns| > 0
  {
    var ls := Lines(params, patterns, show);
    if |patterns| == 0 {
      var pl := ParamLines(params, show);
      assert ls == [Header] + pl + [Closing];
      forall k | 0 <= k < |ls|
        ensures ls[k] != PatternsHeader
      {
        if 1 <= k <= |params| {
          assert ls[k] == ParamLine(params[k - 1].0, params[k - 1].1, show);
          assert ls[k][0] == '-';
        } else if k == 0 {
          assert ls[k][0] == 'C';
        } else {
          assert |ls[k]| != |PatternsHeader|;
        }
      }
    } else {
      assert ls[|params| + 1] == PatternsHeader;
    }
  }

  /** Fed from the validation node, every parameter line reads
      "(unknown)", since those entries carry a flag and no status. */
  lemma ValidatedShowsUnknown(name: string, e: Validated, show: Value -> string)
    ensures EndsWith(ParamLine(name, FromValidated(e), show), "(unknown)")
  {
    var line := ParamLine(name, FromValidated(e), show);
    var pre := "- " + name + ": " + Str(VFloat(e.value), show) + " " + Str(e.unit, show) + " ";
    assert line == pre + "(unknown)";
  }

  /** Fed from the interpretation node, the line ends with its status. */
  lemma InterpretedShowsStatus(name: string, e: Interpreted, show: Value -> string)
    ensures EndsWith(ParamLine(name, FromInterpreted(e), show), "(" + StatusName(e.status) + ")")
  {
    var line := ParamLine(name, FromInterpreted(e), show);
    var pre := "- " + name + ": " + Str(VFloat(e.value), show) + " " + Str(e.unit, show) + " ";
    assert line == pre + ("(" + StatusName(e.status) + ")");
  }
}
