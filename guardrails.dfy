/** The output guardrail (model2/pipeline/guardrails.py): the top-level
    "recommendations" entry is renamed, and every string value of a dict,
    at any depth, that mentions a forbidden term is redacted. */
module Guardrails {
  import opened Common

  const ForbiddenTerms: seq<string> :=
    ["prescribe", "dosage", "dose", "recommend medication", "start metformin", "start statin"]

  const Marker := "[REDACTED_BY_GUARDRAILS]"

  const RemovedKey := "recommendations_removed_by_guardrails"

  /** Some forbidden term occurs in the lower-cased text. */
  predicate Forbidden(s: string) {
    exists t :: t in ForbiddenTerms && Contains(Lower(s), t)
  }

  /** A dict's string value after the scan. */
  function Redact(s: string): (r: string)
    ensures Forbidden(s) ==> r == Marker
    ensures !Forbidden(s) ==> r == s
  {
    if Forbidden(s) then Marker else s
  }

  /** `sanitize_obj` on a value: dicts have their string values redacted
      and their other values visited, lists have their items visited, and
      everything else, strings directly inside a list included, is left as
      it is. */
  function SanitizeValue(j: Json): Json
    decreases j, 1
  {
    match j
    case JObj(fields) => JObj(SanitizeFields(fields))
    case JList(items) =>
      JList(seq(|items|, i requires 0 <= i < |items| => SanitizeValue(items[i])))
    case _ => j
  }

  /** One dict entry: a string value is redacted, any other value visited. */
  function SanitizeEntry(v: Json): Json
    decreases v, 2
  {
    match v
    case JStr(s) => JStr(Redact(s))
    case _ => SanitizeValue(v)
  }

  /** The entries of a dict after the scan, keys in place. */
  function SanitizeFields(fields: seq<(string, Json)>): (r: seq<(string, Json)>)
    ensures |r| == |fields|
    decreases JObj(fields), 0
  {
    seq(|fields|, i requires 0 <= i < |fields| => (fields[i].0, SanitizeEntry(fields[i].1)))
  }

  /** The top-level copy with "recommendations" moved to the removed key
      (an existing removed key keeps its place, otherwise it goes last). */
  function Renamed(output: Dict<Json>): Dict<Json> {
    match Get(output, "recommendations")
    case None => output
    case Some(v) => Put(Remove(output, "recommendations"), RemovedKey, v)
  }

  /** `sanitize_output(output)` on the document's value. */
  function Sanitized(output: Dict<Json>): Dict<Json> {
    SanitizeFields(Renamed(output))
  }

  /** `sanitize_output(output)`: the copy, the rename, and the scan of the
      top-level entries one by one. */
  method SanitizeOutput(output: Dict<Json>) returns (cleaned: Dict<Json>)
    ensures cleaned == Sanitized(output)
  {
    cleaned := output;
    var rec := Get(cleaned, "recommendations");
    if rec.Some? {
      cleaned := Put(Remove(cleaned, "recommendations"), RemovedKey, rec.value);
    }
    ghost var renamed := cleaned;
    var i := 0;
    while i < |cleaned|
      invariant 0 <= i <= |cleaned| == |renamed|
      invariant forall j :: 0 <= j < i ==> cleaned[j] == SanitizeFields(renamed)[j]
      invariant forall j :: i <= j < |cleaned| ==> cleaned[j] == renamed[j]
    {
      var (k, v) := cleaned[i];
      cleaned := cleaned[i := (k, SanitizeEntry(v))];
      i := i + 1;
    }
    assert cleaned == SanitizeFields(renamed);
  }

  // ---------------------------------------------------------------------
  // Properties

  /** Dict keys are never changed, at any depth; in particular a nested
      "recommendations" key keeps its name. */
  lemma SanitizeKeepsKeys(fields: seq<(string, Json)>)
    ensures Keys(SanitizeFields(fields)) == Keys(fields)
  {
    forall i | 0 <= i < |fields|
      ensures Keys(SanitizeFields(fields))[i] == Keys(fields)[i]
    {
    }
  }

  /** A string directly inside a list is never inspected. */
  lemma ListStringsEscape(items: seq<Json>, i: nat)
    requires i < |items| && items[i].JStr?
    ensures SanitizeValue(JList(items)).items[i] == items[i]
  {
  }

  /** A dict's string value is redacted exactly when it mentions a
      forbidden term; numbers, booleans and None are left alone. */
  lemma DictStringRedacted(fields: seq<(string, Json)>, i: nat)
    requires i < |fields|
    ensures fields[i].1.JStr? ==> SanitizeFields(fields)[i].1 == JStr(if Forbidden(fields[i].1.s) then Marker else fields[i].1.s)
    ensures fields[i].1.JNull? || fields[i].1.JBool? || fields[i].1.JInt? || fields[i].1.JNum? ==>
      SanitizeFields(fields)[i].1 == fields[i].1
  {
    var v := fields[i].1;
    assert SanitizeFields(fields)[i].1 == SanitizeEntry(v);
    if v.JNull? || v.JBool? || v.JInt? || v.JNum? {
      assert SanitizeEntry(v) == SanitizeValue(v) == v;
    }
  }

  /** Lower-casing cannot produce a letter whose two cases are absent. */
  lemma LowerLacks(s: string, c: char)
    requires IsLowerAscii(c) || !IsAlpha(c)
    requires c !in s && UpperChar(c) !in s
    ensures c !in Lower(s)
  {
  }

  /** The lower-cased marker lacks the letter `c`. */
  lemma MarkerLacks(c: char)
    requires c == 'p' || c == 'o' || c == 'm' || c == ' '
    ensures c !in Lower(Marker)
  {
    assert c !in Marker && UpperChar(c) !in Marker;
    LowerLacks(Marker, c);
  }

  /** The lower-cased marker has no 'p' and no 'o', so it holds neither
      "prescribe" nor "dosage" nor "dose". */
  lemma MarkerLacksDosing()
    ensures !Contains(Lower(Marker), "prescribe") && !Contains(Lower(Marker), "dosage")
    ensures !Contains(Lower(Marker), "dose")
  {
    MarkerLacks('p');
    MarkerLacks('o');
    var m := Lower(Marker);
    MissingChar(m, "prescribe", 0);
    MissingChar(m, "dosage", 1);
    MissingChar(m, "dose", 1);
  }

  /** The lower-cased marker has neither 'o' nor ' '. */
  lemma MarkerLacksMedication()
    ensures !Contains(Lower(Marker), "recommend medication")
    ensures !Contains(Lower(Marker), "start metformin") && !Contains(Lower(Marker), "start statin")
  {
    MarkerLacks('o');
    MarkerLacks(' ');
    var m := Lower(Marker);
    MissingChar(m, "recommend medication", 3);
    MissingChar(m, "start metformin", 5);
    MissingChar(m, "start statin", 5);
  }

  /** Each forbidden term has a letter the lower-cased marker lacks. */
  lemma MarkerLacksTerms()
    ensures !Contains(Lower(Marker), "prescribe") && !Contains(Lower(Marker), "dosage")
    ensures !Contains(Lower(Marker), "dose") && !Contains(Lower(Marker), "recommend medication")
    ensures !Contains(Lower(Marker), "start metformin") && !Contains(Lower(Marker), "start statin")
  {
    MarkerLacksDosing();
    MarkerLacksMedication();
  }

  /** The marker mentions no forbidden term. */
  lemma MarkerClean()
    ensures !Forbidden(Marker)
  {
    MarkerLacksTerms();
    NoTermIn(Lower(Marker));
  }

  /** A text holding none of the six terms holds no forbidden term. */
  lemma NoTermIn(m: string)
    requires !Contains(m, "prescribe") && !Contains(m, "dosage")
    requires !Contains(m, "dose") && !Contains(m, "recommend medication")
    requires !Contains(m, "start metformin") && !Contains(m, "start statin")
    ensures forall t :: t in ForbiddenTerms ==> !Contains(m, t)
  {
  }

  lemma RedactIdempotent(s: string)
    ensures Redact(Redact(s)) == Redact(s)
  {
    MarkerClean();
  }

  lemma {:induction false} SanitizeValueIdempotent(j: Json)
    ensures SanitizeValue(SanitizeValue(j)) == SanitizeValue(j)
    decreases j, 1
  {
    match j
    case JObj(fields) => SanitizeFieldsIdempotent(fields);
    case JList(items) =>
      var r := SanitizeValue(j).items;
      forall i | 0 <= i < |items|
        ensures SanitizeValue(r[i]) == r[i]
      {
        SanitizeValueIdempotent(items[i]);
      }
    case _ =>
  }

  lemma {:induction false} SanitizeEntryIdempotent(v: Json)
    ensures SanitizeEntry(SanitizeEntry(v)) == SanitizeEntry(v)
    decreases v, 2
  {
    match v
    case JStr(s) => RedactIdempotent(s);
    case _ =>
      SanitizeValueIdempotent(v);
      assert !SanitizeValue(v).JStr?;
  }

  lemma {:induction false} SanitizeFieldsIdempotent(fields: seq<(string, Json)>)
    ensures SanitizeFields(SanitizeFields(fields)) == SanitizeFields(fields)
    decreases JObj(fields), 0
  {
    var r := SanitizeFields(fields);
    forall i | 0 <= i < |fields|
      ensures SanitizeEntry(r[i].1) == r[i].1
    {
      SanitizeEntryIdempotent(fields[i].1);
    }
  }

  /** After sanitisation no top-level "recommendations" key is left. */
  lemma NoRecommendations(output: Dict<Json>)
    ensures !HasKey(Sanitized(output), "recommendations")
  {
    var renamed := Renamed(output);
    SanitizeKeepsKeys(renamed);
    match Get(output, "recommendations")
    case None =>
    case Some(v) =>
      var base := Remove(output, "recommendations");
      GetPutOther(base, RemovedKey, v, "recommendations");
  }

  /** Sanitising twice changes nothing more: the marker itself mentions no
      forbidden term. */
  lemma SanitizeIdempotent(output: Dict<Json>)
    ensures Sanitized(Sanitized(output)) == Sanitized(output)
  {
    NoRecommendations(output);
    SanitizeFieldsIdempotent(Renamed(output));
  }
}
