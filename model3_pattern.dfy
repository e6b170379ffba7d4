/** The contextual score modifiers (model3_pattern.py): each detected
    pattern's risk score is raised or lowered by age, gender, smoking and
    family history, a note is added for each factor that applies, and the
    result is rounded and capped at 1.0. */
module ContextAdjust {
  import opened Common

  /** The "Context_Notes" lists the entries refer to. The source appends
      to an entry's existing list in place, so two entries holding the same
      list both see the lines; an entry refers to its list by position. */
  class NoteStore {
    var lists: seq<seq<string>>

    constructor (lists: seq<seq<string>>)
      ensures this.lists == lists
    {
      this.lists := lists;
    }

    /** Appends `lines` to the list at `j`. */
    method Extend(j: nat, lines: seq<string>)
      requires j < |lists|
      modifies this
      ensures lists == old(lists)[j := old(lists)[j] + lines]
    {
      lists := lists[j := lists[j] + lines];
    }

    /** A new empty list, `[]`. */
    method New() returns (j: nat)
      modifies this
      ensures lists == old(lists) + [[]] && j == |old(lists)|
    {
      j := |lists|;
      lists := lists + [[]];
    }
  }

  /** One detected pattern: its name, its "Risk_Score", and the position of
      its "Context_Notes" list when it has one. */
  datatype Entry = Entry(pattern: string, riskScore: real, contextNotes: Option<nat>)

  /** One output item: the input entry's fields, "Adjusted_Risk_Score" and
      the position of the notes list. */
  datatype Adjusted = Adjusted(entry: Entry, adjustedScore: real, notes: nat)

  /** The keyword arguments; a missing or falsy (0, "") argument has no
      effect. */
  datatype Patient = Patient(age: Option<real>, gender: Option<string>, smoking: Option<string>,
                             familyHistory: Option<string>)

  const OlderNote: string := "Age >60 increases CVD and overall risk (Framingham/ASCVD)."
  const YoungerNote: string := "Younger age; pediatric ranges may apply (adjust cautiously)."
  const MaleNote: string := "Males have higher baseline CVD risk (AHA)."
  const FemaleNote: string := "Females: consider hormonal factors in anemia/dyslipidemia."
  const SmokingNote: string := "Smoking significantly elevates CVD and inflammation risk (Mayo)."
  const FamilyNote: string := "Family history raises genetic risk for CVD/diabetes (Cleveland Clinic)."

  predicate Given(s: Option<string>) {
    s.Some? && |s.value| > 0
  }

  predicate Older(p: Patient) {
    p.age.Some? && p.age.value != 0.0 && p.age.value > 60.0
  }

  predicate Younger(p: Patient) {
    p.age.Some? && p.age.value != 0.0 && p.age.value < 18.0
  }

  predicate Male(p: Patient) {
    Given(p.gender) && Lower(p.gender.value) == "male"
  }

  predicate Female(p: Patient) {
    Given(p.gender) && Lower(p.gender.value) == "female"
  }

  /** Smoking and family history count when they read "yes" in any case. */
  predicate Smoker(p: Patient) {
    Given(p.smoking) && Lower(p.smoking.value) == "yes"
  }

  predicate FamilyHistory(p: Patient) {
    Given(p.familyHistory) && Lower(p.familyHistory.value) == "yes"
  }

  function AgeDelta(pattern: string, p: Patient): real {
    if Older(p) then (if Contains(pattern, "Cardiovascular") then 0.15 else 0.1)
    else if Younger(p) then -0.05
    else 0.0
  }

  function GenderDelta(pattern: string, p: Patient): real {
    if Male(p) then (if Contains(pattern, "Cardiovascular") then 0.1 else 0.05) else 0.0
  }

  function SmokingDelta(pattern: string, p: Patient): real {
    if Smoker(p) then
      (if Contains(pattern, "Cardiovascular") || Contains(pattern, "Dyslipidemia") then 0.2 else 0.1)
    else 0.0
  }

  function FamilyDelta(pattern: string, p: Patient): real {
    if FamilyHistory(p) then
      (if Contains(pattern, "Cardiovascular") || Contains(pattern, "Hyperglycemia") then 0.15 else 0.1)
    else 0.0
  }

  /** The score before rounding: the risk score plus every factor's
      change. */
  function RawScore(e: Entry, p: Patient): real {
    e.riskScore + AgeDelta(e.pattern, p) + GenderDelta(e.pattern, p) + SmokingDelta(e.pattern, p)
    + FamilyDelta(e.pattern, p)
  }

  /** "Adjusted_Risk_Score": rounded to two decimals, then capped at 1.0. */
  function AdjustedScore(e: Entry, p: Patient): real {
    Min(Round(RawScore(e, p), 2), 1.0)
  }

  function AgeNotes(p: Patient): seq<string> {
    if Older(p) then [OlderNote] else if Younger(p) then [YoungerNote] else []
  }

  function GenderNotes(p: Patient): seq<string> {
    if Male(p) then [MaleNote] else if Female(p) then [FemaleNote] else []
  }

  function SmokingNotes(p: Patient): seq<string> {
    if Smoker(p) then [SmokingNote] else []
  }

  function FamilyNotes(p: Patient): seq<string> {
    if FamilyHistory(p) then [FamilyNote] else []
  }

  /** The lines appended for one entry, in factor order. */
  function NotesFor(p: Patient): seq<string> {
    AgeNotes(p) + GenderNotes(p) + SmokingNotes(p) + FamilyNotes(p)
  }

  /** Every entry's notes list exists. */
  predicate Refers(entries: seq<Entry>, n: nat) {
    forall i :: 0 <= i < |entries| && entries[i].contextNotes.Some? ==> entries[i].contextNotes.value < n
  }

  /** One entry: its list (or a new one at the end) gets the notes. */
  function Step(lists: seq<seq<string>>, e: Entry, p: Patient): (seq<seq<string>>, Adjusted) {
    if e.contextNotes.Some? && e.contextNotes.value < |lists| then
      var j := e.contextNotes.value;
      (lists[j := lists[j] + NotesFor(p)], Adjusted(e, AdjustedScore(e, p), j))
    else (lists + [NotesFor(p)], Adjusted(e, AdjustedScore(e, p), |lists|))
  }

  /** The lists and the output items after the entries, in order. */
  function Applied(lists: seq<seq<string>>, entries: seq<Entry>, p: Patient): (seq<seq<string>>, seq<Adjusted>) {
    if |entries| == 0 then (lists, [])
    else
      var before := Applied(lists, entries[..|entries| - 1], p);
      var after := Step(before.0, entries[|entries| - 1], p);
      (after.0, before.1 + [after.1])
  }

  /** What the entries append to the list at `j`: their notes, once for
      every entry that holds it. */
  function AppendedTo(entries: seq<Entry>, j: nat, p: Patient): seq<string> {
    if |entries| == 0 then []
    else
      AppendedTo(entries[..|entries| - 1], j, p)
      + (if entries[|entries| - 1].contextNotes == Some(j) then NotesFor(p) else [])
  }

  /** The notes for one entry, appended factor by factor. */
  method CollectNotes(p: Patient) returns (notes: seq<string>)
    ensures notes == NotesFor(p)
  {
    notes := [];
    if Older(p) {
      notes := notes + [OlderNote];
    } else if Younger(p) {
      notes := notes + [YoungerNote];
    }
    assert notes == AgeNotes(p);
    if Male(p) {
      notes := notes + [MaleNote];
    } else if Female(p) {
      notes := notes + [FemaleNote];
    }
    assert notes == AgeNotes(p) + GenderNotes(p);
    if Smoker(p) {
      notes := notes + [SmokingNote];
    }
    if FamilyHistory(p) {
      notes := notes + [FamilyNote];
    }
  }

  /** The score adjustment for one entry, factor by factor. */
  method AdjustScore(e: Entry, p: Patient) returns (score: real)
    ensures score == AdjustedScore(e, p)
  {
    score := e.riskScore;
    if Older(p) {
      score := score + if Contains(e.pattern, "Cardiovascular") then 0.15 else 0.1;
    } else if Younger(p) {
      score := score - 0.05;
    }
    if Male(p) {
      score := score + if Contains(e.pattern, "Cardiovascular") then 0.1 else 0.05;
    }
    if Smoker(p) {
      score := score + if Contains(e.pattern, "Cardiovascular") || Contains(e.pattern, "Dyslipidemia") then 0.2 else 0.1;
    }
    if FamilyHistory(p) {
      score := score + if Contains(e.pattern, "Cardiovascular") || Contains(e.pattern, "Hyperglycemia") then 0.15 else 0.1;
    }
    score := Min(Round(score, 2), 1.0);
  }

  /** `apply_contextual_adjustments(patterns, age, gender, smoking,
      family_history)` */
  method ApplyContextualAdjustments(store: NoteStore, entries: seq<Entry>, p: Patient) returns (updated: seq<Adjusted>)
    requires Refers(entries, |store.lists|)
    modifies store
    ensures (store.lists, updated) == Applied(old(store.lists), entries, p)
  {
    updated := [];
    var k := 0;
    while k < |entries|
      invariant 0 <= k <= |entries|
      invariant (store.lists, updated) == Applied(old(store.lists), entries[..k], p)
      invariant |store.lists| >= |old(store.lists)|
      invariant Refers(entries, |store.lists|)
    {
      assert entries[..k + 1][..k] == entries[..k];
      var e := entries[k];
      var score := AdjustScore(e, p);
      var notes := CollectNotes(p);
      var j: nat;
      ghost var before := store.lists;
      if e.contextNotes.Some? {
        j := e.contextNotes.value;
      } else {
        j := store.New();
      }
      store.Extend(j, notes);
      if e.contextNotes.None? {
        assert store.lists == before + [NotesFor(p)] by {
          assert [] + notes == notes;
        }
      }
      updated := updated + [Adjusted(e, score, j)];
      k := k + 1;
    }
    assert entries[..k] == entries;
  }

  // ---------------------------------------------------------------------
  // Properties

  /** The adjusted score never exceeds 1.0, and is the rounded raw score
      whenever that is at most 1.0; there is no floor. */
  lemma ScoreCapped(e: Entry, p: Patient)
    ensures AdjustedScore(e, p) <= 1.0
    ensures Round(RawScore(e, p), 2) <= 1.0 ==> AdjustedScore(e, p) == Round(RawScore(e, p), 2)
  {
  }

  /** The factors move the score by -0.05 at the least and +0.6 at the
      most; without any factor the raw score is the risk score. */
  lemma DeltaBounds(e: Entry, p: Patient)
    ensures e.riskScore - 0.05 <= RawScore(e, p) <= e.riskScore + 0.6
    ensures !Older(p) && !Younger(p) && !Male(p) && !Smoker(p) && !FamilyHistory(p) ==>
      RawScore(e, p) == e.riskScore
  {
  }

  /** Only a patient under 18 lowers the score, and only by 0.05. */
  lemma OnlyYouthLowers(e: Entry, p: Patient)
    ensures RawScore(e, p) < e.riskScore <==> Younger(p) && !Male(p) && !Smoker(p) && !FamilyHistory(p)
  {
  }

  /** Every factor that applies adds exactly one note; a female patient
      gets a note and no change. */
  lemma OneNotePerFactor(p: Patient)
    ensures |NotesFor(p)| ==
      (if Older(p) || Younger(p) then 1 else 0) + (if Male(p) || Female(p) then 1 else 0)
      + (if Smoker(p) then 1 else 0) + (if FamilyHistory(p) then 1 else 0)
    ensures Female(p) ==> FemaleNote in NotesFor(p) && GenderDelta("", p) == 0.0
  {
    if Female(p) {
      assert !Male(p) by {
        assert Lower(p.gender.value) == "female";
        assert |"female"| != |"male"|;
      }
    }
  }

  /** The output has one item per entry, in order, with the entry's own
      fields, its adjusted score and, for an entry with a list, that
      list. */
  lemma {:induction false} AppliedItems(lists: seq<seq<string>>, entries: seq<Entry>, p: Patient)
    requires Refers(entries, |lists|)
    ensures var r := Applied(lists, entries, p);
      |r.1| == |entries| && |r.0| >= |lists| &&
      forall i :: 0 <= i < |entries| ==>
        r.1[i].entry == entries[i] && r.1[i].adjustedScore == AdjustedScore(entries[i], p) &&
        (entries[i].contextNotes.Some? ==> r.1[i].notes == entries[i].contextNotes.value)
  {
    if |entries| > 0 {
      AppliedItems(lists, entries[..|entries| - 1], p);
    }
  }

  /** An existing list gets the notes of every entry holding it, in order,
      and nothing else. */
  lemma {:induction false} AppliedLists(lists: seq<seq<string>>, entries: seq<Entry>, p: Patient)
    requires Refers(entries, |lists|)
    ensures var r := Applied(lists, entries, p);
      |r.0| >= |lists| && forall j :: 0 <= j < |lists| ==> r.0[j] == lists[j] + AppendedTo(entries, j, p)
  {
    if |entries| > 0 {
      var init := entries[..|entries| - 1];
      AppliedLists(lists, init, p);
      var before := Applied(lists, init, p).0;
      forall j | 0 <= j < |lists|
        ensures Applied(lists, entries, p).0[j] == lists[j] + AppendedTo(entries, j, p)
      {
        assert lists[j] + AppendedTo(init, j, p) + NotesFor(p) == lists[j] + (AppendedTo(init, j, p) + NotesFor(p));
      }
    }
  }

  /** Each entry without a list gets a new one of its own, past the
      existing lists, holding just its notes. */
  lemma {:induction false} AppliedFresh(lists: seq<seq<string>>, entries: seq<Entry>, p: Patient)
    requires Refers(entries, |lists|)
    ensures var r := Applied(lists, entries, p);
      |r.1| == |entries| && |r.0| >= |lists| &&
      forall i :: 0 <= i < |entries| && entries[i].contextNotes.None? ==>
        |lists| <= r.1[i].notes < |r.0| && r.0[r.1[i].notes] == NotesFor(p) &&
        forall i' :: i < i' < |entries| && entries[i'].contextNotes.None? ==> r.1[i].notes < r.1[i'].notes
  {
    if |entries| > 0 {
      var init := entries[..|entries| - 1];
      var e := entries[|entries| - 1];
      var before := Applied(lists, init, p);
      var after := Step(before.0, e, p);
      var r := Applied(lists, entries, p);
      assert r == (after.0, before.1 + [after.1]);
      AppliedFresh(lists, init, p);
      AppliedItems(lists, init, p);
      StepKeepsFresh(before.0, |lists|, e, p);
      forall i | 0 <= i < |entries| && entries[i].contextNotes.None?
        ensures |lists| <= r.1[i].notes < |r.0| && r.0[r.1[i].notes] == NotesFor(p)
        ensures forall i' :: i < i' < |entries| && entries[i'].contextNotes.None? ==> r.1[i].notes < r.1[i'].notes
      {
        if i < |init| {
          assert entries[i] == init[i] && r.1[i] == before.1[i];
        }
      }
    }
  }

  /** A step leaves the lists from `n` on as they were, and a fresh entry
      adds its own list at the end. */
  lemma StepKeepsFresh(lists: seq<seq<string>>, n: nat, e: Entry, p: Patient)
    requires n <= |lists|
    requires e.contextNotes.Some? ==> e.contextNotes.value < n
    ensures |Step(lists, e, p).0| >= |lists|
    ensures forall k :: n <= k < |lists| ==> Step(lists, e, p).0[k] == lists[k]
    ensures e.contextNotes.None? ==>
      Step(lists, e, p).0 == lists + [NotesFor(p)] && Step(lists, e, p).1.notes == |lists|
  {
  }

  /** A list held by exactly one entry gets that entry's notes once. */
  lemma {:induction false} AppendedOnce(entries: seq<Entry>, j: nat, p: Patient, k: int)
    requires 0 <= k < |entries| && entries[k].contextNotes == Some(j)
    requires forall i :: 0 <= i < |entries| && i != k ==> entries[i].contextNotes != Some(j)
    ensures AppendedTo(entries, j, p) == NotesFor(p)
  {
    var init := entries[..|entries| - 1];
    if k == |entries| - 1 {
      NotHeld(init, j, p);
    } else {
      AppendedOnce(init, j, p, k);
    }
  }

  /** A list held by no entry gets nothing. */
  lemma {:induction false} NotHeld(entries: seq<Entry>, j: nat, p: Patient)
    requires forall i :: 0 <= i < |entries| ==> entries[i].contextNotes != Some(j)
    ensures AppendedTo(entries, j, p) == []
  {
    if |entries| > 0 {
      NotHeld(entries[..|entries| - 1], j, p);
    }
  }

  /** A list shared by two entries gets the notes twice. */
  lemma SharedListTwice(a: Entry, b: Entry, j: nat, p: Patient)
    requires a.contextNotes == Some(j) && b.contextNotes == Some(j)
    ensures AppendedTo([a, b], j, p) == NotesFor(p) + NotesFor(p)
  {
    assert [a, b][..1] == [a];
    assert [a][..0] == [];
    assert AppendedTo([a], j, p) == NotesFor(p);
  }
}
