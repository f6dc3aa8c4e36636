/**
 * The requirements collector (src/components/RequirementsForm.tsx): the form
 * state, the concept-list editor and the submit guard.
 *
 * The list operations are pure functions over the concept list; the form is a
 * class whose fields are the component's two pieces of state, `formData` and
 * the concept being typed, `newConcept`. The `onSubmit` callback is modelled
 * as the value `HandleSubmit` returns.
 */
module RequirementsForm {
  import opened Text
  import opened Requirements

  predicate NoDuplicates(s: seq<string>) {
    forall i, j :: 0 <= i < j < |s| ==> s[i] != s[j]
  }

  /** A label `addConcept` can produce: non-empty, with no whitespace at either end. */
  predicate IsLabel(x: string) {
    x != "" && !IsSpace(x[0]) && !IsSpace(x[|x| - 1])
  }

  /** Every concept in the list was accepted by `AddConceptTo`: distinct, trimmed and not blank. */
  predicate ConceptsWellFormed(s: seq<string>) {
    NoDuplicates(s) && forall i :: 0 <= i < |s| ==> IsLabel(s[i])
  }

  /** A label is its own trim. */
  lemma LabelIsTrimmed(x: string)
    requires IsLabel(x)
    ensures Trim(x) == x
  {
  }

  /** The guard of `addConcept`: the trimmed input is non-blank and not yet in the list. */
  predicate Accepts(concepts: seq<string>, input: string) {
    Trim(input) != "" && Trim(input) !in concepts
  }

  /** The concept list after `addConcept` with `input` typed in the concept field. */
  function AddConceptTo(concepts: seq<string>, input: string): (r: seq<string>)
    ensures Accepts(concepts, input) ==> |r| == |concepts| + 1 && r[|concepts|] == Trim(input)
    ensures !Accepts(concepts, input) ==> r == concepts
    ensures r[..|concepts|] == concepts
    ensures forall x :: x in r <==> x in concepts || (x == Trim(input) && Trim(input) != "")
    ensures ConceptsWellFormed(concepts) ==> ConceptsWellFormed(r)
  {
    if Accepts(concepts, input) then
      concepts + [Trim(input)]
    else concepts
  }

  /** The concept list after `removeConcept(c)`: `filter(x => x !== c)`. */
  function RemoveConceptFrom(concepts: seq<string>, c: string): (r: seq<string>)
    ensures |r| <= |concepts|
    ensures forall x :: x in r <==> x in concepts && x != c
  {
    if concepts == [] then []
    else if concepts[0] == c then RemoveConceptFrom(concepts[1..], c)
    else [concepts[0]] + RemoveConceptFrom(concepts[1..], c)
  }

  /** Removal keeps the list duplicate-free and every remaining concept trimmed and non-blank. */
  lemma {:induction false} RemoveKeepsWellFormed(concepts: seq<string>, c: string)
    requires ConceptsWellFormed(concepts)
    ensures ConceptsWellFormed(RemoveConceptFrom(concepts, c))
  {
    if concepts != [] {
      var rest := RemoveConceptFrom(concepts[1..], c);
      assert ConceptsWellFormed(concepts[1..]) by {
        forall i | 0 <= i < |concepts[1..]| ensures concepts[1..][i] == concepts[i + 1] { }
      }
      RemoveKeepsWellFormed(concepts[1..], c);
      if concepts[0] != c {
        var r := [concepts[0]] + rest;
        assert concepts[0] !in concepts[1..];
        assert concepts[0] !in rest;
        forall i, j | 0 <= i < j < |r| ensures r[i] != r[j] {
          if i == 0 { assert r[j] == rest[j - 1] && rest[j - 1] in rest; }
          else { assert r[i] == rest[i - 1] && r[j] == rest[j - 1]; }
        }
        forall i | 0 <= i < |r| ensures IsLabel(r[i]) {
          if i > 0 { assert r[i] == rest[i - 1]; }
        }
      }
    }
  }

  /** Removing a concept that is not in the list leaves the list as it is. */
  lemma {:induction false} RemoveAbsent(concepts: seq<string>, c: string)
    requires c !in concepts
    ensures RemoveConceptFrom(concepts, c) == concepts
  {
    if concepts != [] {
      RemoveAbsent(concepts[1..], c);
    }
  }

  /**
   * In a duplicate-free list, removing the concept at position `k` deletes
   * exactly that entry and keeps every other concept in its relative order.
   */
  lemma {:induction false} RemoveAt(concepts: seq<string>, k: nat)
    requires NoDuplicates(concepts) && k < |concepts|
    ensures RemoveConceptFrom(concepts, concepts[k]) == concepts[..k] + concepts[k + 1..]
  {
    var c := concepts[k];
    if k == 0 {
      RemoveAbsent(concepts[1..], c);
    } else {
      RemoveAt(concepts[1..], k - 1);
      assert concepts[1..][k - 1] == c;
      assert concepts[..k] == [concepts[0]] + concepts[1..][..k - 1];
      assert concepts[k + 1..] == concepts[1..][k..];
    }
  }

  /** Adding a new concept and then removing it restores the list. */
  lemma AddThenRemove(concepts: seq<string>, input: string)
    requires NoDuplicates(concepts) && Accepts(concepts, input)
    ensures RemoveConceptFrom(AddConceptTo(concepts, input), Trim(input)) == concepts
  {
    var r := AddConceptTo(concepts, input);
    assert NoDuplicates(r);
    RemoveAt(r, |concepts|);
    assert r[..|concepts|] == concepts;
  }

  /** One action of the concept editor. */
  datatype ConceptEdit = Add(input: string) | Remove(concept: string)

  function ApplyEdit(concepts: seq<string>, e: ConceptEdit): seq<string> {
    match e
    case Add(input) => AddConceptTo(concepts, input)
    case Remove(c) => RemoveConceptFrom(concepts, c)
  }

  function ApplyEdits(concepts: seq<string>, edits: seq<ConceptEdit>): seq<string>
    decreases |edits|
  {
    if edits == [] then concepts else ApplyEdits(ApplyEdit(concepts, edits[0]), edits[1..])
  }

  /** From any well-formed list (the empty one included), adds and removes keep it duplicate-free and trimmed. */
  lemma {:induction false} EditsKeepWellFormed(concepts: seq<string>, edits: seq<ConceptEdit>)
    requires ConceptsWellFormed(concepts)
    ensures ConceptsWellFormed(ApplyEdits(concepts, edits))
    decreases |edits|
  {
    if edits != [] {
      if edits[0].Remove? { RemoveKeepsWellFormed(concepts, edits[0].concept); }
      EditsKeepWellFormed(ApplyEdit(concepts, edits[0]), edits[1..]);
    }
  }

  /** The submit guard of `handleSubmit`: a non-empty topic and at least one concept. */
  predicate CanSubmit(data: VideoRequirements) {
    data.topic != "" && |data.concepts| > 0
  }

  /** The submit button's `disabled` attribute. */
  function SubmitDisabled(data: VideoRequirements): (r: bool)
    ensures r <==> !CanSubmit(data)
  {
    |data.topic| == 0 || |data.concepts| == 0
  }

  /** The eight preset topic buttons. */
  const PresetTopics: seq<string> := [
    "Mathematical Spirals in Nature",
    "Calculus: Derivatives and Integrals",
    "Linear Algebra: Matrix Transformations",
    "Physics: Wave Mechanics",
    "Statistics: Probability Distributions",
    "Geometry: Pythagorean Theorem",
    "Number Theory: Prime Numbers",
    "Trigonometry: Unit Circle"
  ]

  /** The form's initial state. */
  const InitialRequirements: VideoRequirements := VideoRequirements(
    "", HighSchool, 3, TwoDAnimated, [], "",
    Customizations(Professional, false, true, false))

  /** The three check boxes of the customisation panel. */
  datatype Flag = IncludeSubtitles | IncludeNarration | BackgroundMusic

  function SetFlagIn(c: Customizations, flag: Flag, value: bool): (r: Customizations)
    ensures r.colorScheme == c.colorScheme
    ensures r.includeSubtitles == (if flag == IncludeSubtitles then value else c.includeSubtitles)
    ensures r.includeNarration == (if flag == IncludeNarration then value else c.includeNarration)
    ensures r.backgroundMusic == (if flag == BackgroundMusic then value else c.backgroundMusic)
  {
    match flag
    case IncludeSubtitles => c.(includeSubtitles := value)
    case IncludeNarration => c.(includeNarration := value)
    case BackgroundMusic => c.(backgroundMusic := value)
  }

  class Form {
    var formData: VideoRequirements
    var newConcept: string

    ghost predicate Valid()
      reads this
    {
      ConceptsWellFormed(formData.concepts)
    }

    constructor ()
      ensures Valid()
      ensures formData == InitialRequirements && newConcept == ""
    {
      formData := InitialRequirements;
      newConcept := "";
    }

    /** `handleSubmit`: hands the record to `onSubmit` exactly when the guard holds. */
    method HandleSubmit() returns (submitted: Option<VideoRequirements>)
      ensures submitted.Some? <==> CanSubmit(formData)
      ensures submitted.Some? ==> submitted.value == formData
    {
      if formData.topic != "" && |formData.concepts| > 0 {
        submitted := Some(formData);
      } else {
        submitted := None;
      }
    }

    /** `addConcept`: appends the trimmed input and clears the field, or changes nothing. */
    method AddConcept()
      requires Valid()
      modifies this
      ensures Valid()
      ensures formData == old(formData).(concepts := AddConceptTo(old(formData.concepts), old(newConcept)))
      ensures newConcept == if Accepts(old(formData.concepts), old(newConcept)) then "" else old(newConcept)
    {
      var t := Trim(newConcept);
      ghost var added := AddConceptTo(formData.concepts, newConcept);
      if t != "" && t !in formData.concepts {
        assert added == formData.concepts + [t];
        formData := formData.(concepts := formData.concepts + [t]);
        newConcept := "";
      }
    }

    /** `removeConcept(c)`: only the concept list changes. */
    method RemoveConcept(c: string)
      requires Valid()
      modifies this
      ensures Valid()
      ensures formData == old(formData).(concepts := RemoveConceptFrom(old(formData.concepts), c))
      ensures newConcept == old(newConcept)
    {
      RemoveKeepsWellFormed(formData.concepts, c);
      formData := formData.(concepts := RemoveConceptFrom(formData.concepts, c));
    }

    /** Typing in the concept field. */
    method SetNewConcept(text: string)
      modifies this
      ensures formData == old(formData) && newConcept == text
    {
      newConcept := text;
    }

    /** Typing in the topic field. */
    method SetTopic(topic: string)
      requires Valid()
      modifies this
      ensures Valid()
      ensures formData == old(formData).(topic := topic) && newConcept == old(newConcept)
    {
      formData := formData.(topic := topic);
    }

    /** Clicking preset button `i` sets the topic to exactly that preset. */
    method SelectPreset(i: nat)
      requires Valid() && i < |PresetTopics|
      modifies this
      ensures Valid()
      ensures formData == old(formData).(topic := PresetTopics[i]) && newConcept == old(newConcept)
    {
      formData := formData.(topic := PresetTopics[i]);
    }

    method SetLevel(level: Level)
      requires Valid()
      modifies this
      ensures Valid()
      ensures formData == old(formData).(level := level) && newConcept == old(newConcept)
    {
      formData := formData.(level := level);
    }

    method SetDuration(duration: int)
      requires Valid()
      modifies this
      ensures Valid()
      ensures formData == old(formData).(duration := duration) && newConcept == old(newConcept)
    {
      formData := formData.(duration := duration);
    }

    method SetStyle(style: Style)
      requires Valid()
      modifies this
      ensures Valid()
      ensures formData == old(formData).(style := style) && newConcept == old(newConcept)
    {
      formData := formData.(style := style);
    }

    method SetDescription(description: string)
      requires Valid()
      modifies this
      ensures Valid()
      ensures formData == old(formData).(description := description) && newConcept == old(newConcept)
    {
      formData := formData.(description := description);
    }

    method SetColorScheme(scheme: ColorScheme)
      requires Valid()
      modifies this
      ensures Valid()
      ensures formData == old(formData).(customizations := old(formData.customizations).(colorScheme := scheme))
      ensures newConcept == old(newConcept)
    {
      formData := formData.(customizations := formData.customizations.(colorScheme := scheme));
    }

    /** Toggling one of the three check boxes. */
    method SetFlag(flag: Flag, value: bool)
      requires Valid()
      modifies this
      ensures Valid()
      ensures formData == old(formData).(customizations := SetFlagIn(old(formData.customizations), flag, value))
      ensures newConcept == old(newConcept)
    {
      formData := formData.(customizations := SetFlagIn(formData.customizations, flag, value));
    }
  }
}
