/** Bounded editing of a chord progression, as the text chord input and the
    visual chord input do it (their list handlers are identical): replace a
    slot, append an empty slot while there is room, remove a slot while more
    than one is left. Also the visual input's per-slot chord selector. */
module ChordList {
  import opened Wrappers
  import opened ChordGrammar
  import Triad

  /** `maxChords` when the caller gives none. */
  const DEFAULT_MAX_CHORDS: nat := 12

  // ---------------------------------------------------------------------------
  // The list operations

  /** `newChords = [...chords]; newChords[index] = value`: exactly position
      `index` changes. */
  function ReplaceAt<T>(s: seq<T>, index: nat, value: T): (r: seq<T>)
    requires index < |s|
    ensures |r| == |s| && r[index] == value
    ensures forall j :: 0 <= j < |s| && j != index ==> r[j] == s[j]
  {
    s[..index] + [value] + s[index + 1..]
  }

  /** `s.filter((_, i) => i !== index)`: the element at `index`, if there is
      one, is dropped and every later element moves down by one. */
  function RemoveAt<T>(s: seq<T>, index: nat): (r: seq<T>)
    ensures |r| == if index < |s| then |s| - 1 else |s|
    ensures forall j :: 0 <= j < |r| && j < index ==> r[j] == s[j]
    ensures forall j :: index <= j < |r| ==> r[j] == s[j + 1]
  {
    if s == [] then []
    else if index == 0 then s[1..]
    else [s[0]] + RemoveAt(s[1..], index - 1)
  }

  /** `if (chords.length < maxChords) onChange([...chords, value])` */
  function AppendIfRoom<T>(s: seq<T>, maxChords: nat, value: T): (r: seq<T>)
    ensures |s| < maxChords ==> |r| == |s| + 1 && r[..|s|] == s && r[|s|] == value
    ensures |s| >= maxChords ==> r == s
  {
    if |s| < maxChords then s + [value] else s
  }

  /** One user action on the list. */
  datatype Edit = Change(index: nat, value: string) | Add | Remove(index: nat)

  /** The list after one action: `handleChordChange`, `addChord` (an empty
      slot) or `removeChord` (only while more than one slot is left). */
  function Step(chords: seq<string>, maxChords: nat, e: Edit): (r: seq<string>)
    requires e.Change? ==> e.index < |chords|
  {
    match e
    case Change(i, v) => ReplaceAt(chords, i, v)
    case Add => AppendIfRoom(chords, maxChords, "")
    case Remove(i) => if |chords| > 1 then RemoveAt(chords, i) else chords
  }

  /** One action keeps the number of slots between one and `maxChords`. */
  lemma StepKeepsBounds(chords: seq<string>, maxChords: nat, e: Edit)
    requires 1 <= |chords| <= maxChords
    requires e.Change? ==> e.index < |chords|
    ensures 1 <= |Step(chords, maxChords, e)| <= maxChords
  {
  }

  /** A run of actions; `None` if some `Change` names a slot the list does
      not have (the components only ever name rendered slots). */
  function ApplyEdits(chords: seq<string>, maxChords: nat, edits: seq<Edit>): (r: Option<seq<string>>)
    decreases |edits|
  {
    if edits == [] then Some(chords)
    else if edits[0].Change? && edits[0].index >= |chords| then None
    else ApplyEdits(Step(chords, maxChords, edits[0]), maxChords, edits[1..])
  }

  /** Starting from between one and `maxChords` slots, any run of actions
      keeps the count in that range. */
  lemma {:induction false} EditsKeepBounds(chords: seq<string>, maxChords: nat, edits: seq<Edit>)
    requires 1 <= |chords| <= maxChords
    ensures ApplyEdits(chords, maxChords, edits).Some? ==>
              1 <= |ApplyEdits(chords, maxChords, edits).value| <= maxChords
    decreases |edits|
  {
    if edits != [] && !(edits[0].Change? && edits[0].index >= |chords|) {
      StepKeepsBounds(chords, maxChords, edits[0]);
      EditsKeepBounds(Step(chords, maxChords, edits[0]), maxChords, edits[1..]);
    }
  }

  // ---------------------------------------------------------------------------
  // Display of a slot in the text input

  /** `!validation.isValid && chord.trim()`: the error border, the message
      and the suggestions are shown. */
  predicate ShowsError(chord: string) {
    !ValidateChord(chord).isValid && Trim(chord) != []
  }

  /** The error display appears exactly for non-blank text that is not a
      chord, always with the message 'Invalid chord format' and suggestions;
      a blank slot looks neutral. */
  lemma ShowsErrorIffInvalidText(chord: string)
    ensures ShowsError(chord) <==> Trim(chord) != [] && !IsChordSymbol(Trim(chord))
    ensures ShowsError(chord) ==>
              ValidateChord(chord).message == Some(INVALID_MESSAGE) && ValidateChord(chord).suggestions.Some?
  {
  }

  // ---------------------------------------------------------------------------
  // The list as the components hold it

  class ChordListEditor {
    var chords: seq<string>
    const maxChords: nat

    ghost predicate Valid()
      reads this
    {
      1 <= |chords| <= maxChords
    }

    /** An editor over a progression that is within the bounds the editing
        keeps. */
    constructor(chords: seq<string>, maxChords: nat)
      requires 1 <= |chords| <= maxChords
      ensures this.chords == chords && this.maxChords == maxChords
      ensures Valid()
    {
      this.chords := chords;
      this.maxChords := maxChords;
    }

    /** `handleChordChange(index, value)` */
    method HandleChordChange(index: nat, value: string)
      requires index < |chords|
      modifies this
      ensures chords == Step(old(chords), maxChords, Change(index, value))
      ensures old(Valid()) ==> Valid()
    {
      chords := chords[index := value];
    }

    /** `addChord` */
    method AddChord()
      modifies this
      ensures chords == Step(old(chords), maxChords, Add)
      ensures old(Valid()) ==> Valid()
    {
      if |chords| < maxChords {
        chords := chords + [""];
      }
    }

    /** `removeChord(index)` */
    method RemoveChord(index: nat)
      modifies this
      ensures chords == Step(old(chords), maxChords, Remove(index))
      ensures old(Valid()) ==> Valid()
    {
      if |chords| > 1 {
        chords := RemoveAt(chords, index);
      }
    }

    /** A click on the `k`-th suggestion shown under slot `index` puts that
      suggestion in the slot verbatim, and the slot then holds a valid
      chord. */
    method ApplySuggestion(index: nat, k: nat)
      requires index < |chords| && ShowsError(chords[index])
      requires k < |ValidateChord(chords[index]).suggestions.value|
      modifies this
      ensures chords == old(chords)[index := ValidateChord(old(chords)[index]).suggestions.value[k]]
      ensures ValidateChord(chords[index]).isValid
    {
      ShowsErrorIffInvalidText(chords[index]);
      var suggestion := ValidateChord(chords[index]).suggestions.value[k];
      SuggestionsAreValid(chords[index]);
      HandleChordChange(index, suggestion);
    }
  }

  // ---------------------------------------------------------------------------
  // The visual input's chord selector

  /** `parseChordSymbol(value) || { note: 'C', accidental: '♮', type: major }`:
      the builder a slot shows. */
  function SelectorBuilder(value: string): Triad.Builder {
    Triad.Parse(value).GetOr(Triad.DEFAULT_BUILDER)
  }

  /** A slot holding a built chord shows the builder it was built from; a
      slot whose text does not parse (the empty slot among them) shows
      C ♮ major. */
  lemma SelectorShowsBuiltChord(b: Triad.Builder, value: string)
    ensures SelectorBuilder(Triad.Build(b)) == b
    ensures Triad.Parse(value).None? ==> SelectorBuilder(value) == Triad.Builder(Triad.C, Triad.Natural, Triad.Major)
    ensures SelectorBuilder("") == Triad.DEFAULT_BUILDER
  {
    Triad.ParseBuild(b);
  }

  class ChordSelector {
    var isOpen: bool
    const disabled: bool

    constructor(disabled: bool)
      ensures !isOpen && this.disabled == disabled
    {
      isOpen := false;
      this.disabled := disabled;
    }

    /** The chord button: `!disabled && setIsOpen(!isOpen)`. */
    method ToggleOpen()
      modifies this
      ensures isOpen == if disabled then old(isOpen) else !old(isOpen)
    {
      if !disabled {
        isOpen := !isOpen;
      }
    }

    /** The backdrop behind the open panel. */
    method CloseFromBackdrop()
      requires isOpen
      modifies this
      ensures !isOpen
    {
      isOpen := false;
    }

    /** `handleBuilderChange`: emits the chord built from the slot's builder
      with the update applied, which reads back as that builder and is a
      valid chord. Choosing a type closes the panel (the 200 ms delay is
      taken as immediate); choosing a note or an accidental leaves it open. */
    method HandleBuilderChange(value: string, update: Triad.BuilderUpdate) returns (emitted: string)
      requires isOpen && !disabled
      modifies this
      ensures emitted == Triad.Build(Triad.Merge(SelectorBuilder(value), update))
      ensures Triad.Parse(emitted) == Some(Triad.Merge(SelectorBuilder(value), update))
      ensures ValidateChord(emitted).isValid
      ensures isOpen <==> update.chordType.None?
    {
      var updated := Triad.Merge(SelectorBuilder(value), update);
      emitted := Triad.Build(updated);
      Triad.ParseBuild(updated);
      Triad.BuildIsValidChord(updated);
      if update.chordType.Some? {
        isOpen := false;
      }
    }
  }
}
