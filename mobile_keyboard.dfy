/** The mobile chord keyboard: a list of chord buttons, and an overlay
    keyboard that builds one triad and either replaces the chord it was
    opened on or appends a new one. */
module MobileKeyboard {
  import opened Wrappers
  import opened ChordGrammar
  import Triad
  import ChordList

  /** Every chord in the list is accepted by `validateChord`. */
  predicate AllValid(chords: seq<string>) {
    forall i :: 0 <= i < |chords| ==> ValidateChord(chords[i]).isValid
  }

  class Keyboard {
    var chords: seq<string>
    const disabled: bool
    const maxChords: nat
    var isOpen: bool
    var editingIndex: Option<nat>
    var builder: Triad.Builder

    /** A chord is only ever edited while the keyboard is open, and the
        index it edits is a slot of the list. */
    ghost predicate Valid()
      reads this
    {
      editingIndex.Some? ==> isOpen && editingIndex.value < |chords|
    }

    constructor(chords: seq<string>, disabled: bool, maxChords: nat)
      ensures this.chords == chords && this.disabled == disabled && this.maxChords == maxChords
      ensures !isOpen && editingIndex == None && builder == Triad.DEFAULT_BUILDER
      ensures Valid()
    {
      this.chords := chords;
      this.disabled := disabled;
      this.maxChords := maxChords;
      isOpen := false;
      editingIndex := None;
      builder := Triad.DEFAULT_BUILDER;
    }

    /** `handleOpenKeyboard(index?)`: nothing happens while disabled. Opened on
        a chord, the keyboard edits it and loads its builder if the chord
        parses, keeping the previous builder if it does not; opened for a new
        chord, it starts from C ♮ major. */
    method OpenKeyboard(index: Option<nat>)
      requires Valid()
      requires index.Some? ==> index.value < |chords|
      modifies this
      ensures chords == old(chords)
      ensures disabled ==> isOpen == old(isOpen) && editingIndex == old(editingIndex) && builder == old(builder)
      ensures !disabled ==> isOpen && editingIndex == index
      ensures !disabled ==> builder == match index
                                      case None => Triad.DEFAULT_BUILDER
                                      case Some(i) => Triad.Parse(chords[i]).GetOr(old(builder))
      ensures Valid()
    {
      if disabled {
        return;
      }
      if index.Some? {
        editingIndex := index;
        var parsed := Triad.Parse(chords[index.value]);
        if parsed.Some? {
          builder := parsed.value;
        }
      } else {
        editingIndex := None;
        builder := Triad.DEFAULT_BUILDER;
      }
      isOpen := true;
    }

    /** `handleCloseKeyboard` */
    method CloseKeyboard()
      modifies this
      ensures !isOpen && editingIndex == None
      ensures chords == old(chords) && builder == old(builder)
      ensures Valid()
    {
      isOpen := false;
      editingIndex := None;
    }

    /** `handleConfirmChord`: the built chord replaces the edited slot, or is
        appended when the keyboard was opened for a new chord and there is
        room; either way the keyboard closes. Every chord the keyboard
        writes is valid, so a valid list stays valid. */
    method ConfirmChord()
      requires Valid() && isOpen
      modifies this
      ensures chords == match old(editingIndex)
                        case Some(i) => ChordList.ReplaceAt(old(chords), i, Triad.Build(builder))
                        case None => ChordList.AppendIfRoom(old(chords), maxChords, Triad.Build(builder))
      ensures old(editingIndex).Some? ==> |chords| == |old(chords)|
      ensures |old(chords)| <= maxChords ==> |chords| <= maxChords
      ensures AllValid(old(chords)) ==> AllValid(chords)
      ensures !isOpen && editingIndex == None && builder == old(builder)
      ensures Valid()
    {
      var chordSymbol := Triad.Build(builder);
      Triad.BuildIsValidChord(builder);
      ghost var before := chords;
      if editingIndex.Some? {
        chords := ChordList.ReplaceAt(chords, editingIndex.value, chordSymbol);
      } else {
        chords := ChordList.AppendIfRoom(chords, maxChords, chordSymbol);
      }
      if AllValid(before) {
        forall j | 0 <= j < |chords| ensures ValidateChord(chords[j]).isValid {
          if j < |before| && (editingIndex.None? || j != editingIndex.value) {
            if editingIndex.None? {
              assert chords[..|before|][j] == before[j];
            }
            assert chords[j] == before[j];
          } else {
            assert chords[j] == chordSymbol;
          }
        }
      }
      CloseKeyboard();
    }

    /** `handleRemoveChord(index)`, reachable only from a chord's remove
        button: drawn when the keyboard is enabled and more than one chord
        is left, and covered by the overlay while the keyboard is open. */
    method RemoveChord(index: nat)
      requires Valid() && !isOpen && !disabled && |chords| > 1
      modifies this
      ensures chords == ChordList.RemoveAt(old(chords), index)
      ensures |chords| >= 1
      ensures AllValid(old(chords)) ==> AllValid(chords)
      ensures isOpen == old(isOpen) && editingIndex == old(editingIndex) && builder == old(builder)
      ensures Valid()
    {
      chords := ChordList.RemoveAt(chords, index);
    }

    /** `handleBuilderChange(updates)`: the keyboard's note, accidental and
        type buttons. */
    method BuilderChange(update: Triad.BuilderUpdate)
      requires Valid() && isOpen
      modifies this
      ensures builder == Triad.Merge(old(builder), update)
      ensures chords == old(chords) && isOpen && editingIndex == old(editingIndex)
      ensures Valid()
    {
      builder := Triad.Merge(builder, update);
    }
  }
}
