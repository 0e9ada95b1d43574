/** The tonality selector's multi-select: `handleToggle` is the
    filter-or-append toggle of `SeqUtil.Toggle` applied to the selection. */
module TonalitySelector {
  import SeqUtil
  import ChordGrammar

  /** A selection the selector can produce: common tonality names, each at
      most once. */
  predicate IsSelection(selected: seq<string>) {
    && SeqUtil.Distinct(selected)
    && forall i :: 0 <= i < |selected| ==> selected[i] in ChordGrammar.COMMON_TONALITIES
  }

  /** The selector starts from the empty selection. */
  lemma EmptyIsSelection()
    ensures IsSelection([])
  {
  }

  /** Clicking one of the offered tonalities keeps a selection a selection. */
  lemma ToggleKeepsSelection(selected: seq<string>, tonality: string)
    requires IsSelection(selected)
    requires tonality in ChordGrammar.COMMON_TONALITIES
    ensures IsSelection(SeqUtil.Toggle(selected, tonality))
  {
    SeqUtil.ToggleKeepsDistinct(selected, tonality);
    var r := SeqUtil.Toggle(selected, tonality);
    forall i | 0 <= i < |r| ensures r[i] in ChordGrammar.COMMON_TONALITIES {
      if r[i] != tonality {
        assert r[i] in selected;
      }
    }
  }
}
