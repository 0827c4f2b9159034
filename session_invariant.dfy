/**
 * The condition every session satisfies between two events. Each handler
 * preserves it (see the `…KeepsInvariant` lemmas next to the handlers).
 */
module SessionInvariant {
  import opened Wrappers
  import opened CultObjectProcessing
  import opened FilterProcessing
  import opened Sessions
  import opened MenuKeyBoards

  /** The property whose values the open filter step offers. */
  function PendingField(s: SessionState): string
    requires s.filterField.Some?
  {
    if s.isTwoFields then (if s.firstFilterVar.None? then SecurityStatusKey else CategoryKey)
    else s.filterField.value
  }

  predicate IsFilterLabel(f: string)
  {
    f == StatusLabel || f == ObjectTypeLabel || f == StatusAndCategoryLabel
  }

  predicate StateInv(s: SessionState)
  {
    // a loaded file has records and a format
    (s.fileDownload ==> s.records.Some? && s.fileType.Some?) &&
    // the three modes need a loaded file, and at most one is active
    (s.sortMode || s.filterMode || s.fileUpload ==> s.fileDownload) &&
    !(s.sortMode && s.filterMode) && !(s.sortMode && s.fileUpload) && !(s.filterMode && s.fileUpload) &&
    // filter fields are set only inside the filter flow
    s.secondFilterVar.None? &&
    (s.firstFilterVar.Some? ==> s.filterField == Some(StatusAndCategoryLabel)) &&
    (s.filterField.Some? ==>
       s.filterMode && IsFilterLabel(s.filterField.value) &&
       (s.isTwoFields <==> s.filterField.value == StatusAndCategoryLabel) &&
       |Variants(PendingField(s), s.records.value)| > 0)
  }

  lemma {:induction false} FreshSatisfiesInvariant(s: SessionState)
    ensures StateInv(Fresh)
    ensures StateInv(Reset(s))
  {
  }

  /** The field whose values the open step offers is a filter key. */
  lemma {:induction false} PendingFieldIsKey(s: SessionState)
    requires StateInv(s) && s.filterField.Some?
    ensures IsFilterKey(PendingField(s))
  {
  }
}
