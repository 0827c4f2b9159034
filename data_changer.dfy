/**
 * The sort flow and the one- and two-stage filter flows
 * (TelegramBotProcessing/DataChanger.cs). Each handler is specified by a
 * `…Step` function from the old session to the new session and the prompts
 * sent; the method mutates a `FileData` exactly as that function says.
 */
module DataChanger {
  import opened Wrappers
  import opened CultObjectProcessing
  import opened Filter
  import opened FilterProcessing
  import opened Sort
  import opened Prompts
  import opened Sessions
  import opened MenuKeyBoards
  import opened SessionInvariant

  // ---------------------------------------------------------------------
  // Specification of the handlers
  // ---------------------------------------------------------------------

  function SortStep(s: SessionState, input: string): Outcome
  {
    if s.records.None? then Outcome(s, [Say(NoData, NoMarkup), GetMenu()])
    else if input == AscendingLabel then
      Outcome(s.(records := Some(SortByObjectNameOnDoc(s.records.value, true)), sortMode := false), [GetMenu()])
    else if input == DescendingLabel then
      Outcome(s.(records := Some(SortByObjectNameOnDoc(s.records.value, false)), sortMode := false), [GetMenu()])
    else Outcome(s, [SortIsReverse()])
  }

  /** "Такого значения не существует!", then the same variants again. */
  function RejectStep(s: SessionState, variants: seq<string>): Outcome
  {
    var o := FieldVariantsStep(s, variants);
    Outcome(o.state, [Say(NoSuchValue, NoMarkup)] + o.replies)
  }

  function FilterFieldStep(s: SessionState, input: string): Outcome
    requires s.records.Some?
  {
    if input == StatusLabel || input == ObjectTypeLabel then
      FieldVariantsStep(s.(filterField := Some(input), isTwoFields := false), Variants(input, s.records.value))
    else if input == StatusAndCategoryLabel then
      FieldVariantsStep(s.(filterField := Some(input), isTwoFields := true), Variants(SecurityStatusKey, s.records.value))
    else Outcome(s, [MenuKeyBoards.FilterField()])
  }

  /** Stage 1 of the two-field flow: a SecurityStatus value. */
  function StatusStageStep(s: SessionState, input: string): Outcome
    requires s.records.Some?
  {
    var xs := s.records.value;
    if input !in Variants(SecurityStatusKey, xs) then RejectStep(s, Variants(SecurityStatusKey, xs))
    else
      var narrowed := FilterByField(xs, SecurityStatusKey, input);
      FieldVariantsStep(s.(firstFilterVar := Some(input), records := Some(narrowed)),
                        Variants(CategoryKey, narrowed))
  }

  /** Stage 2 of the two-field flow: a Category value. */
  function CategoryStageStep(s: SessionState, input: string): Outcome
    requires s.records.Some?
  {
    var xs := s.records.value;
    if input !in Variants(CategoryKey, xs) then RejectStep(s, Variants(CategoryKey, xs))
    else
      Outcome(s.(records := Some(FilterByField(xs, CategoryKey, input)), filterMode := false,
                 filterField := None, firstFilterVar := None, secondFilterVar := None),
              [GetMenu()])
  }

  function TwoFilterFieldStep(s: SessionState, input: string): Outcome
    requires s.records.Some?
  {
    if s.firstFilterVar.None? then StatusStageStep(s, input) else CategoryStageStep(s, input)
  }

  function OneFilterFieldStep(s: SessionState, input: string): Outcome
    requires s.records.Some? && s.filterField.Some?
  {
    var xs := s.records.value;
    var field := s.filterField.value;
    if input !in Variants(field, xs) then RejectStep(s, Variants(field, xs))
    else
      Outcome(s.(records := Some(FilterByField(xs, field, input)), filterMode := false,
                 filterField := None, firstFilterVar := None),
              [GetMenu()])
  }

  function FilterStep(s: SessionState, input: string): Outcome
  {
    if s.records.None? then Outcome(s, [Say(NoData, NoMarkup), GetMenu()])
    else if s.filterField.None? then FilterFieldStep(s, input)
    else if s.isTwoFields then TwoFilterFieldStep(s, input)
    else OneFilterFieldStep(s, input)
  }

  // ---------------------------------------------------------------------
  // The handlers
  // ---------------------------------------------------------------------

  method HandleSort(data: FileData, input: string) returns (replies: seq<Prompt>)
    modifies data
    ensures Outcome(data.State(), replies) == SortStep(old(data.State()), input)
  {
    if data.records.None? {
      replies := [Say(NoData, NoMarkup), GetMenu()];
      return;
    }
    if input == AscendingLabel {
      data.records := Some(SortByObjectNameOnDoc(data.records.value, true));
      data.sortMode := false;
      replies := [GetMenu()];
    } else if input == DescendingLabel {
      data.records := Some(SortByObjectNameOnDoc(data.records.value, false));
      data.sortMode := false;
      replies := [GetMenu()];
    } else {
      replies := [SortIsReverse()];
    }
  }

  method HandleFilter(data: FileData, input: string) returns (replies: seq<Prompt>)
    modifies data
    ensures Outcome(data.State(), replies) == FilterStep(old(data.State()), input)
  {
    if data.records.None? {
      replies := [Say(NoData, NoMarkup), GetMenu()];
      return;
    }
    if data.filterField.None? {
      replies := FilterField(data, input);
    } else if data.isTwoFields {
      replies := TwoFilterField(data, input);
    } else {
      replies := OneFilterField(data, input);
    }
  }

  method FilterField(data: FileData, input: string) returns (replies: seq<Prompt>)
    requires data.records.Some?
    modifies data
    ensures Outcome(data.State(), replies) == FilterFieldStep(old(data.State()), input)
  {
    if input == StatusLabel || input == ObjectTypeLabel {
      data.filterField := Some(input);
      var variants := GetVariants(input, data.records.value);
      data.isTwoFields := false;
      replies := FieldVariants(data, variants);
    } else if input == StatusAndCategoryLabel {
      data.filterField := Some(input);
      var variants := GetVariants(SecurityStatusKey, data.records.value);
      data.isTwoFields := true;
      replies := FieldVariants(data, variants);
    } else {
      replies := [MenuKeyBoards.FilterField()];
    }
  }

  method TwoFilterField(data: FileData, input: string) returns (replies: seq<Prompt>)
    requires data.records.Some?
    modifies data
    ensures Outcome(data.State(), replies) == TwoFilterFieldStep(old(data.State()), input)
  {
    if data.firstFilterVar.None? {
      replies := StatusStage(data, input);
    } else {
      replies := CategoryStage(data, input);
    }
  }

  /** The first branch of `TwoFilterField`: the SecurityStatus value. */
  method StatusStage(data: FileData, input: string) returns (replies: seq<Prompt>)
    requires data.records.Some?
    modifies data
    ensures Outcome(data.State(), replies) == StatusStageStep(old(data.State()), input)
  {
    ghost var s := data.State();
    var xs := data.records.value;
    var statuses := GetVariants(SecurityStatusKey, xs);
    if input !in statuses {
      var again := GetVariants(SecurityStatusKey, xs);
      var shown := FieldVariants(data, again);
      replies := [Say(NoSuchValue, NoMarkup)] + shown;
      assert Outcome(data.State(), replies) == RejectStep(s, again);
      return;
    }
    var narrowed := FilterByField(xs, SecurityStatusKey, input);
    data.firstFilterVar := Some(input);
    data.records := Some(narrowed);
    assert data.State() == s.(firstFilterVar := Some(input), records := Some(narrowed));
    var categories := GetVariants(CategoryKey, data.records.value);
    replies := FieldVariants(data, categories);
  }

  /** The second branch of `TwoFilterField`: the Category value, which ends filtering. */
  method CategoryStage(data: FileData, input: string) returns (replies: seq<Prompt>)
    requires data.records.Some?
    modifies data
    ensures Outcome(data.State(), replies) == CategoryStageStep(old(data.State()), input)
  {
    ghost var s := data.State();
    var xs := data.records.value;
    var categories := GetVariants(CategoryKey, xs);
    if input !in categories {
      var again := GetVariants(CategoryKey, xs);
      var shown := FieldVariants(data, again);
      replies := [Say(NoSuchValue, NoMarkup)] + shown;
      assert Outcome(data.State(), replies) == RejectStep(s, again);
      return;
    }
    var narrowed := FilterByField(xs, CategoryKey, input);
    data.secondFilterVar := Some(input);
    data.records := Some(narrowed);
    data.filterMode := false;
    data.filterField := None;
    data.firstFilterVar := None;
    data.secondFilterVar := None;
    replies := [GetMenu()];
    assert data.State() == s.(records := Some(narrowed), filterMode := false, filterField := None,
                              firstFilterVar := None, secondFilterVar := None);
  }

  method OneFilterField(data: FileData, input: string) returns (replies: seq<Prompt>)
    requires data.records.Some? && data.filterField.Some?
    modifies data
    ensures Outcome(data.State(), replies) == OneFilterFieldStep(old(data.State()), input)
  {
    var variants := GetVariants(data.filterField.value, data.records.value);
    if input !in variants {
      var again := GetVariants(data.filterField.value, data.records.value);
      var shown := FieldVariants(data, again);
      replies := [Say(NoSuchValue, NoMarkup)] + shown;
      return;
    }
    data.firstFilterVar := Some(input);
    data.records := Some(FilterByField(data.records.value, data.filterField.value, input));
    data.filterMode := false;
    data.filterField := None;
    data.firstFilterVar := None;
    replies := [GetMenu()];
  }

  // ---------------------------------------------------------------------
  // Properties
  // ---------------------------------------------------------------------

  /**
   * In sort mode exactly the two labels of the sort keyboard are accepted:
   * they replace Records by the records sorted in the chosen direction and
   * leave sort mode; any other text changes nothing.
   */
  lemma {:induction false} SortStepEffect(s: SessionState, input: string)
    requires s.records.Some? && s.sortMode
    ensures var t := SortStep(s, input).state;
      (t != s <==> input in Offered(SortIsReverse())) &&
      (input in Offered(SortIsReverse()) ==>
         t.records.Some? && !t.sortMode && t.(records := s.records, sortMode := true) == s &&
         multiset(t.records.value) == multiset(s.records.value) &&
         Sorted(t.records.value, input == AscendingLabel))
  {
    KeyboardLabels();
  }

  /**
   * With no field chosen yet, exactly the three labels of the filter-field
   * keyboard change the session. The chosen label becomes FilterField, with
   * IsTwoFields set for the two-field label, and the values of the first
   * property to narrow by are offered; with no values the flow ends instead.
   */
  lemma {:induction false} FilterFieldStepEffect(s: SessionState, input: string)
    requires s.records.Some? && s.filterMode && s.filterField.None?
    ensures var o := FilterFieldStep(s, input);
      (o.state != s <==> input in Offered(MenuKeyBoards.FilterField())) &&
      (input in Offered(MenuKeyBoards.FilterField()) ==>
         var first := if input == StatusAndCategoryLabel then SecurityStatusKey else input;
         var vs := Variants(first, s.records.value);
         if |vs| == 0 then !o.state.filterMode && o.state.filterField.None?
         else o.state == s.(filterField := Some(input), isTwoFields := input == StatusAndCategoryLabel) &&
              Offered(o.replies[0]) == vs)
  {
    KeyboardLabels();
    if input in Offered(MenuKeyBoards.FilterField()) {
      var first := if input == StatusAndCategoryLabel then SecurityStatusKey else input;
      FieldVariantsEffect(s.(filterField := Some(input), isTwoFields := input == StatusAndCategoryLabel),
                          Variants(first, s.records.value));
    }
  }

  /** A value that is not among the offered ones is refused: the session is unchanged and the same values are offered again. */
  lemma {:induction false} RejectedValueKeepsState(s: SessionState, input: string)
    requires StateInv(s) && s.filterField.Some?
    requires input !in Variants(PendingField(s), s.records.value)
    ensures FilterStep(s, input).state == s
    ensures FilterStep(s, input).replies[0] == Say(NoSuchValue, NoMarkup)
    ensures Offered(FilterStep(s, input).replies[1]) == Variants(PendingField(s), s.records.value)
  {
    FieldVariantsEffect(s, Variants(PendingField(s), s.records.value));
  }

  /**
   * In the one-field flow an offered value narrows Records to the records
   * whose property has that value (never to nothing) and ends the flow;
   * IsTwoFields and everything else stay as they were.
   */
  lemma {:induction false} OneFieldAccepted(s: SessionState, v: string)
    requires StateInv(s) && s.filterField.Some? && !s.isTwoFields
    requires v in Variants(s.filterField.value, s.records.value)
    ensures var xs := s.records.value; var field := s.filterField.value;
      FilterStep(s, v) ==
        Outcome(s.(records := Some(FilterByField(xs, field, v)), filterMode := false,
                   filterField := None, firstFilterVar := None), [GetMenu()]) &&
      FilterByField(xs, field, v) != []
  {
    OfferedIffFilterNonEmpty(s.filterField.value, s.records.value, v);
  }

  /**
   * The two-stage flow: an offered SecurityStatus narrows Records and offers
   * the Category values of the narrowed records; an offered Category then
   * leaves exactly the original records having both values, in their
   * original order, and ends the flow.
   */
  lemma {:induction false} TwoStageNarrowsToBoth(s: SessionState, status: string, category: string)
    requires StateInv(s) && s.filterField == Some(StatusAndCategoryLabel) && s.firstFilterVar.None?
    requires status in Variants(SecurityStatusKey, s.records.value)
    ensures var xs := s.records.value;
      var narrowed := FilterByField(xs, SecurityStatusKey, status);
      var o := FilterStep(s, status);
      o.state == s.(firstFilterVar := Some(status), records := Some(narrowed)) &&
      Offered(o.replies[0]) == Variants(CategoryKey, narrowed) &&
      (category in Variants(CategoryKey, narrowed) ==>
         FilterStep(o.state, category).state ==
           s.(records := Some(BothMatch(xs, status, category)), filterMode := false, filterField := None))
  {
    var xs := s.records.value;
    var narrowed := FilterByField(xs, SecurityStatusKey, status);
    OfferedIffFilterNonEmpty(SecurityStatusKey, xs, status);
    NonEmptyOffersValues(CategoryKey, narrowed);
    FieldVariantsEffect(s.(firstFilterVar := Some(status), records := Some(narrowed)), Variants(CategoryKey, narrowed));
    StatusThenCategory(xs, status, category);
  }

  lemma {:induction false} SortStepKeepsInvariant(s: SessionState, input: string)
    requires StateInv(s) && s.sortMode
    ensures StateInv(SortStep(s, input).state)
  {
  }

  lemma {:induction false} FilterStepKeepsInvariant(s: SessionState, input: string)
    requires StateInv(s) && s.filterMode
    ensures StateInv(FilterStep(s, input).state)
  {
    if s.records.Some? && s.filterField.Some? && s.isTwoFields && s.firstFilterVar.None? {
      var xs := s.records.value;
      if input in Variants(SecurityStatusKey, xs) {
        OfferedIffFilterNonEmpty(SecurityStatusKey, xs, input);
        NonEmptyOffersValues(CategoryKey, FilterByField(xs, SecurityStatusKey, input));
      }
    }
  }

  /** Filtering keeps or drops records but never adds one. */
  lemma {:induction false} FilterKeepsOnlyOriginals(xs: seq<CultObject>, field: string, value: string)
    ensures multiset(FilterByField(xs, field, value)) <= multiset(xs)
  {
    if IsFilterKey(field) {
      FilterByFieldExact(xs, field, value);
    }
  }

  /**
   * A filter step leaves Records as a sub-multiset of what it was: the
   * filter flow can only narrow the loaded records.
   */
  lemma {:induction false} FilterStepNarrows(s: SessionState, input: string)
    ensures var t := FilterStep(s, input).state;
      t.records.Some? ==> s.records.Some? && multiset(t.records.value) <= multiset(s.records.value)
  {
    var t := FilterStep(s, input).state;
    if s.records.None? {
      assert t.records.None?;
    } else if s.filterField.None? {
      assert t.records == s.records;
    } else {
      var xs := s.records.value;
      var field := if !s.isTwoFields then s.filterField.value
                   else if s.firstFilterVar.None? then SecurityStatusKey else CategoryKey;
      FilterKeepsOnlyOriginals(xs, field, input);
      assert t.records == s.records || t.records == Some(FilterByField(xs, field, input));
    }
  }
}
