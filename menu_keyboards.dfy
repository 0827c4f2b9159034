/**
 * The reply keyboards (TelegramBotProcessing/MenuKeyBoards.cs). The four fixed
 * keyboards are constant prompts whose labels are the very constants the
 * handlers compare user input with; `FieldVariants` also aborts the filter
 * flow when there is nothing to offer.
 */
module MenuKeyBoards {
  import opened Wrappers
  import opened Prompts
  import opened Sessions

  // Labels of the file-type keyboard.
  const CsvLabel := "CSV"
  const JsonLabel := "JSON"
  // Labels of the main menu.
  const FilterLabel := "Произвести выборку"
  const SortLabel := "Отсортировать"
  const DownloadLabel := "Скачать"
  const NewFileLabel := "Загрузить новый файл"
  // Labels of the sort-order keyboard.
  const AscendingLabel := "Сортировать в прямом порядке"
  const DescendingLabel := "Сортировать в обратном порядке"
  // Labels of the filter-field keyboard.
  const StatusLabel := "SecurityStatus"
  const ObjectTypeLabel := "ObjectType"
  const StatusAndCategoryLabel := "SecurityStatus и Category"

  const ChooseFileType := "Выберите тип файла:"
  const ChooseMenuItem := "Выберите пункт меню:"
  const ChooseItem := "Выберите пункт:"

  function GetTypeOfFile(): Prompt
  {
    Say(ChooseFileType, Keyboard([[CsvLabel], [JsonLabel]]))
  }

  function GetMenu(): Prompt
  {
    Say(ChooseMenuItem, Keyboard([[FilterLabel], [SortLabel], [DownloadLabel], [NewFileLabel]]))
  }

  function SortIsReverse(): Prompt
  {
    Say(ChooseItem, Keyboard([[AscendingLabel], [DescendingLabel]]))
  }

  function FilterField(): Prompt
  {
    Say(ChooseItem, Keyboard([[StatusLabel], [ObjectTypeLabel], [StatusAndCategoryLabel]]))
  }

  /** The labels each fixed keyboard offers, in order. */
  lemma {:induction false} KeyboardLabels()
    ensures Offered(GetTypeOfFile()) == [CsvLabel, JsonLabel]
    ensures Offered(GetMenu()) == [FilterLabel, SortLabel, DownloadLabel, NewFileLabel]
    ensures Offered(SortIsReverse()) == [AscendingLabel, DescendingLabel]
    ensures Offered(FilterField()) == [StatusLabel, ObjectTypeLabel, StatusAndCategoryLabel]
  {
    assert Flatten([[CsvLabel], [JsonLabel]]) == [CsvLabel] + Flatten([[JsonLabel]]);
    assert Flatten([[NewFileLabel]]) == [NewFileLabel] + Flatten([]);
    assert Flatten([[DownloadLabel], [NewFileLabel]]) == [DownloadLabel] + Flatten([[NewFileLabel]]);
    assert Flatten([[SortLabel], [DownloadLabel], [NewFileLabel]])
        == [SortLabel] + Flatten([[DownloadLabel], [NewFileLabel]]);
    assert Flatten([[AscendingLabel], [DescendingLabel]]) == [AscendingLabel] + Flatten([[DescendingLabel]]);
    assert Flatten([[ObjectTypeLabel], [StatusAndCategoryLabel]])
        == [ObjectTypeLabel] + Flatten([[StatusAndCategoryLabel]]);
  }

  /** One-button rows, one per variant, in the given order. */
  function Column(variants: seq<string>): seq<seq<string>>
  {
    seq(|variants|, i requires 0 <= i < |variants| => [variants[i]])
  }

  lemma {:induction false} ColumnOffersVariants(variants: seq<string>)
    ensures Flatten(Column(variants)) == variants
    decreases |variants|
  {
    if |variants| > 0 {
      ColumnOffersVariants(variants[1..]);
      assert Column(variants)[1..] == Column(variants[1..]);
    }
  }

  /**
   * `FieldVariants`: with no variants the filter flow is abandoned (both
   * chosen values, FilterMode and FilterField cleared) and the menu shown;
   * otherwise the variants are offered and the session is left alone.
   */
  function FieldVariantsStep(s: SessionState, variants: seq<string>): Outcome
  {
    if |variants| == 0 then
      Outcome(s.(firstFilterVar := None, secondFilterVar := None, filterMode := false, filterField := None),
              [Say(NoValues, NoMarkup), GetMenu()])
    else
      Outcome(s, [Say(ChooseItem, Keyboard(Column(variants)))])
  }

  lemma {:induction false} FieldVariantsEffect(s: SessionState, variants: seq<string>)
    ensures var o := FieldVariantsStep(s, variants);
      if |variants| == 0 then
        !o.state.filterMode && o.state.filterField.None? &&
        o.state.firstFilterVar.None? && o.state.secondFilterVar.None? &&
        o.state.records == s.records && o.state.isTwoFields == s.isTwoFields &&
        o.state.(filterMode := s.filterMode, filterField := s.filterField,
                 firstFilterVar := s.firstFilterVar, secondFilterVar := s.secondFilterVar) == s &&
        o.replies[|o.replies| - 1] == GetMenu()
      else
        o.state == s && |o.replies| == 1 && Offered(o.replies[0]) == variants
  {
    if |variants| > 0 {
      ColumnOffersVariants(variants);
    }
  }

  /** Fills the `buttons` array, one single-button row per variant. */
  method VariantButtons(variants: seq<string>) returns (rows: seq<seq<string>>)
    ensures |rows| == |variants|
    ensures forall i :: 0 <= i < |variants| ==> rows[i] == [variants[i]]
  {
    var buttons := new seq<string>[|variants|];
    for i := 0 to |variants|
      invariant forall j :: 0 <= j < i ==> buttons[j] == [variants[j]]
    {
      buttons[i] := [variants[i]];
    }
    rows := buttons[..];
  }

  method FieldVariants(data: FileData, variants: seq<string>) returns (replies: seq<Prompt>)
    modifies data
    ensures Outcome(data.State(), replies) == FieldVariantsStep(old(data.State()), variants)
  {
    if |variants| == 0 {
      data.firstFilterVar := None;
      data.secondFilterVar := None;
      data.filterMode := false;
      data.filterField := None;
      replies := [Say(NoValues, NoMarkup), GetMenu()];
      return;
    }
    var rows := VariantButtons(variants);
    assert rows == Column(variants);
    replies := [Say(ChooseItem, Keyboard(rows))];
  }
}
