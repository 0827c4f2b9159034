/** The two supported formats (TelegramBotProcessing/FileType.cs). */
module FileTypes {
  import opened StringUtil

  datatype FileType = Json | Csv

  /** The enum member's name, as `ToString()` gives it. */
  function Name(t: FileType): string
  {
    match t
    case Json => "Json"
    case Csv => "Csv"
  }

  /** `FileType.ToString().ToLower()`: used to accept uploads and to name exports. */
  function Extension(t: FileType): (e: string)
    ensures |e| == |Name(t)| > 0
  {
    ToLower(Name(t))
  }

  lemma {:induction false} ExtensionValues()
    ensures Extension(Json) == "json"
    ensures Extension(Csv) == "csv"
  {
    assert LowerChar('J') == 'j' && LowerChar('C') == 'c';
    assert ToLower("Json") == "json";
    assert ToLower("Csv") == "csv";
  }

  /** Each format has its own extension, and every extension is a non-empty pattern free of '.'. */
  lemma {:induction false} ExtensionDistinguishes(a: FileType, b: FileType)
    ensures |Extension(a)| > 0 && '.' !in Extension(a)
    ensures Extension(a) == Extension(b) <==> a == b
  {
    ExtensionValues();
  }
}
