/**
 * Exporting the session's records (TelegramBotProcessing/Output.cs). The JSON
 * serializer is outside this model and is passed in as `jsonWrite`.
 */
module Output {
  import opened Wrappers
  import opened CultObjectProcessing
  import opened CsvProcessing
  import opened FileTypes
  import opened Prompts
  import opened Sessions
  import opened MenuKeyBoards

  /** `FileName + FileType?.ToString().ToLower()`, a null part contributing nothing. */
  function ExportName(s: SessionState): string
  {
    s.fileName.GetOr("") + (if s.fileType.Some? then Extension(s.fileType.value) else "")
  }

  /** What `SendFile` writes for the export choice `kind`: CSV for "CSV", JSON for anything else. */
  function ExportContent(objects: seq<CultObject>, kind: string, jsonWrite: seq<CultObject> -> string): string
  {
    if kind == CsvLabel then Document(objects) else jsonWrite(objects)
  }

  function SendFileStep(s: SessionState, objects: Option<seq<CultObject>>, kind: string,
                        jsonWrite: seq<CultObject> -> string): Outcome
  {
    if objects.None? then Outcome(s, [Say(NoData, NoMarkup), GetMenu()])
    else Outcome(s.(fileUpload := false), [SendDocument(ExportName(s), ExportContent(objects.value, kind, jsonWrite))])
  }

  method SendFile(data: FileData, objects: Option<seq<CultObject>>, kind: string,
                  jsonWrite: seq<CultObject> -> string) returns (replies: seq<Prompt>)
    modifies data
    ensures Outcome(data.State(), replies) == SendFileStep(old(data.State()), objects, kind, jsonWrite)
  {
    if objects.None? {
      replies := [Say(NoData, NoMarkup), GetMenu()];
      return;
    }
    var content: string;
    if kind == CsvLabel {
      content := Write(objects.value);
    } else {
      content := jsonWrite(objects.value);
    }
    replies := [SendDocument(ExportName(data.State()), content)];
    data.fileUpload := false;
  }

  /**
   * Without records nothing is sent but the notice and the menu, and
   * FileUpload stays as it was; with records exactly one document is sent and
   * FileUpload becomes false, nothing else changing.
   */
  lemma {:induction false} SendFileEffect(s: SessionState, objects: Option<seq<CultObject>>, kind: string,
                       jsonWrite: seq<CultObject> -> string)
    ensures var o := SendFileStep(s, objects, kind, jsonWrite);
      if objects.None? then o.state == s && forall p :: p in o.replies ==> !p.SendDocument?
      else !o.state.fileUpload && o.state.(fileUpload := s.fileUpload) == s &&
           |o.replies| == 1 && o.replies[0].SendDocument? && o.replies[0].fileName == ExportName(s) &&
           o.replies[0].content == (if kind == CsvLabel then Document(objects.value) else jsonWrite(objects.value))
  {
  }

  /** A CSV export of records free of ';' and '\n' reads back as the very same records. */
  lemma {:induction false} CsvExportReadsBack(s: SessionState, objects: seq<CultObject>, jsonWrite: seq<CultObject> -> string)
    requires |objects| >= 1 && forall k :: 0 <= k < |objects| ==> Writable(objects[k])
    ensures var o := SendFileStep(s, Some(objects), CsvLabel, jsonWrite);
      ParseLines(Lines(o.replies[0].content)) == Some(objects)
  {
    RoundTrip(objects);
  }
}
