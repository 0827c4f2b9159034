/**
 * The per-chat session (TelegramBotProcessing/FileData.cs). Every nullable
 * property is an `Option`; `State()` reads the eleven properties as one value
 * so that handlers can be specified as functions from state to state.
 */
module Sessions {
  import opened Wrappers
  import opened CultObjectProcessing
  import opened FileTypes
  import opened Prompts

  datatype SessionState = SessionState(
    fileType: Option<FileType>,
    records: Option<seq<CultObject>>,
    fileName: Option<string>,
    filterMode: bool,
    sortMode: bool,
    fileDownload: bool,
    filterField: Option<string>,
    isTwoFields: bool,
    firstFilterVar: Option<string>,
    secondFilterVar: Option<string>,
    fileUpload: bool)

  /** What one handler leaves behind: the new session and the prompts it sent, in order. */
  datatype Outcome = Outcome(state: SessionState, replies: seq<Prompt>)

  /** A `new FileData()`: every reference property null, every flag false. */
  const Fresh := SessionState(None, None, None, false, false, false, None, false, None, None, false)

  /** The state `UpdateUserInfo` leaves: a fresh session that remembers the last file name. */
  function Reset(s: SessionState): SessionState
  {
    Fresh.(fileName := s.fileName)
  }

  lemma {:induction false} ResetForgetsAllButFileName(s: SessionState)
    ensures Reset(s).fileName == s.fileName
    ensures Reset(s).records == None && Reset(s).fileType == None
    ensures Reset(s).(fileName := None) == Fresh
    ensures Reset(s) == s <==> s.(fileName := None) == Fresh
  {
  }

  lemma {:induction false} ResetIdempotent(s: SessionState)
    ensures Reset(Reset(s)) == Reset(s)
  {
  }

  class FileData {
    var fileType: Option<FileType>
    var records: Option<seq<CultObject>>
    var fileName: Option<string>
    var filterMode: bool
    var sortMode: bool
    var fileDownload: bool
    var filterField: Option<string>
    var isTwoFields: bool
    var firstFilterVar: Option<string>
    var secondFilterVar: Option<string>
    var fileUpload: bool

    function State(): SessionState
      reads this
    {
      SessionState(fileType, records, fileName, filterMode, sortMode, fileDownload,
                   filterField, isTwoFields, firstFilterVar, secondFilterVar, fileUpload)
    }

    constructor ()
      ensures State() == Fresh
    {
      fileType := None;
      records := None;
      fileName := None;
      filterMode := false;
      sortMode := false;
      fileDownload := false;
      filterField := None;
      isTwoFields := false;
      firstFilterVar := None;
      secondFilterVar := None;
      fileUpload := false;
    }

    /** Clears everything except FileName. */
    method UpdateUserInfo()
      modifies this
      ensures State() == Reset(old(State()))
    {
      fileType := None;
      records := None;
      filterMode := false;
      sortMode := false;
      fileDownload := false;
      filterField := None;
      isTwoFields := false;
      firstFilterVar := None;
      secondFilterVar := None;
      fileUpload := false;
    }
  }
}
