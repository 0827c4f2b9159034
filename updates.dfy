/**
 * Event dispatch (TelegramBotProcessing/Updates.cs) over the chat-to-session
 * map (TelegramBotProcessing/UserProcessing.cs). Downloading an uploaded
 * file is outside the model: a document event carries the file's name and
 * its text. The JSON reader and writer are passed in as functions.
 */
module Updates {
  import opened Wrappers
  import opened StringUtil
  import opened CultObjectProcessing
  import opened CsvProcessing
  import opened FileTypes
  import opened Prompts
  import opened Sessions
  import opened MenuKeyBoards
  import opened SessionInvariant
  import opened DataChanger
  import opened Output

  const StartCommand := "/start"

  // ---------------------------------------------------------------------
  // Specification of the per-session handlers
  // ---------------------------------------------------------------------

  function FileTypeInputStep(s: SessionState, input: string): Outcome
  {
    if s.fileType.Some? then Outcome(s, [])
    else if input == JsonLabel then Outcome(s.(fileType := Some(Json)), [Say(SendJsonFile, RemoveKeyboard)])
    else if input == CsvLabel then Outcome(s.(fileType := Some(Csv)), [Say(SendCsvFile, RemoveKeyboard)])
    else Outcome(s.(fileType := None), [GetTypeOfFile()])
  }

  function UploadFileStep(s: SessionState, input: string, jsonWrite: seq<CultObject> -> string): Outcome
  {
    if input == CsvLabel || input == JsonLabel then
      var chosen := s.(fileType := Some(if input == CsvLabel then Csv else Json));
      var sent := SendFileStep(chosen, chosen.records, input, jsonWrite);
      var notice := if input == CsvLabel then FinalCsvFile else FinalJsonFile;
      Outcome(sent.state, [Say(notice, RemoveKeyboard)] + sent.replies + [GetMenu()])
    else Outcome(s, [GetTypeOfFile()])
  }

  /** The FileName an upload called `name` leaves: every occurrence of the extension removed. */
  function StoredName(name: string, t: FileType): string
  {
    RemoveAll(name, Extension(t))
  }

  function DocumentStep(s: SessionState, name: Option<string>, content: string,
                        jsonRead: string -> seq<CultObject>): Outcome
  {
    if s.fileDownload || s.fileType.None? then Outcome(s, [])
    else
      var t := s.fileType.value;
      var n := name.GetOr("");
      var named := s.(fileName := Some(StoredName(n, t)));
      if !Contains(n, "." + Extension(t)) then Outcome(named, [Say(WrongFormat, NoMarkup)])
      else if t == Csv then
        var list := ParseLines(Lines(content));
        if list.None? then Outcome(named, [Say(WrongData, NoMarkup)])
        else Outcome(named.(records := list, fileDownload := true), [GetMenu()])
      else Outcome(named.(records := Some(jsonRead(content)), fileDownload := true), [GetMenu()])
  }

  function MenuInputStep(s: SessionState, input: string): Outcome
  {
    if s.records.None? then Outcome(s, [])
    else if s.sortMode then SortStep(s, input)
    else if s.filterMode then FilterStep(s, input)
    else if input == SortLabel then Outcome(s.(sortMode := true), [SortIsReverse()])
    else if input == FilterLabel then Outcome(s.(filterMode := true), [MenuKeyBoards.FilterField()])
    else if input == DownloadLabel then Outcome(s.(fileUpload := true), [GetTypeOfFile()])
    else if input == NewFileLabel then Outcome(Reset(s), [GetTypeOfFile()])
    else Outcome(s, [GetMenu()])
  }

  /** Routing of a text from a chat that already has a session. */
  function TextStep(s: SessionState, text: string, jsonWrite: seq<CultObject> -> string): Outcome
  {
    if s.fileType.None? then FileTypeInputStep(s, text)
    else if s.fileDownload then
      if s.fileUpload then UploadFileStep(s, text, jsonWrite) else MenuInputStep(s, text)
    else Outcome(s, [Say(SendFileFirst, NoMarkup)])
  }

  // ---------------------------------------------------------------------
  // Specification of the dispatch over all chats
  // ---------------------------------------------------------------------

  datatype Body =
    | TextBody(text: string)
    | DocumentBody(fileName: Option<string>, content: string)
    | OtherBody                          // a message with neither text nor a document

  datatype Message = Message(chatId: int, body: Body)

  /** One outgoing prompt and the chat it goes to. */
  datatype Reply = Reply(chatId: int, prompt: Prompt)

  datatype Transition = Transition(sessions: map<int, SessionState>, replies: seq<Reply>)

  function Tagged(chat: int, ps: seq<Prompt>): (r: seq<Reply>)
    ensures |r| == |ps| && forall i :: 0 <= i < |ps| ==> r[i] == Reply(chat, ps[i])
  {
    seq(|ps|, i requires 0 <= i < |ps| => Reply(chat, ps[i]))
  }

  function TextTransition(m: map<int, SessionState>, chat: int, text: string,
                          jsonWrite: seq<CultObject> -> string): Transition
  {
    var kept := if text == StartCommand then m - {chat} else m;
    if chat !in kept then
      Transition(kept[chat := Fresh], Tagged(chat, [Say(Welcome, NoMarkup), GetTypeOfFile()]))
    else
      var o := TextStep(kept[chat], text, jsonWrite);
      Transition(kept[chat := o.state], Tagged(chat, o.replies))
  }

  /** Whether `HandleUpdateAsync` passes a document on to `HandleDocumentMessage`. */
  predicate AcceptsDocument(m: map<int, SessionState>, chat: int)
  {
    chat in m && m[chat].fileType.Some? && !m[chat].fileDownload
  }

  function UpdateTransition(m: map<int, SessionState>, update: Option<Message>,
                            jsonRead: string -> seq<CultObject>, jsonWrite: seq<CultObject> -> string): Transition
  {
    if update.None? then Transition(m, [])
    else
      var chat := update.value.chatId;
      match update.value.body
      case TextBody(text) => TextTransition(m, chat, text, jsonWrite)
      case DocumentBody(name, content) =>
        if AcceptsDocument(m, chat) then
          var o := DocumentStep(m[chat], name, content, jsonRead);
          Transition(m[chat := o.state], Tagged(chat, o.replies))
        else Transition(m, Tagged(chat, [Say(PickOffered, NoMarkup)]))
      case OtherBody => Transition(m, Tagged(chat, [Say(PickOffered, NoMarkup)]))
  }

  // ---------------------------------------------------------------------
  // The per-session handlers
  // ---------------------------------------------------------------------

  method HandleFileTypeInput(data: FileData, input: string) returns (replies: seq<Prompt>)
    modifies data
    ensures Outcome(data.State(), replies) == FileTypeInputStep(old(data.State()), input)
  {
    replies := [];
    if data.fileType.None? {
      if input == JsonLabel {
        data.fileType := Some(Json);
        replies := [Say(SendJsonFile, RemoveKeyboard)];
      } else if input == CsvLabel {
        data.fileType := Some(Csv);
        replies := [Say(SendCsvFile, RemoveKeyboard)];
      } else {
        data.fileType := None;
        replies := [GetTypeOfFile()];
        return;
      }
    }
  }

  method HandleUploadFile(data: FileData, input: string, jsonWrite: seq<CultObject> -> string)
    returns (replies: seq<Prompt>)
    modifies data
    ensures Outcome(data.State(), replies) == UploadFileStep(old(data.State()), input, jsonWrite)
  {
    if input == CsvLabel {
      data.fileType := Some(Csv);
      var sent := SendFile(data, data.records, input, jsonWrite);
      replies := [Say(FinalCsvFile, RemoveKeyboard)] + sent;
    } else if input == JsonLabel {
      data.fileType := Some(Json);
      var sent := SendFile(data, data.records, input, jsonWrite);
      replies := [Say(FinalJsonFile, RemoveKeyboard)] + sent;
    } else {
      replies := [GetTypeOfFile()];
      return;
    }
    replies := replies + [GetMenu()];
  }

  method HandleDocumentMessage(data: FileData, name: Option<string>, content: string,
                               jsonRead: string -> seq<CultObject>) returns (replies: seq<Prompt>)
    modifies data
    ensures Outcome(data.State(), replies) == DocumentStep(old(data.State()), name, content, jsonRead)
  {
    replies := [];
    if !data.fileDownload && data.fileType.Some? {
      var t := data.fileType.value;
      var n := name.GetOr("");
      data.fileName := Some(RemoveAll(n, Extension(t)));
      if !Contains(n, "." + Extension(t)) {
        replies := [Say(WrongFormat, NoMarkup)];
        return;
      }
      if t == Csv {
        var list := Read(content);
        if list.Some? {
          data.records := list;
        } else {
          replies := [Say(WrongData, NoMarkup)];
          return;
        }
      } else {
        data.records := Some(jsonRead(content));
      }
      data.fileDownload := true;
      replies := [GetMenu()];
    }
  }

  method HandleMenuTypeInput(data: FileData, input: string) returns (replies: seq<Prompt>)
    modifies data
    ensures Outcome(data.State(), replies) == MenuInputStep(old(data.State()), input)
  {
    replies := [];
    if data.records.Some? {
      if data.sortMode {
        replies := HandleSort(data, input);
      } else if data.filterMode {
        replies := HandleFilter(data, input);
      } else if input == SortLabel {
        data.sortMode := true;
        replies := [SortIsReverse()];
      } else if input == FilterLabel {
        data.filterMode := true;
        replies := [MenuKeyBoards.FilterField()];
      } else if input == DownloadLabel {
        data.fileUpload := true;
        replies := [GetTypeOfFile()];
      } else if input == NewFileLabel {
        data.UpdateUserInfo();
        replies := [GetTypeOfFile()];
      } else {
        replies := [GetMenu()];
      }
    }
  }

  /** The part of `HandleTextMessage` that runs for a chat that has a session. */
  method RouteText(data: FileData, text: string, jsonWrite: seq<CultObject> -> string) returns (replies: seq<Prompt>)
    modifies data
    ensures Outcome(data.State(), replies) == TextStep(old(data.State()), text, jsonWrite)
  {
    if data.fileType.None? {
      replies := HandleFileTypeInput(data, text);
    } else if data.fileDownload {
      if data.fileUpload {
        replies := HandleUploadFile(data, text, jsonWrite);
      } else {
        replies := HandleMenuTypeInput(data, text);
      }
    } else {
      replies := [Say(SendFileFirst, NoMarkup)];
    }
  }

  // ---------------------------------------------------------------------
  // The bot: `UserProcessing.userData` and the outbox
  // ---------------------------------------------------------------------

  class Bot {
    /** `UserProcessing.userData`: at most one session per chat id. */
    var userData: map<int, FileData>
    /** Every prompt sent so far, in order, with its chat. */
    var outbox: seq<Reply>

    /** Distinct chats own distinct sessions, and every session satisfies the invariant. */
    ghost predicate Valid()
      reads this`userData, userData.Values
    {
      (forall c, d :: c in userData && d in userData && c != d ==> userData[c] != userData[d]) &&
      (forall c :: c in userData ==> StateInv(userData[c].State()))
    }

    /** The sessions as values. */
    ghost function Sessions(): map<int, SessionState>
      reads this`userData, userData.Values
    {
      map c | c in userData :: userData[c].State()
    }

    constructor ()
      ensures Valid() && userData == map[] && outbox == []
    {
      userData := map[];
      outbox := [];
    }

    /** `/start` forgets the chat's session (`userData.Remove`). */
    method CloseSession(chat: int)
      requires Valid()
      modifies this`userData
      ensures Valid()
      ensures userData == old(userData) - {chat}
      ensures Sessions() == old(Sessions()) - {chat}
    {
      userData := userData - {chat};
    }

    /** A chat without a session gets a fresh one and the welcome prompts. */
    method OpenSession(chat: int)
      requires Valid() && chat !in userData
      modifies this
      ensures Valid()
      ensures Sessions() == old(Sessions())[chat := Fresh]
      ensures outbox == old(outbox) + Tagged(chat, [Say(Welcome, NoMarkup), GetTypeOfFile()])
      ensures forall c :: c in old(userData) ==> c in userData && userData[c] == old(userData[c])
    {
      FreshSatisfiesInvariant(Fresh);
      var entry := new FileData();
      userData := userData[chat := entry];
      outbox := outbox + Tagged(chat, [Say(Welcome, NoMarkup), GetTypeOfFile()]);
    }

    /** A chat with a session has its text routed to the handler its state selects. */
    method ContinueSession(chat: int, text: string, jsonWrite: seq<CultObject> -> string)
      requires Valid() && chat in userData
      modifies this`outbox, userData[chat]
      ensures Valid()
      ensures userData == old(userData)
      ensures var o := TextStep(old(Sessions())[chat], text, jsonWrite);
        Sessions() == old(Sessions())[chat := o.state] && outbox == old(outbox) + Tagged(chat, o.replies)
    {
      var data := userData[chat];
      ghost var s := data.State();
      ghost var before := Sessions();
      var replies := RouteText(data, text, jsonWrite);
      TextStepKeepsInvariant(s, text, jsonWrite);
      assert Sessions() == before[chat := data.State()] by {
        forall c | c in userData && c != chat
          ensures userData[c].State() == before[c]
        {
          assert userData[c] != data;
        }
      }
      outbox := outbox + Tagged(chat, replies);
    }

    method HandleTextMessage(chat: int, text: string, jsonWrite: seq<CultObject> -> string)
      requires Valid()
      modifies this, userData.Values
      ensures Valid()
      ensures var t := TextTransition(old(Sessions()), chat, text, jsonWrite);
        Sessions() == t.sessions && outbox == old(outbox) + t.replies
      ensures forall c :: c in old(userData) && c != chat ==> c in userData && userData[c] == old(userData[c])
    {
      if text == StartCommand {
        CloseSession(chat);
      }
      if chat !in userData {
        OpenSession(chat);
      } else {
        ContinueSession(chat, text, jsonWrite);
      }
    }

    /** A document from a chat that awaits one goes to `HandleDocumentMessage`. */
    method AcceptDocument(chat: int, name: Option<string>, content: string, jsonRead: string -> seq<CultObject>)
      requires Valid() && AcceptsDocument(Sessions(), chat)
      modifies this`outbox, userData[chat]
      ensures Valid()
      ensures userData == old(userData)
      ensures var o := DocumentStep(old(Sessions())[chat], name, content, jsonRead);
        Sessions() == old(Sessions())[chat := o.state] && outbox == old(outbox) + Tagged(chat, o.replies)
    {
      var data := userData[chat];
      ghost var s := data.State();
      ghost var before := Sessions();
      var replies := HandleDocumentMessage(data, name, content, jsonRead);
      DocumentStepKeepsInvariant(s, name, content, jsonRead);
      assert Sessions() == before[chat := data.State()] by {
        forall c | c in userData && c != chat
          ensures userData[c].State() == before[c]
        {
          assert userData[c] != data;
        }
      }
      outbox := outbox + Tagged(chat, replies);
    }

    method HandleUpdate(update: Option<Message>, jsonRead: string -> seq<CultObject>,
                        jsonWrite: seq<CultObject> -> string)
      requires Valid()
      modifies this, userData.Values
      ensures Valid()
      ensures var t := UpdateTransition(old(Sessions()), update, jsonRead, jsonWrite);
        Sessions() == t.sessions && outbox == old(outbox) + t.replies
    {
      if update.None? {
        return;
      }
      ghost var m := Sessions();
      ghost var t := UpdateTransition(m, update, jsonRead, jsonWrite);
      var chat := update.value.chatId;
      match update.value.body
      case TextBody(text) =>
        assert t == TextTransition(m, chat, text, jsonWrite);
        HandleTextMessage(chat, text, jsonWrite);
      case DocumentBody(name, content) =>
        if chat in userData && userData[chat].fileType.Some? && !userData[chat].fileDownload {
          ghost var o := DocumentStep(m[chat], name, content, jsonRead);
          assert t == Transition(m[chat := o.state], Tagged(chat, o.replies));
          AcceptDocument(chat, name, content, jsonRead);
        } else {
          assert t == Transition(m, Tagged(chat, [Say(PickOffered, NoMarkup)]));
          Ignore(chat);
        }
      case OtherBody =>
        assert t == Transition(m, Tagged(chat, [Say(PickOffered, NoMarkup)]));
        Ignore(chat);
    }

    /** Any other update only gets the "pick an offered option" prompt. */
    method Ignore(chat: int)
      requires Valid()
      modifies this`outbox
      ensures Valid()
      ensures Sessions() == old(Sessions())
      ensures outbox == old(outbox) + Tagged(chat, [Say(PickOffered, NoMarkup)])
    {
      outbox := outbox + Tagged(chat, [Say(PickOffered, NoMarkup)]);
    }
  }

  // ---------------------------------------------------------------------
  // Invariant preservation
  // ---------------------------------------------------------------------

  lemma {:induction false} TextStepKeepsInvariant(s: SessionState, text: string, jsonWrite: seq<CultObject> -> string)
    requires StateInv(s)
    ensures StateInv(TextStep(s, text, jsonWrite).state)
  {
    if s.fileDownload && !s.fileUpload && s.records.Some? {
      if s.sortMode {
        SortStepKeepsInvariant(s, text);
      } else if s.filterMode {
        FilterStepKeepsInvariant(s, text);
      }
    }
  }

  lemma {:induction false} DocumentStepKeepsInvariant(s: SessionState, name: Option<string>, content: string,
                                   jsonRead: string -> seq<CultObject>)
    requires StateInv(s)
    ensures StateInv(DocumentStep(s, name, content, jsonRead).state)
  {
  }

  // ---------------------------------------------------------------------
  // Properties of the per-session handlers
  // ---------------------------------------------------------------------

  /**
   * While no file type is chosen, exactly the two labels of the file-type
   * keyboard change the session, and each sets the matching FileType; any
   * other text asks again.
   */
  lemma {:induction false} FileTypeInputEffect(s: SessionState, input: string)
    requires s.fileType.None?
    ensures var o := FileTypeInputStep(s, input);
      (o.state != s <==> input in Offered(GetTypeOfFile())) &&
      (input == CsvLabel ==> o.state == s.(fileType := Some(Csv))) &&
      (input == JsonLabel ==> o.state == s.(fileType := Some(Json))) &&
      (input !in Offered(GetTypeOfFile()) ==> o.replies == [GetTypeOfFile()])
  {
    KeyboardLabels();
  }

  /**
   * In the main menu (records loaded, no mode active) exactly the four menu
   * labels change the session: sorting and filtering open their mode,
   * download opens the export choice, and a new file resets all but the name.
   */
  lemma {:induction false} MenuInputEffect(s: SessionState, input: string)
    requires s.records.Some? && !s.sortMode && !s.filterMode && !s.fileUpload
    ensures var o := MenuInputStep(s, input);
      (o.state != s <==> input in Offered(GetMenu())) &&
      (input == SortLabel ==> o.state == s.(sortMode := true) && o.replies == [SortIsReverse()]) &&
      (input == FilterLabel ==> o.state == s.(filterMode := true) && o.replies == [MenuKeyBoards.FilterField()]) &&
      (input == DownloadLabel ==> o.state == s.(fileUpload := true) && o.replies == [GetTypeOfFile()]) &&
      (input == NewFileLabel ==> o.state == Reset(s)) &&
      (input !in Offered(GetMenu()) ==> o.replies == [GetMenu()])
  {
    KeyboardLabels();
    if input == NewFileLabel {
      assert Reset(s).records.None?;
    }
  }

  /**
   * In the export choice, "CSV" and "JSON" set FileType to the chosen
   * format, close the choice and send one document named after the file
   * with the new format's extension; any other text changes nothing.
   */
  lemma {:induction false} UploadFileEffect(s: SessionState, input: string, jsonWrite: seq<CultObject> -> string)
    requires s.records.Some?
    ensures var o := UploadFileStep(s, input, jsonWrite);
      if input in Offered(GetTypeOfFile()) then
        var t := if input == CsvLabel then Csv else Json;
        o.state == s.(fileType := Some(t), fileUpload := false) &&
        |o.replies| == 3 && o.replies[1].SendDocument? &&
        o.replies[1].fileName == s.fileName.GetOr("") + Extension(t) &&
        o.replies[1].content == ExportContent(s.records.value, input, jsonWrite) &&
        o.replies[2] == GetMenu()
      else o.state == s && o.replies == [GetTypeOfFile()]
  {
    KeyboardLabels();
  }

  /** Once a file type is chosen and until a file is accepted, text changes nothing. */
  lemma {:induction false} AwaitingFileIgnoresText(s: SessionState, text: string, jsonWrite: seq<CultObject> -> string)
    requires s.fileType.Some? && !s.fileDownload
    ensures TextStep(s, text, jsonWrite).state == s
    ensures TextStep(s, text, jsonWrite).replies == [Say(SendFileFirst, NoMarkup)]
  {
  }

  /**
   * No text creates records: once a text is handled, Records is either gone
   * (a new file was asked for) or a sub-multiset of the records held before.
   */
  lemma {:induction false} TextStepNeverInventsRecords(s: SessionState, text: string, jsonWrite: seq<CultObject> -> string)
    ensures var t := TextStep(s, text, jsonWrite).state;
      t.records.Some? ==> s.records.Some? && multiset(t.records.value) <= multiset(s.records.value)
  {
    if s.fileType.Some? && s.fileDownload && !s.fileUpload && s.records.Some? {
      if s.sortMode {
        if text == AscendingLabel || text == DescendingLabel {
          SortStepEffect(s, text);
          KeyboardLabels();
        }
      } else if s.filterMode {
        FilterStepNarrows(s, text);
      }
    }
  }

  /**
   * An upload is accepted only with the chosen format's extension after a
   * dot, and a CSV upload only when its text parses; in every case the
   * stored FileName is the upload's name with the extension removed.
   */
  lemma {:induction false} DocumentEffect(s: SessionState, name: Option<string>, content: string,
                       jsonRead: string -> seq<CultObject>)
    requires s.fileType.Some? && !s.fileDownload
    ensures var t := s.fileType.value; var n := name.GetOr(""); var o := DocumentStep(s, name, content, jsonRead);
      o.state.fileName == Some(RemoveAll(n, Extension(t))) &&
      (o.state.fileDownload <==>
         Contains(n, "." + Extension(t)) && (t == Csv ==> ParseLines(Lines(content)).Some?)) &&
      (o.state.fileDownload ==>
         o.state == s.(fileName := o.state.fileName, records := o.state.records, fileDownload := true) &&
         o.state.records == (if t == Csv then ParseLines(Lines(content)) else Some(jsonRead(content)))) &&
      (!o.state.fileDownload ==> o.state == s.(fileName := o.state.fileName))
  {
  }

  /**
   * Downloading again what was uploaded: an upload `base.ext` of the chosen
   * format, where `base` does not contain `ext`, is stored as `base.` and so
   * exported under its own name.
   */
  lemma {:induction false} UploadNameRoundTrip(s: SessionState, base: string, content: string,
                            jsonRead: string -> seq<CultObject>)
    requires s.fileType.Some? && !s.fileDownload
    requires !Contains(base, Extension(s.fileType.value))
    ensures var ext := Extension(s.fileType.value);
      var o := DocumentStep(s, Some(base + "." + ext), content, jsonRead);
      o.state.fileName == Some(base + ".") && ExportName(o.state) == base + "." + ext
  {
    var ext := Extension(s.fileType.value);
    ExtensionDistinguishes(s.fileType.value, s.fileType.value);
    RemoveAllAfterSeparator(base, '.', ext);
    assert base + "." + ext == base + ['.'] + ext;
    DocumentEffect(s, Some(base + "." + ext), content, jsonRead);
  }

  // ---------------------------------------------------------------------
  // Properties of the dispatch over all chats
  // ---------------------------------------------------------------------

  /**
   * "/start" forgets the sender's session and opens a fresh one with the
   * welcome and the file-type keyboard; no other chat is touched.
   */
  lemma {:induction false} StartOpensFreshSession(m: map<int, SessionState>, chat: int, jsonWrite: seq<CultObject> -> string)
    ensures var t := TextTransition(m, chat, StartCommand, jsonWrite);
      t.sessions.Keys == m.Keys + {chat} && t.sessions[chat] == Fresh &&
      (forall d :: d in m && d != chat ==> t.sessions[d] == m[d]) &&
      t.replies == Tagged(chat, [Say(Welcome, NoMarkup), GetTypeOfFile()])
  {
  }

  /** A chat's first text of any kind opens a fresh session and is otherwise ignored. */
  lemma {:induction false} FirstTextOpensFreshSession(m: map<int, SessionState>, chat: int, text: string,
                                   jsonWrite: seq<CultObject> -> string)
    requires chat !in m
    ensures TextTransition(m, chat, text, jsonWrite).sessions == m[chat := Fresh]
    ensures TextTransition(m, chat, text, jsonWrite).replies ==
      Tagged(chat, [Say(Welcome, NoMarkup), GetTypeOfFile()])
  {
  }

  /**
   * A document is taken only from a chat that has chosen a format and has
   * no file yet; from any other chat it changes no session and is answered
   * with the hint to use the offered buttons.
   */
  lemma {:induction false} DocumentOnlyWhenAwaited(m: map<int, SessionState>, chat: int, name: Option<string>, content: string,
                                jsonRead: string -> seq<CultObject>, jsonWrite: seq<CultObject> -> string)
    ensures var t := UpdateTransition(m, Some(Message(chat, DocumentBody(name, content))), jsonRead, jsonWrite);
      (t.sessions != m ==> AcceptsDocument(m, chat)) &&
      (!AcceptsDocument(m, chat) ==> t.replies == Tagged(chat, [Say(PickOffered, NoMarkup)]))
  {
  }

  /**
   * One update touches at most the sender's session: every other chat keeps
   * its session, no chat but the sender gains or loses one, and every reply
   * goes to the sender.
   */
  lemma {:induction false} UpdateIsolatesChats(m: map<int, SessionState>, update: Option<Message>,
                            jsonRead: string -> seq<CultObject>, jsonWrite: seq<CultObject> -> string)
    requires update.Some?
    ensures var chat := update.value.chatId; var t := UpdateTransition(m, update, jsonRead, jsonWrite);
      (forall d :: d != chat ==> (d in t.sessions <==> d in m)) &&
      (forall d :: d in m && d != chat ==> t.sessions[d] == m[d]) &&
      (forall r :: r in t.replies ==> r.chatId == chat)
  {
  }

  /** Every session reachable through updates satisfies the session invariant. */
  lemma {:induction false} UpdateKeepsInvariant(m: map<int, SessionState>, update: Option<Message>,
                             jsonRead: string -> seq<CultObject>, jsonWrite: seq<CultObject> -> string)
    requires forall c :: c in m ==> StateInv(m[c])
    ensures var t := UpdateTransition(m, update, jsonRead, jsonWrite);
      forall c :: c in t.sessions ==> StateInv(t.sessions[c])
  {
    FreshSatisfiesInvariant(Fresh);
    if update.Some? {
      var chat := update.value.chatId;
      match update.value.body
      case TextBody(text) =>
        var kept := if text == StartCommand then m - {chat} else m;
        if chat in kept {
          TextStepKeepsInvariant(kept[chat], text, jsonWrite);
        }
      case DocumentBody(name, content) =>
        if AcceptsDocument(m, chat) {
          DocumentStepKeepsInvariant(m[chat], name, content, jsonRead);
        }
      case OtherBody =>
    }
  }

  /**
   * What an update does to its sender depends on the sender's entry alone:
   * two maps that agree on the sender's entry give the sender the same
   * entry and the same replies.
   */
  lemma {:induction false} UpdateReadsOnlyOwnEntry(m1: map<int, SessionState>, m2: map<int, SessionState>, update: Option<Message>,
                                jsonRead: string -> seq<CultObject>, jsonWrite: seq<CultObject> -> string)
    requires update.Some?
    requires var chat := update.value.chatId;
      (chat in m1 <==> chat in m2) && (chat in m1 ==> m1[chat] == m2[chat])
    ensures var chat := update.value.chatId;
      var t1 := UpdateTransition(m1, update, jsonRead, jsonWrite);
      var t2 := UpdateTransition(m2, update, jsonRead, jsonWrite);
      t1.replies == t2.replies && (chat in t1.sessions <==> chat in t2.sessions) &&
      (chat in t1.sessions ==> t1.sessions[chat] == t2.sessions[chat])
  {
  }
}
