# Cultural-objects Telegram bot: a verified model of its core

The bot loads a table of Moscow cultural-heritage objects from an uploaded CSV
or JSON file. A user can then narrow the table by SecurityStatus, ObjectType,
or SecurityStatus and then Category, sort it by ObjectNameOnDoc, and download
it again in either format. All of this goes through reply keyboards, and each
chat has its own session.

This project models, in Dafny, the parts of the bot that can be verified:

- **The record.** `CultObject` is an eight-string datatype (module `CultObjectProcessing`).
- **The CSV codec**, over strings rather than streams:
  - `CsvReadProcessing` covers unquoting, the header check and building a record from a row.
  - `CsvProcessing` covers `Read` and `Write`.
- **The query engine:**
  - `Filter.FilterByField`;
  - `FilterProcessing.GetVariants`, with its specification `Variants`;
  - `Sort.SortByObjectNameOnDoc`, a stable insertion sort with a direction flag.
- **The conversation state machine:**
  - `Sessions.FileData` is a class with the eleven session properties and `UpdateUserInfo`.
  - `FileTypes` holds the two-value format and its lower-cased extension.
  - `MenuKeyBoards` holds the four fixed keyboards and `FieldVariants`.
  - `DataChanger` holds the sort handler and the one-field and two-stage filter handlers.
  - `Output.SendFile` exports the records.
  - `Updates` holds the handlers for text and documents, plus the `Bot` class. `Bot` owns `userData` (chat id to `FileData`) and an outbox of replies.

Each handler that changes a session is a `method` on a `FileData`. It returns
the prompts it sends, which stand in for the Telegram calls. Its `ensures`
equates the new session and the prompts with a pure step function of the old
session, for example `DataChanger.SortStep` or `Updates.DocumentStep`. The
lemmas next to each step function state what the bot promises. A session
invariant, `SessionInvariant.StateInv`, is proved to hold after every event:

- FileDownload implies that Records and FileType are set;
- at most one of the sort, filter and export modes is active;
- a filter field is set only in filter mode;
- SecondFilterVar is null between events;
- an open filter step always has values to offer.

The world outside the core enters as parameters:

- Downloading an uploaded file is left out. A document event carries the file's name, which may be absent, and its text.
- The JSON reader and writer are function parameters. The reader returns a list, never null.
- String order is ordinal, lexicographic by Dafny `char`, that is, by Unicode scalar value (`StringUtil.Below`).

## Model

| member | source | states |
|---|---|---|
| CultObjectProcessing.Fields | CultObjectProcessing/CultObject.cs:85-96 | the eight properties, in constructor order (AISID … Global_id), as exactly eight positional values |
| CultObjectProcessing.Empty | CultObjectProcessing/CultObject.cs:62-72 | the parameterless constructor leaves all eight properties empty |
| CultObjectProcessing.FieldsDetermineObject | CultObjectProcessing/CultObject.cs:85-96 | two records with the same eight positional values are the same record |
| CultObjectProcessing.FilterValue | DataFilter/Filter.cs:19-26 | the three filter keys select SecurityStatus, Category and ObjectType, the fifth to seventh fields |
| CultObjectProcessing.SortKey | DataSort/Sort.cs:19-20 | the only sort key is ObjectNameOnDoc, the third field |
| CsvReadProcessing.UnquoteQuoted | CSVFormat/CSVReadProcessing.cs:50-55 | unquoting a value wrapped in one pair of quotes gives the value back, for every value |
| CsvReadProcessing.ShortPassesThrough | CSVFormat/CSVReadProcessing.cs:52-54 | strings shorter than two characters pass through unchanged |
| CsvReadProcessing.LongLosesBothEnds | CSVFormat/CSVReadProcessing.cs:52-53 | from two characters on, the first and the last are dropped whatever they are |
| CsvReadProcessing.CheckData | CSVFormat/CSVReadProcessing.cs:15-30 | true exactly when there are at least eight fields and each of the first eight, unquoted, is the header name at its index; false below eight fields |
| CsvReadProcessing.HeaderIgnoresExtraFields | CSVFormat/CSVReadProcessing.cs:19-26 | fields after the eighth do not affect the header check |
| CsvReadProcessing.JsonKeysDifferOnlyAtEnsemble | CultObjectProcessing/CultObject.cs:14-57 | the JSON property names agree with the CSV header at every position except the ensemble column (EnsemblyNameOnDoc / EnsembleNameOnDoc) |
| CsvReadProcessing.MakeObject | CSVFormat/CSVReadProcessing.cs:37-43 | field i of the record is the unquoted i-th field of the row, for i < 8 |
| CsvReadProcessing.MakeObjectOfQuoted | CSVFormat/CSVReadProcessing.cs:37-43 | a row of the quoted fields of a record is turned back into that record |
| CsvProcessing.Lines | CSVFormat/CSVProcessing.cs:19 | the text, trimmed of '\n' at both ends and split on '\n', always gives at least one line |
| CsvProcessing.RowRecords | CSVFormat/CSVProcessing.cs:25-27 | a data line yields at most one record |
| CsvProcessing.RecordsOf | CSVFormat/CSVProcessing.cs:23-28 | a run of data lines yields at most one record per line |
| CsvProcessing.Read | CSVFormat/CSVProcessing.cs:16-31 | the reading loop computes `ParseLines(Lines(text))`: null when line 0 fails the header check or there are fewer than three lines, otherwise the records of lines 2 onwards |
| CsvProcessing.ReadRecords | CSVFormat/CSVProcessing.cs:23-28 | the loop over lines 2 onwards collects the records of those lines, in order |
| CsvProcessing.RecordsOfLongLines | CSVFormat/CSVProcessing.cs:23-28 | when every line has at least eight fields, line i yields record i and nothing else |
| CsvProcessing.ShortLinesSkipped | CSVFormat/CSVProcessing.cs:26-27 | a line with fewer than eight fields contributes nothing, wherever it stands |
| CsvProcessing.SecondLineIgnored | CSVFormat/CSVProcessing.cs:23 | replacing line 1 by anything leaves the result unchanged |
| CsvProcessing.RecordCountBound | CSVFormat/CSVProcessing.cs:21-28 | an accepted text yields at most (number of lines − 2) records |
| CsvProcessing.Write | CSVFormat/CSVProcessing.cs:38-75 | the writer produces the two header lines, then one line per record, each ended by '\n' |
| CsvProcessing.WriteTable | CSVFormat/CSVProcessing.cs:43-70 | the writing loop emits the header lines and then the record lines in order, each ended by '\n' |
| CsvProcessing.SplitRowLine | CSVFormat/CSVProcessing.cs:58-69 | a written line splits on ';' into the quoted fields plus one empty piece after the trailing ';' |
| CsvProcessing.HeaderLineAccepted | CSVFormat/CSVProcessing.cs:43-47 | the first written line passes the reader's header check |
| CsvProcessing.DocumentLines | CSVFormat/CSVProcessing.cs:43-69 | without line breaks in the fields, the reader sees exactly the written lines, \|records\| + 2 of them |
| CsvProcessing.RoundTrip | CSVFormat/CSVProcessing.cs:16-75 | reading what `Write` wrote for a non-empty list of records free of ';' and '\n' gives back the same records, field for field |
| CsvProcessing.ParseTable | CSVFormat/CSVProcessing.cs:21-28 | a table whose first line passes the header check and that has at least one record line is read as exactly its records, whatever its second line |
| CsvProcessing.EmptyDocumentRejected | CSVFormat/CSVProcessing.cs:21-22 | the text written for an empty list has only two lines and is read as null |
| Filter.FilterByField | DataFilter/Filter.cs:17-30 | the result keeps the input's order (a subsequence); an unknown field name returns the input unchanged |
| Filter.FilterByFieldExact | DataFilter/Filter.cs:21-26 | for a known field, every kept record matches the value, and every matching record is kept exactly as often as it occurs |
| Filter.FilterIdempotent | DataFilter/Filter.cs:21-26 | filtering again by the same field and value changes nothing |
| Filter.StatusThenCategory | DataFilter/Filter.cs:21-24 | filtering by SecurityStatus and then Category keeps exactly the records matching both, in input order |
| Filter.CategoryThenStatus | DataFilter/Filter.cs:21-24 | the other order gives the same records |
| FilterProcessing.InsertSorted | DataFilter/FilterProcessing.cs:18-25 | `SortedSet.Add` keeps the set strictly ascending and adds exactly the new value |
| FilterProcessing.Variants | DataFilter/FilterProcessing.cs:16-38 | the values come out strictly ascending, so without duplicates |
| FilterProcessing.VariantsMembers | DataFilter/FilterProcessing.cs:19-35 | the values are exactly those the named property takes over the records, empty strings included; an unknown name gives none |
| FilterProcessing.NoVariantsWithoutKeyOrRecords | DataFilter/FilterProcessing.cs:21-35 | an unknown field name, such as the combined label, gives an empty array, and so does an empty list |
| FilterProcessing.GetVariants | DataFilter/FilterProcessing.cs:16-38 | the loop over the records computes `Variants` |
| FilterProcessing.VariantsDetermined | DataFilter/FilterProcessing.cs:18-37 | the result is the only strictly ascending listing of the property's values |
| FilterProcessing.OfferedIffFilterNonEmpty | DataFilter/FilterProcessing.cs:19-35 | for a known field, a value is listed exactly when filtering by it keeps at least one record |
| FilterProcessing.NonEmptyOffersValues | DataFilter/FilterProcessing.cs:19-35 | a known field of a non-empty list lists at least one value |
| Sort.SortByObjectNameOnDoc | DataSort/Sort.cs:16-21 | the result is a permutation of the input; names are non-decreasing when ascending and non-increasing when descending |
| Sort.SortIsStable | DataSort/Sort.cs:19-20 | records with equal names keep their input order, in both directions |
| Sort.SortSortedIsIdentity | DataSort/Sort.cs:16-21 | sorting a list already sorted in that direction returns it unchanged |
| Sort.SortIdempotent | DataSort/Sort.cs:16-21 | sorting twice in the same direction equals sorting once |
| Sort.SortedUnique | DataSort/Sort.cs:16-21 | when names identify records, two sorted arrangements of the same records are equal |
| Sort.DescendingIsReversedAscending | DataSort/Sort.cs:19-20 | when names identify records, descending order is ascending order reversed |
| FileTypes.Extension | TelegramBotProcessing/Output.cs:55 | the lower-cased format name has the length of the enum name and is non-empty |
| FileTypes.ExtensionValues | TelegramBotProcessing/FileType.cs:6-17 | the two formats have the extensions "json" and "csv" |
| FileTypes.ExtensionDistinguishes | TelegramBotProcessing/FileType.cs:6-17 | the two extensions differ, and neither is empty or contains '.' |
| Sessions.FileData.constructor | TelegramBotProcessing/FileData.cs:8-63 | a new session has every reference property null and all five flags false |
| Sessions.FileData.UpdateUserInfo | TelegramBotProcessing/FileData.cs:68-80 | the ten properties other than FileName are back to their defaults; FileName is unchanged |
| Sessions.ResetForgetsAllButFileName | TelegramBotProcessing/FileData.cs:68-80 | after the reset the session is a fresh one except for FileName, and Records is null rather than an empty list |
| Sessions.ResetIdempotent | TelegramBotProcessing/FileData.cs:70-79 | resetting twice equals resetting once |
| MenuKeyBoards.KeyboardLabels | TelegramBotProcessing/MenuKeyBoards.cs:16-100 | the four fixed keyboards offer exactly the labels the handlers compare input with, in order |
| MenuKeyBoards.ColumnOffersVariants | TelegramBotProcessing/MenuKeyBoards.cs:148-151 | one button per variant, in the given order |
| MenuKeyBoards.VariantButtons | TelegramBotProcessing/MenuKeyBoards.cs:135-151 | the array loop gives row i the single button variant i |
| MenuKeyBoards.FieldVariantsEffect | TelegramBotProcessing/MenuKeyBoards.cs:133-161 | with no variants, both chosen values, FilterMode and FilterField are cleared and the menu is shown, with Records, IsTwoFields and everything else unchanged; otherwise the session is unchanged and exactly the variants are offered |
| MenuKeyBoards.FieldVariants | TelegramBotProcessing/MenuKeyBoards.cs:133-161 | the handler's new session and prompts are `FieldVariantsStep` of the old session |
| SessionInvariant.FreshSatisfiesInvariant | TelegramBotProcessing/FileData.cs:13-80 | a new session, and a reset one, satisfy the session invariant |
| SessionInvariant.PendingFieldIsKey | TelegramBotProcessing/DataChanger.cs:142-187 | the property an open filter step lists is always a known filter key |
| DataChanger.HandleSort | TelegramBotProcessing/DataChanger.cs:19-58 | the handler's new session and prompts are `SortStep` of the old session |
| DataChanger.HandleFilter | TelegramBotProcessing/DataChanger.cs:67-101 | the handler's new session and prompts are `FilterStep` of the old session |
| DataChanger.FilterField | TelegramBotProcessing/DataChanger.cs:110-131 | the handler's new session and prompts are `FilterFieldStep` of the old session |
| DataChanger.TwoFilterField | TelegramBotProcessing/DataChanger.cs:140-176 | the handler's new session and prompts are `TwoFilterFieldStep` of the old session |
| DataChanger.StatusStage | TelegramBotProcessing/DataChanger.cs:142-157 | the first stage's new session and prompts are `StatusStageStep` of the old session |
| DataChanger.CategoryStage | TelegramBotProcessing/DataChanger.cs:158-175 | the second stage's new session and prompts are `CategoryStageStep` of the old session |
| DataChanger.OneFilterField | TelegramBotProcessing/DataChanger.cs:185-202 | the handler's new session and prompts are `OneFilterFieldStep` of the old session |
| DataChanger.SortStepEffect | TelegramBotProcessing/DataChanger.cs:31-47 | only the two order labels change the session; each replaces Records with a sorted permutation in its direction and clears SortMode, nothing else changing |
| DataChanger.FilterFieldStepEffect | TelegramBotProcessing/DataChanger.cs:112-130 | only the three filter-field labels change the session; each stores FilterField and IsTwoFields (true only for the combined label) and offers the first property's values, or aborts when there are none |
| DataChanger.RejectedValueKeepsState | TelegramBotProcessing/DataChanger.cs:187-195 | a value that is not listed is rejected without changing the session, and the same values are offered again |
| DataChanger.OneFieldAccepted | TelegramBotProcessing/DataChanger.cs:196-201 | a listed value narrows Records to the matching records, never to none, and clears FilterMode, FilterField and FirstFilterVar, leaving IsTwoFields |
| DataChanger.TwoStageNarrowsToBoth | TelegramBotProcessing/DataChanger.cs:153-174 | step 1 stores the status and offers the Category values of the narrowed list; step 2 leaves exactly the original records matching both values and closes the flow |
| DataChanger.SortStepKeepsInvariant | TelegramBotProcessing/DataChanger.cs:31-42 | the sort handler preserves the session invariant |
| DataChanger.FilterStepKeepsInvariant | TelegramBotProcessing/DataChanger.cs:110-202 | the filter handlers preserve the session invariant |
| DataChanger.FilterKeepsOnlyOriginals | DataFilter/Filter.cs:19-29 | filtering never adds a record, for any field name |
| DataChanger.FilterStepNarrows | TelegramBotProcessing/DataChanger.cs:154-197 | a filter step leaves Records a sub-multiset of what it was |
| Output.SendFile | TelegramBotProcessing/Output.cs:33-58 | the handler's new session and prompts are `SendFileStep` of the old session, writing CSV through `Write` |
| Output.SendFileEffect | TelegramBotProcessing/Output.cs:35-56 | null records give the notice and the menu, no document and no change; otherwise one document named FileName + extension, with CSV content exactly for "CSV" and JSON for any other type, and FileUpload becomes false |
| Output.CsvExportReadsBack | TelegramBotProcessing/Output.cs:44-46 | a CSV export of writable records reads back as the same records |
| Updates.HandleFileTypeInput | TelegramBotProcessing/Updates.cs:196-225 | the handler's new session and prompts are `FileTypeInputStep` of the old session |
| Updates.HandleUploadFile | TelegramBotProcessing/Updates.cs:87-125 | the handler's new session and prompts are `UploadFileStep` of the old session |
| Updates.HandleDocumentMessage | TelegramBotProcessing/Updates.cs:133-188 | the handler's new session and prompts are `DocumentStep` of the old session, reading CSV through `Read` |
| Updates.HandleMenuTypeInput | TelegramBotProcessing/Updates.cs:233-269 | the handler's new session and prompts are `MenuInputStep` of the old session |
| Updates.RouteText | TelegramBotProcessing/Updates.cs:63-78 | a text from a chat with a session gets the handler its FileType, FileDownload and FileUpload select |
| Updates.Bot.constructor | TelegramBotProcessing/UserProcessing.cs:11 | the chat map starts empty, with no reply sent |
| Updates.Bot.CloseSession | TelegramBotProcessing/Updates.cs:55-56 | "/start" removes the chat's entry and nothing else |
| Updates.Bot.OpenSession | TelegramBotProcessing/Updates.cs:57-62 | a chat without an entry gets a fresh session, the welcome and the file-type keyboard; other entries are untouched |
| Updates.Bot.ContinueSession | TelegramBotProcessing/Updates.cs:63-78 | a chat with an entry has only that entry changed, as `TextStep` says |
| Updates.Bot.AcceptDocument | TelegramBotProcessing/Updates.cs:35-37 | a document from a chat that awaits one changes only that chat's entry, as `DocumentStep` says |
| Updates.Bot.Ignore | TelegramBotProcessing/Updates.cs:38-43 | any other update leaves every session as it was and sends only the hint to pick an offered option |
| Updates.Bot.HandleTextMessage | TelegramBotProcessing/Updates.cs:53-79 | the chat map and the outbox change as `TextTransition` says, other chats keep their very objects, and the invariant is kept |
| Updates.Bot.HandleUpdate | TelegramBotProcessing/Updates.cs:23-45 | the chat map and the outbox change as `UpdateTransition` says, and the invariant is kept |
| Updates.TextStepKeepsInvariant | TelegramBotProcessing/Updates.cs:53-79 | every text handler preserves the session invariant |
| Updates.DocumentStepKeepsInvariant | TelegramBotProcessing/Updates.cs:133-188 | the document handler preserves the session invariant, so FileDownload implies Records is set |
| Updates.FileTypeInputEffect | TelegramBotProcessing/Updates.cs:196-224 | with FileType unset, exactly "CSV" and "JSON" change the session, each setting the matching FileType; other text asks again |
| Updates.AwaitingFileIgnoresText | TelegramBotProcessing/Updates.cs:72-77 | with FileType set and no file yet, text changes nothing and only asks for the file |
| Updates.MenuInputEffect | TelegramBotProcessing/Updates.cs:237-266 | in the main menu, exactly the four menu labels change the session: sort and filter mode, the export choice, or the reset |
| Updates.UploadFileEffect | TelegramBotProcessing/Updates.cs:91-114 | in the export choice, "CSV" or "JSON" overwrites FileType first, so the document is named FileName + the new extension; FileUpload is cleared and the menu follows; other text changes nothing and asks again |
| Updates.TextStepNeverInventsRecords | TelegramBotProcessing/Updates.cs:53-79 | after any text, Records is null or a sub-multiset of the records held before |
| Updates.DocumentEffect | TelegramBotProcessing/Updates.cs:144-174 | FileName becomes the upload's name with every occurrence of the extension removed, even when the upload is rejected; the file is accepted exactly when the name contains "." + extension anywhere and, for CSV, the text parses; acceptance sets Records from the reader and FileDownload, and rejection changes nothing else |
| Updates.UploadNameRoundTrip | TelegramBotProcessing/Updates.cs:145-147 | an upload "base.ext", where base does not contain ext, is stored as "base." and exported again as "base.ext" |
| StringUtil.RemoveAllAbsent | TelegramBotProcessing/Updates.cs:145-146 | `Replace` with an empty replacement leaves a string without the pattern unchanged |
| StringUtil.RemoveAllAfterSeparator | TelegramBotProcessing/Updates.cs:145-147 | in base + separator + ext, where base does not contain ext and ext does not hold the separator, only the final ext is removed, and the string contains separator + ext |
| StringUtil.Contains | TelegramBotProcessing/Updates.cs:147 | `String.Contains` is true exactly when the pattern occurs at some position of the string |
| Updates.StartOpensFreshSession | TelegramBotProcessing/Updates.cs:55-61 | "/start" replaces the chat's session with a fresh one and sends the welcome and the file-type keyboard; other chats are untouched |
| Updates.FirstTextOpensFreshSession | TelegramBotProcessing/Updates.cs:57-61 | any text from a chat without an entry creates a fresh entry, whatever the text |
| Updates.DocumentOnlyWhenAwaited | TelegramBotProcessing/Updates.cs:35-42 | a document changes sessions only for a chat with an entry, a FileType and no file; from any other chat, including one without an entry, it only gets the hint |
| Updates.UpdateIsolatesChats | TelegramBotProcessing/Updates.cs:23-79 | an update changes at most the sender's entry and replies only to the sender |
| Updates.UpdateReadsOnlyOwnEntry | TelegramBotProcessing/Updates.cs:23-79 | the sender's new entry and the replies depend only on the sender's old entry |
| Updates.UpdateKeepsInvariant | TelegramBotProcessing/Updates.cs:23-45 | if every session satisfies the invariant before an update, every session does after it |

## Left out

- Telegram transport: sending messages and documents, `GetFileAsync`, `DownloadFileAsync` and keyboard construction. Prompts are values in an outbox, and a downloaded file is a string parameter.
- `async void` scheduling and concurrency. Every handler is one sequential step, and its prompts are taken to arrive in program order. This includes the fire-and-forget welcome `Output.Print`, which the model sends as an ordinary prompt.
- `Output.Print` itself and the unused duplicate `MenuKeyBoards.FilterVariants`.
- The `catch (Exception)` branches and every `Log.*` call. Nothing in the model throws. In the source, transport and serialisation calls can throw, and so can the handlers once a record list holds a null element (see the line on nulls from the JSON reader below).
- The JSON reader and writer (System.Text.Json). They are function parameters: the reader returns a list, never null, and no JSON round trip is claimed.
- Streams and encodings: the UTF-8 byte-order mark and platform newlines. CSV text is lines ended by '\n'.
- Strings are modelled as sequences of Unicode scalar values (Dafny `char`), while .NET strings are UTF-16 code units. Two things differ outside the Basic Multilingual Plane:
  - lengths: `CsvReadProcessing.ElementFormating` (CSVFormat/CSVReadProcessing.cs:52-53) tests `Length >= 2`, so an unquoted field "😀" (UTF-16 length 2) becomes "" in the source but stays unchanged in the model, and `CsvReadProcessing.CheckData` inherits this;
  - order: `StringUtil.Below` puts a supplementary-plane character after U+E000–U+FFFF, while ordinal UTF-16 comparison puts it before, which affects `GetVariants` and `SortByObjectNameOnDoc` on such names.
- Culture-sensitive collation in `SortedSet<string>` and `OrderBy`. The model compares strings ordinally, by Dafny `char` (scalar value, not UTF-16 code unit).
- `ToLower` is modelled for ASCII letters only. The two enum names it is applied to are ASCII.
- Nulls from the JSON reader (JSONFormat/JSONProcessing.cs:20-21), of two kinds:
  - Null property values: every field is a string, so `GetVariants` never meets the skipped null case.
  - Null list elements: an upload of `[null]` is accepted (TelegramBotProcessing/Updates.cs:172-174). The model's `jsonRead` returns records only, so it does not capture what follows. Sorting then throws inside `OrderBy` (DataSort/Sort.cs:18-20) and takes the catch at TelegramBotProcessing/DataChanger.cs:49-57. A CSV export throws in CSVFormat/CSVProcessing.cs:58-67 and takes the catch at TelegramBotProcessing/Updates.cs:116-124. `GetVariants` throws at DataFilter/FilterProcessing.cs:21-35 inside the un-awaited `async void` filter handlers.
- The program entry point (token, polling loop, logger set-up, shutdown broadcast) and the polling error handler in TelegramBotProcessing/Errors.cs.
- Writing an empty list as CSV gives a text the reader refuses, because it has fewer than three lines (`CsvProcessing.EmptyDocumentRejected`). This is how the code behaves; it is stated as such, not corrected.
