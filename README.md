# Chatbot builder dashboard and chat widget, modelled in Dafny

The system is a web front end for building website chatbots. A signed-in user
enters a website URL and a chatbot name, may attach files, and submits. The
dashboard then starts a scrape-and-ingest task on the back end and polls its
progress until the task completes, fails or is cancelled; the user may also
stop it early, or stop it and keep the partial data. A sidebar lists the
user's chatbots, with a two-step delete and a test link. A details panel
shows the iframe snippet that embeds the chat widget, and a dialog adds more
files to an existing chatbot. The chat widget keeps a conversation in
memory, renders the bot's replies in a small line-oriented markup (paragraphs,
bullets, numbered items, bold spans) and opens action-button links.

The model keeps the decisions these components make and turns everything
outside them into inputs:

- The result of every network request is a parameter. This covers the
  outcome of each upload ("accepted", "refused with this detail", "threw")
  and the payload fields of a poll.
- Every toast, alert, request, hand-off and reload is an output value. The
  model states which of them happen and in what order.
- The clock reading used in collection names is a parameter.
- The parse of the URL by the browser's URL parser is a parameter: the
  protocol, or nothing when the parse throws.
- The window origin is a parameter.

Modules, one per component plus two shared ones:

| file | module | component |
|---|---|---|
| common.dfy | `Common` | optional values, JavaScript truthiness, the chatbot record, notices |
| text.dfy | `Text` | trim, lower case, split/join, decimal rendering of numbers |
| markup.dfy | `Markup` | `formatTextWithBold`, `formatMessage` (chatbot.tsx) |
| chat_widget.dfy | `ChatWidget` | button targets, theme fallback, `sendMessage` (chatbot.tsx) |
| dashboard.dfy | `Dashboard` | the polling state machine and handlers (page.tsx) |
| sidebar.dfy | `Sidebar` | fetch, delete, test link (chatbot-sidebar.tsx) |
| staged_files.dfy | `StagedFiles` | the staged-file list shared by the two upload forms |
| creation_form.dfy | `CreationForm` | validation, collection names, upload loop, submission ordering (input-section.tsx) |
| file_enhancement.dfy | `FileEnhancement` | the enhancement dialog's upload loop (file-enhancement-modal.tsx) |
| embed.dfy | `Embed` | the iframe snippet, base URL, test URL, copy (chatbot-details.tsx) |

How the code that changes state is modelled:

- Each stateful component is a `class` whose fields are the component's
  state. Its handlers are methods whose `ensures` give the whole new state.
- The dashboard's handlers are also pure transition functions on a
  `PageState` record. This lets lemmas reason about whole event traces, for
  example that the completion toast is raised at most once per task.
- An asynchronous handler is modelled in two phases. The first runs up to the
  request. The second runs once the request has settled, with its outcome as
  a parameter.

## Model

| member | source | states |
|---|---|---|
| Common.OrElse | src/app/dashboard/page.tsx:83 | The JavaScript `or` of an optional string field and a fallback: the value when it is present and non-empty, the fallback otherwise |
| Common.Rendered | src/components/dashboard/chatbot-sidebar.tsx:158 | a template of an optional field gives the value, or the text `undefined` when the field is absent |
| Text.TrimStart | src/components/dashboard/input-section.tsx:23 | the result is a suffix of the input, everything dropped is whitespace, and the result does not start with whitespace |
| Text.TrimEnd | src/components/dashboard/input-section.tsx:23 | the result is a prefix of the input, everything dropped is whitespace, and the result does not end with whitespace |
| Text.Trim | src/components/dashboard/input-section.tsx:23 | the result is the slice of the input left after cutting whitespace off both ends: all that is cut is whitespace, the result neither starts nor ends with whitespace, and it is empty exactly when the input is all whitespace |
| Text.BlankMeansTrimmedEmpty | src/components/chatbot/chatbot.tsx:316 | the test "trimmed text is empty" holds exactly when the text is all whitespace |
| Text.TrimIdempotent | src/components/chatbot/chatbot.tsx:318-321 | trimming twice gives the same text as trimming once |
| Text.LowerChar | src/components/chatbot/chatbot.tsx:377 | an upper-case ASCII letter maps to the lower-case letter 32 code points up; every other character is unchanged |
| Text.ToLower | src/components/chatbot/chatbot.tsx:377 | same length, each character lower-cased on its own |
| Text.IndexOf | src/components/chatbot/chatbot.tsx:294 | the first occurrence of the separator: it occurs there, at no earlier position, and "none" only when it occurs nowhere |
| Text.Split | src/components/chatbot/chatbot.tsx:294 | splitting always yields at least one piece |
| Text.SplitJoin | src/components/chatbot/chatbot.tsx:294 | joining the pieces of a split with the same separator gives back the text |
| Text.SplitAtFirst | src/components/chatbot/chatbot.tsx:294 | a split is the text before the first separator followed by the split of the text after it |
| Text.OccurrencesFromIndex | src/components/chatbot/chatbot.tsx:294 | the non-overlapping occurrences are the first one plus those after it, or none when the separator is absent |
| Text.SplitCount | src/components/chatbot/chatbot.tsx:294 | a split yields one more piece than there are non-overlapping occurrences of the separator |
| Text.BeforeFirstIsFree | src/components/chatbot/chatbot.tsx:294 | the text before the first occurrence does not contain the separator |
| Text.SplitPiecesFree | src/components/chatbot/chatbot.tsx:294 | no piece of a split contains the separator |
| Text.DigitChar | src/components/dashboard/file-enhancement-modal.tsx:80 | a digit value maps to the decimal digit character of that value |
| Text.NatToString | src/components/dashboard/file-enhancement-modal.tsx:80 | a number renders as a non-empty run of decimal digits without a leading zero |
| Text.NatToStringRoundTrip | src/components/dashboard/input-section.tsx:57 | reading back the digits of a rendered number gives the number |
| Markup.Texts | src/components/chatbot/chatbot.tsx:295-304 | one text per span, in order |
| Markup.FormatTextWithBold | src/components/chatbot/chatbot.tsx:293-305 | one span more than the `**` markers; exactly the odd-numbered spans are bold; no span contains a marker; re-joining the spans with `**` gives back the text; the spans are the pieces of the leftmost split on `**`, as `split` cuts them |
| Markup.DigitPrefix | src/components/chatbot/chatbot.tsx:330 | the longest run of digits at the start of the line |
| Markup.TakeLine | src/components/chatbot/chatbot.tsx:330 | the longest prefix with no line terminator, which is what `.+` matches |
| Markup.LastNonTerminator | src/components/chatbot/chatbot.tsx:330 | the last character of the text that `.` can match (only line terminators follow it), or none when every character is a line terminator |
| Markup.MatchContent | src/components/chatbot/chatbot.tsx:330 | the part `\s*(.+)` captures is non-empty and free of line terminators |
| Markup.MatchNumbered | src/components/chatbot/chatbot.tsx:330-332 | a match of `^(\d+)\.\s*(.+)` has a non-empty digit run followed by `.` at the start of the line, and non-empty content with no line terminator |
| Markup.FormatLine | src/components/chatbot/chatbot.tsx:315-345 | a blank line renders nothing; a bullet keeps the trimmed line minus its first two characters; a numbered item carries the regex's number and content; the bullet test wins over the numbered one; a plain line keeps the untrimmed line's text; in all three cases the spans are the bold formatting of that text, so `**` markers split it and the odd pieces are bold |
| Markup.FormatMessage | src/components/chatbot/chatbot.tsx:307-350 | one group per `\n\n` paragraph and one entry per `\n` line; each entry is the rendering of its own line, so the bullet, numbered and plain rules of the line renderer hold for every line, and only blank lines render nothing |
| Markup.RejoinLines | src/components/chatbot/chatbot.tsx:308-311 | one rejoined paragraph per paragraph |
| Markup.MessageStructureLossless | src/components/chatbot/chatbot.tsx:308-311 | re-joining the lines and then the paragraphs gives back the reply text |
| Markup.LinesHaveNoBreak | src/components/chatbot/chatbot.tsx:311 | no line of a paragraph contains a newline |
| Markup.NumberedComplete | src/components/chatbot/chatbot.tsx:330-332 | digits, `.`, any whitespace, then content that starts with a non-space character is matched with exactly that number and content |
| Markup.NumberedNeedsContent | src/components/chatbot/chatbot.tsx:330 | digits followed by `.` alone (for example `3.`) are not a numbered item |
| ChatWidget.ButtonTarget | src/components/chatbot/chatbot.tsx:376-394 | e-mail buttons open `mailto:` + data and phone buttons `tel:` + data, both recognised without regard to case (in both directions); every other type opens the data unchanged |
| ChatWidget.ToLowerIdempotent | src/components/chatbot/chatbot.tsx:377 | lower-casing twice is lower-casing once |
| ChatWidget.ButtonTargetCaseInsensitive | src/components/chatbot/chatbot.tsx:376-394 | a button type and its lower-case form open the same address |
| ChatWidget.CurrentTheme | src/components/chatbot/chatbot.tsx:226 | a known theme is used as chosen; an unknown name falls back to `greenish`; the result is always a known theme |
| ChatWidget.ReplyText | src/components/chatbot/chatbot.tsx:427-453 | the reply text is never empty: the payload's `response`, else its `answer`, else the apology; the error text when the request fails |
| ChatWidget.BotMessage | src/components/chatbot/chatbot.tsx:429-451 | the bot message has the given id and the reply text; it carries the payload's buttons on success and none on failure |
| ChatWidget.ChatSession.constructor | src/components/chatbot/chatbot.tsx:29-38 | the conversation starts with the greeting as message 1, an empty input and no request loading |
| ChatWidget.ChatSession.SetInput | src/components/chatbot/chatbot.tsx:37 | the input field holds the typed value |
| ChatWidget.ChatSession.BeginSend | src/components/chatbot/chatbot.tsx:397-408 | a blank input or a loading request changes nothing and asks nothing; otherwise the user message with id n+1 is appended, the input cleared and loading set |
| ChatWidget.ChatSession.CompleteSend | src/components/chatbot/chatbot.tsx:427-455 | the bot message, numbered from the message count read when the question was sent, is appended and loading ends |
| ChatWidget.ChatSession.SendMessage | src/components/chatbot/chatbot.tsx:396-456 | a blank input or a loading request changes nothing; otherwise exactly two messages are appended, the user message with id n+1 and then one bot message with id n+2; the input is cleared, loading ends and the ids stay equal to positions |
| Embed.BaseUrl | src/components/dashboard/chatbot-details.tsx:28-33 | the window origin when a window exists, otherwise `http://localhost:3000` |
| Embed.ChatbotUrl | src/components/dashboard/chatbot-details.tsx:54 | the base, the chat path with `collection_name=`, then the collection name verbatim |
| Embed.CollectionRoundTrip | src/components/dashboard/chatbot-details.tsx:37 | the collection name can be read back from the chat URL exactly as given, so nothing is encoded |
| Embed.IframeCode | src/components/dashboard/chatbot-details.tsx:36-44 | the snippet is the fixed head, the chat URL, then the fixed tail (width 400, height 600, the style and title) |
| Embed.SnippetSrcIsChatbotUrl | src/components/dashboard/chatbot-details.tsx:37 | the snippet's `src` value is the chat URL |
| Embed.SnippetDeterminesCollection | src/components/dashboard/chatbot-details.tsx:36-44 | for one base URL, two chatbots get the same snippet only when their collection names are equal |
| Embed.ChatbotDetails.constructor | src/components/dashboard/chatbot-details.tsx:26-35 | the panel's base URL is the one chosen from the window origin, and nothing is copied yet |
| Embed.ChatbotDetails.TestUrl | src/components/dashboard/chatbot-details.tsx:53-56 | the test link is the snippet's `src` value |
| Embed.ChatbotDetails.CopyCode | src/components/dashboard/chatbot-details.tsx:46-49 | exactly the snippet goes to the clipboard, `copied` is set, and the success toast is raised |
| Embed.ChatbotDetails.CopiedTimerElapsed | src/components/dashboard/chatbot-details.tsx:50 | the timer's callback clears `copied` |
| StagedFiles.KeepOtherPositionsSpec | src/components/dashboard/input-section.tsx:50 | filtering out a position removes exactly that element and keeps the rest in order; an out-of-range position keeps the list |
| StagedFiles.RemoveAt | src/components/dashboard/file-enhancement-modal.tsx:35-37 | removing position i deletes only that element, so the list is one shorter; a position outside the list changes nothing |
| StagedFiles.AddFiles | src/components/dashboard/file-enhancement-modal.tsx:28-33 | picked files are appended after the staged ones; no selection changes nothing |
| StagedFiles.RemoveAfterAdd | src/components/dashboard/input-section.tsx:42-51 | removing a file just added at the end restores the previous list |
| Sidebar.RemoveById | src/components/dashboard/chatbot-sidebar.tsx:151 | filtering by id never lengthens the list |
| Sidebar.RemoveByIdSpec | src/components/dashboard/chatbot-sidebar.tsx:151 | exactly the chatbots with another id remain; a list without the id is unchanged |
| Sidebar.RemoveByIdAppend | src/components/dashboard/chatbot-sidebar.tsx:151 | the filter works element by element, so the survivors keep their original order |
| Sidebar.RemoveByIdIdempotent | src/components/dashboard/chatbot-sidebar.tsx:151 | deleting the same id twice leaves the list as one delete does |
| Sidebar.DeleteNotice | src/components/dashboard/chatbot-sidebar.tsx:158-165 | success exactly when the delete was accepted, naming the chatbot from the payload; otherwise `Delete Failed` with the server message, the default text, or the thrown error's message |
| Sidebar.TestChatbotUrl | src/components/dashboard/chatbot-sidebar.tsx:195-198 | the collection name can be read back verbatim from the test link |
| Sidebar.ClearsSelection | src/components/dashboard/chatbot-sidebar.tsx:154 | a failed delete, or no selection, keeps the selection; after a successful delete it goes exactly when the selected chatbot has the deleted id |
| Sidebar.ClearedIffFiltered | src/components/dashboard/chatbot-sidebar.tsx:151-156 | after a successful delete, a selected chatbot from the list loses its selection exactly when the filter drops it from the list |
| Sidebar.ChatbotSidebar.constructor | src/components/dashboard/chatbot-sidebar.tsx:103-106 | an empty list, loading, nothing pending and no delete running |
| Sidebar.ChatbotSidebar.FetchSettled | src/components/dashboard/chatbot-sidebar.tsx:112-133 | a listed response replaces the list; any failure keeps it and raises the error toast; loading ends in every case |
| Sidebar.ChatbotSidebar.DeleteClick | src/components/dashboard/chatbot-sidebar.tsx:172-175 | the clicked chatbot becomes the pending one |
| Sidebar.ChatbotSidebar.DeleteCancel | src/components/dashboard/chatbot-sidebar.tsx:183-185 | the pending chatbot is cleared and the list is untouched |
| Sidebar.ChatbotSidebar.DeleteConfirm | src/components/dashboard/chatbot-sidebar.tsx:135-181 | with nothing pending nothing happens; otherwise the delete of the pending id is requested and a delete is running |
| Sidebar.ChatbotSidebar.DeleteSettled | src/components/dashboard/chatbot-sidebar.tsx:147-169 | an accepted delete drops the id from the list and clears the selection only when the selected chatbot has it; a failure keeps the list; a running delete always ends and the pending chatbot is always cleared |
| Sidebar.ChatbotSidebar.ConfirmAndDelete | src/components/dashboard/chatbot-sidebar.tsx:135-181 | confirming with nothing pending changes nothing; otherwise it has the effect of the delete of the pending chatbot |
| Dashboard.Classify | src/app/dashboard/page.tsx:61-103 | the checks run in order: completed or `is_completed`, then an error status or `error` field, then cancelled, then partial; each class holds exactly when its test passes and the earlier ones fail; a non-OK or failed poll is pending; the error text falls back to the default; missing pages count as 0 |
| Dashboard.PollingActive | src/app/dashboard/page.tsx:53 | polling runs only with a non-empty task id, the loader on screen and no cancel in flight; a missing or empty id, a hidden loader or a running cancel each stop it |
| Dashboard.Dispatch | src/app/dashboard/page.tsx:65-102 | a pending poll changes nothing; every terminal poll sets the task id to null and hides the loader; only completion closes the form and raises the toast flag, with a toast only when the flag was down; cancel and partial end a stop in progress; the reload follows full or partial completion |
| Dashboard.BeginStop | src/app/dashboard/page.tsx:120-180 | without a task id nothing changes and nothing is sent; otherwise a stop is in progress and the task id is sent; polling is paused either way |
| Dashboard.Stopped | src/app/dashboard/page.tsx:152-205 | after a successful stop the task id is null and there is no loader, no stop flag and no form; the toast flag and selection stay |
| Dashboard.CancelNotice | src/app/dashboard/page.tsx:194-216 | a success toast exactly when the cancel was accepted, and never the completion toast |
| Dashboard.CancelSettled | src/app/dashboard/page.tsx:194-216 | an accepted cancel ends the task; a refused or failed one only lowers the stop flag, keeping the task and loader; one toast and no reload |
| Dashboard.RenderedCount | src/app/dashboard/page.tsx:146-147 | a count renders in decimal, an absent one as `undefined` |
| Dashboard.StoreNotice | src/app/dashboard/page.tsx:140-171 | a success toast exactly when the partial data was stored, and never the completion toast |
| Dashboard.StoreSettled | src/app/dashboard/page.tsx:140-171 | a successful stop-and-store ends the task; a failure only lowers the stop flag; one toast; the page reloads only when the payload says the chatbot is available |
| Dashboard.StartProcessing | src/app/dashboard/page.tsx:229-235 | the new task is set with the loader shown, the form closed and both flags lowered; polling resumes exactly when the task id is truthy |
| Dashboard.CreateNew | src/app/dashboard/page.tsx:219-222 | the selection is cleared and the form opened; nothing else changes |
| Dashboard.SelectChatbot | src/app/dashboard/page.tsx:224-227 | the chatbot is selected and the form closed; nothing else changes |
| Dashboard.MainView | src/app/dashboard/page.tsx:278-318 | the loader wins, then the form, then the selected chatbot's details, then the welcome panel, each exactly when the ones before it are off |
| Dashboard.CreateNewShowsForm | src/app/dashboard/page.tsx:219-318 | after "create new" the form shows unless the loader is up |
| Dashboard.SelectShowsDetails | src/app/dashboard/page.tsx:224-318 | after selecting a chatbot its details show unless the loader is up |
| Dashboard.Apply | src/app/dashboard/page.tsx:53-235 | only starting a task lowers the toast flag, and a poll while polling is inactive changes nothing |
| Dashboard.ApplyCreatedToast | src/app/dashboard/page.tsx:71-75 | one event raises the completion toast only while the flag is down, at most once, and then the flag is up |
| Dashboard.DispatchCreatedToast | src/app/dashboard/page.tsx:65-75 | a poll raises the completion toast exactly when it completes with the flag down |
| Dashboard.CreatedCountAppend | src/app/dashboard/page.tsx:71-75 | counting completion toasts distributes over concatenation |
| Dashboard.CreatedAtMostOnce | src/app/dashboard/page.tsx:71-233 | over any sequence of events without a new start, the completion toast is raised at most once, and never when it was already shown |
| Dashboard.StopPausesPolling | src/app/dashboard/page.tsx:53-216 | a stop request pauses polling; a refused or failed cancel resumes it; an accepted one ends the task |
| Dashboard.DashboardPage.SetState | src/app/dashboard/page.tsx:32-40 | the page's fields hold the given state |
| Dashboard.DashboardPage.constructor | src/app/dashboard/page.tsx:32-40 | no task, no loader, no flags, no form and no selection, so the welcome panel shows |
| Dashboard.DashboardPage.CheckProgress | src/app/dashboard/page.tsx:53-107 | an active poll moves the page as the dispatch of its classified response says |
| Dashboard.DashboardPage.RequestStop | src/app/dashboard/page.tsx:120-180 | the page moves as the start of a stop says and sends its request |
| Dashboard.DashboardPage.CancelAnswered | src/app/dashboard/page.tsx:194-216 | the page moves as a settled cancel says |
| Dashboard.DashboardPage.StoreAnswered | src/app/dashboard/page.tsx:140-171 | the page moves as a settled stop-and-store says |
| Dashboard.DashboardPage.HandleStartProcessing | src/app/dashboard/page.tsx:229-235 | the page starts the new task |
| Dashboard.DashboardPage.HandleCreateNew | src/app/dashboard/page.tsx:219-222 | only the selection and the form change, to none and open |
| Dashboard.DashboardPage.HandleSelectChatbot | src/app/dashboard/page.tsx:224-227 | only the selection and the form change, to the chatbot and closed |
| CreationForm.CheckUrl | src/components/dashboard/input-section.tsx:22-40 | the URL is valid exactly when it is not blank, parses, and has protocol `http:` or `https:`; valid exactly when the error is cleared; blank, unparseable and wrong-scheme URLs get their own messages |
| CreationForm.ErrorAfterEdit | src/components/dashboard/input-section.tsx:220-227 | a blank edit clears the error without validating; any other edit shows the validation's error, empty exactly when valid |
| CreationForm.EnabledMeansValid | src/components/dashboard/input-section.tsx:220-289 | when the submit button is enabled after an edit, the URL passes validation |
| CreationForm.CanSubmitTrimmed | src/components/dashboard/input-section.tsx:289 | the submit button is enabled exactly when nothing is loading, the trimmed URL and the trimmed name are both non-empty, and no URL error is shown |
| CreationForm.CleanName | src/components/dashboard/input-section.tsx:56 | same length as the name; each character is the lower-cased letter or digit, or `_` for anything else, so only `[a-z0-9_]` remain |
| CreationForm.GenerateCollectionName | src/components/dashboard/input-section.tsx:53-58 | the name is the user id, `_`, the cleaned name, `_`, then the timestamp's decimal digits, in that order; after the id it holds only `[a-z0-9_]` |
| CreationForm.TrailingDigits | src/components/dashboard/input-section.tsx:57 | the longest digit suffix of a text: all digits, and either the whole text or preceded by a non-digit |
| CreationForm.TrailingDigitsAfter | src/components/dashboard/input-section.tsx:57 | digits after a non-digit are exactly the digit suffix |
| CreationForm.TimestampRecoverable | src/components/dashboard/input-section.tsx:53-58 | the timestamp can be read back from the end of every generated collection name |
| CreationForm.KindsAppend | src/components/dashboard/input-section.tsx:88-150 | the kinds of effects of two runs together are the kinds of each |
| CreationForm.FileLog | src/components/dashboard/input-section.tsx:155-181 | each file is uploaded first; a refused or failed upload is followed by exactly one alert |
| CreationForm.FileLogKinds | src/components/dashboard/input-section.tsx:155-181 | one file yields an upload, plus an alert exactly when it was not accepted |
| CreationForm.AllUploadedSnoc | src/components/dashboard/input-section.tsx:153-178 | all succeeded after one more file exactly when all did before and that file did |
| CreationForm.UploadLog | src/components/dashboard/input-section.tsx:152-185 | between one and two effects per file |
| CreationForm.UploadLogKinds | src/components/dashboard/input-section.tsx:152-185 | the loop sends uploads and alerts only, uploads whenever there are files, and raises no alert exactly when every upload succeeded |
| CreationForm.UploadsAppend | src/components/dashboard/input-section.tsx:155 | the uploads of two runs together are those of each, in order |
| CreationForm.UploadsOfFileLog | src/components/dashboard/input-section.tsx:155-167 | one file yields exactly one upload request, naming the file and the collection |
| CreationForm.UploadRequests | src/components/dashboard/input-section.tsx:155-167 | one upload request per file, in order |
| CreationForm.OneUploadPerFile | src/components/dashboard/input-section.tsx:152-185 | the loop makes one upload per file, in order, and continues past failures |
| CreationForm.ProcessUploadedFiles | src/components/dashboard/input-section.tsx:152-185 | the result is true exactly when every upload succeeded, and the effects are the run's upload log |
| CreationForm.RecordTail | src/components/dashboard/input-section.tsx:134-145 | the record is requested exactly when all files uploaded; the hand-off happens exactly when the record was also saved, right after it; loading stays on exactly then, and every other path ends with an alert |
| CreationForm.SubmitUploads | src/components/dashboard/input-section.tsx:127-130 | uploads happen exactly when there are files, and no alert is raised exactly when all succeeded |
| CreationForm.ScrapeTailSteps | src/components/dashboard/input-section.tsx:118-149 | after the scrape: no second scrape; uploads only after an OK scrape with files; the record only after an OK scrape and all uploads; the hand-off only after the record, as the last step; loading ends on every failure path, whose last effect is an alert |
| CreationForm.ScrapeTail | src/components/dashboard/input-section.tsx:118-149 | a thrown scrape gives only the network alert, a refused one only its `detail` or the default text, and loading ends in both cases; after an OK scrape the uploads come first, then the record step, whose loading flag is the result |
| CreationForm.Submit | src/components/dashboard/input-section.tsx:88-150 | the URL is validated on every submission; a failed URL or name check sends nothing and leaves loading as it was; otherwise the scrape under the generated name comes first |
| CreationForm.SubmitStepsInOrder | src/components/dashboard/input-section.tsx:88-150 | the scrape is the first request and is not repeated; uploads, record and hand-off happen exactly under their conditions |
| CreationForm.SubmitRecordBeforeHandOff | src/components/dashboard/input-section.tsx:134-141 | after an OK scrape and all uploads, the record request comes next to last, followed by the hand-off or by the failure alert |
| CreationForm.SubmitEndsLoading | src/components/dashboard/input-section.tsx:98-149 | loading stays on exactly when the form handed the task over, and every other path ends with an alert |
| CreationForm.CreationFormState.constructor | src/components/dashboard/input-section.tsx:16-20 | empty fields, no files, not loading, no error |
| CreationForm.CreationFormState.SetChatbotName | src/components/dashboard/input-section.tsx:204 | the name field holds the typed value |
| CreationForm.CreationFormState.OnUrlChange | src/components/dashboard/input-section.tsx:220-227 | the URL field holds the value and the error is the one an edit gives |
| CreationForm.CreationFormState.HandleFileUpload | src/components/dashboard/input-section.tsx:42-47 | picked files are appended after the staged ones |
| CreationForm.CreationFormState.RemoveFile | src/components/dashboard/input-section.tsx:49-51 | exactly the given position is removed |
| CreationForm.CreationFormState.HandleSubmit | src/components/dashboard/input-section.tsx:88-150 | the effects, the loading flag and the URL error are those of the submission |
| CreationForm.AfterScrape | src/components/dashboard/input-section.tsx:118-149 | the effects and loading flag after the scrape are those the submission specifies |
| FileEnhancement.CountOk | src/components/dashboard/file-enhancement-modal.tsx:49-66 | the success count is at most the number of uploads |
| FileEnhancement.CountOkBounds | src/components/dashboard/file-enhancement-modal.tsx:51-76 | the count equals the number of files exactly when all were accepted, and is zero exactly when none was |
| FileEnhancement.FailureNotices | src/components/dashboard/file-enhancement-modal.tsx:67-75 | at most one error toast per file |
| FileEnhancement.FailureNoticesCount | src/components/dashboard/file-enhancement-modal.tsx:51-76 | exactly one error toast per file not accepted |
| FileEnhancement.SuccessTitle | src/components/dashboard/file-enhancement-modal.tsx:80 | the count, then `File Processed` for a count of one and `Files Processed` otherwise |
| FileEnhancement.OneFileTitle | src/components/dashboard/file-enhancement-modal.tsx:80 | one accepted file gives the title `1 File Processed` |
| FileEnhancement.Requests | src/components/dashboard/file-enhancement-modal.tsx:51-63 | one upload per file, in order, each naming the file and the chatbot's collection |
| FileEnhancement.UploadAll | src/components/dashboard/file-enhancement-modal.tsx:49-76 | the loop never stops early: one request per file, the count of accepted uploads, and an error toast per refused one |
| FileEnhancement.Enhance | src/components/dashboard/file-enhancement-modal.tsx:39-92 | nothing staged gives the warning and no upload; otherwise one upload per file, the error toasts, and the success toast with the count exactly when some file was accepted, which also clears the files and closes the dialog; otherwise the files stay |
| FileEnhancement.FileEnhancementModal.constructor | src/components/dashboard/file-enhancement-modal.tsx:25-26 | nothing staged and not loading |
| FileEnhancement.FileEnhancementModal.HandleFileUpload | src/components/dashboard/file-enhancement-modal.tsx:28-33 | picked files are appended after the staged ones |
| FileEnhancement.FileEnhancementModal.RemoveFile | src/components/dashboard/file-enhancement-modal.tsx:35-37 | exactly the given position is removed |
| FileEnhancement.FileEnhancementModal.HandleSubmit | src/components/dashboard/file-enhancement-modal.tsx:39-92 | requests, toasts, closing and the staged files are those of the enhancement; with files staged loading is off afterwards, and with none it never starts |

## Left out

- Network requests, `localStorage`, `window.open`, `window.location.reload`, the clipboard, toasts and alerts are not performed. Their outcomes are parameters and their calls are output values.
- A response body that cannot be read as JSON is folded into the "threw" outcome of its request, because in most handlers it ends in the same `catch`. The exceptions are the error bodies of stop-and-store and cancel (src/app/dashboard/page.tsx:162 and :207): those read an unreadable body as `{}`, so the model gives them a rejected outcome without a message, which shows the default text.
- Timers are not modelled: the 3-second polling interval and the 3-second reset of `copied` become events. As a result, overlapping polls, polls with stale closure values and a timer firing after unmount are not modelled either.
- The browser's URL parser (the WHATWG URL Standard, section 4.4, the basic URL parser) is not modelled. Its result is a parameter: the protocol, or nothing when it throws.
- `trim`, `toLowerCase` and the character classes of the line patterns (`\s`, `\d` and `.` in `^(\d+)\.\s*(.+)`) are modelled on ASCII: six whitespace characters, the digits, the letters A to Z, and `\n` and `\r` as the line terminators `.` refuses. Unicode whitespace, the terminators U+2028 and U+2029, case mapping and UTF-16 code units are not modelled.
- `Date.now()` is a parameter. Date and time formatting for display is not modelled.
- JSX rendering, Tailwind classes, icons (`getButtonIcon`), framer-motion, the theme colour table and the scrollbar style injection are not modelled; only the theme-name fallback is.
- src/components/dashboard/simple-loader.tsx is not part of this model, since it only shows and hides markup.
- The authentication redirect of the dashboard is not modelled, because the hook it relies on is not part of this model.
- `handleEnhanceWithFiles` on the dashboard only opens the dialog, and is not modelled.
- Dashboard.PollStep: not listed as its own row. It is the composition of Dashboard.Classify and Dashboard.Dispatch, whose contracts carry the property.
- CreationForm.IsWebProtocol, CreationForm.IsNameChar, CreationForm.Record, CreationForm.RejectedFileAlert, CreationForm.FailedFileAlert, CreationForm.CreationFormState.SubmitEnabled, Dashboard.FailedToast, Dashboard.PartialToast, FileEnhancement.FailureNotice, FileEnhancement.SuccessNotice, ChatWidget.TargetPrefix, Embed.CollectionOf and Embed.SrcOf: not listed as their own rows. They are helpers, and the contracts of the listed members that use them (CheckUrl, CleanName, RecordTail, FileLog, CanSubmitTrimmed, Dispatch, FailureNotices, Enhance, ButtonTarget, CollectionRoundTrip and SnippetSrcIsChatbotUrl) carry their properties.
- Text.IsBlank: defined as "all whitespace". Text.BlankMeansTrimmedEmpty proves this is the source's `!s.trim()` test.
- Dashboard.CancelNotice: the contract states the toast's kind, not its exact title and body texts; the same holds for Dashboard.StoreNotice.
- FileEnhancement.Enhance: the outer "Processing Failed" toast of the dialog is not modelled. It needs an error thrown outside each upload's own `try`, and only reading the auth token could throw there.
- Sidebar.ChatbotSidebar.FetchSettled: a successful response without a `chatbots` field would set the list to `undefined`; the model takes the payload's list as given.
- Sidebar.DeleteNotice: a thrown value that is not an `Error` would give the default text; the model only has thrown errors, which carry a message.
- Common.OrElse: a non-string `message` or `detail` field in an error payload is not modelled; the model takes string fields.
- Common.Rendered: a field can only be present or absent, so a JSON `null` or a non-string value of `chatbot_name` (src/components/dashboard/chatbot-sidebar.tsx:158), which the template renders as `null` or as that value's text, is not modelled.
- The API base URL and the configured widget collection name come from the environment. They appear in the model only as the requests' targets, which are left out.
