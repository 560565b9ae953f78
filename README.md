# AI-powered Student Chatbot: a verified model of its page and admin-route logic

The AI-powered Student Chatbot is a React front end and an Express back end for students. Students upload notes and
documents, chat with an assistant about the documents they select, generate quizzes and study plans, take timed MCQ
tests and browse the files the administrators publish. Administrators maintain notes, important notices,
timetables and MCQ tests.

This project models the deterministic logic inside those screens and inside the admin router, in Dafny:

- **Chat.** The chat-turn state machine (`handleSend`), the document-selection toggle, the upload loop that appends
  and selects documents, the send-button condition and the quiz option marking.
- **Chat context.** The chat context provider's session and history: create, send, incoming message, and the
  `useChat` guard.
- **Timed test.** The test taker: test lookup by id, the answers map, the one-second countdown with automatic
  submission, and the `m:ss` clock formatter.
- **Admin editors.**
  - The MCQ question list, with add and update-one-field.
  - The 7 × 8 timetable grid, with single-cell update.
  - The important-notes form.
  - Each editor's required-field validation, request building and POST/PUT choice.
- **Admin router.**
  - The `adminAuth` bearer-token guard and login rejection.
  - MCQ validation and the `timeLimit` default.
  - The conditional file fields of creates and updates.
  - The download dispatch and multer's stored file name.
- **File listings.**
  - The Files, Documents and Upload Notes pages.
  - The combined list, the search and type filters, the total count, and the download type and file name.
  - Extension classification with its icons and colours, and the "strip the last extension" regular expression.
  - Note upload and note deletion.
- **Quiz generator and study planner.** Default settings, the request text and result handling, and the
  selected-documents panel.

Every network request is an input: a `Wrappers.Outcome` that either resolved with a value or was rejected with a
reason. Components whose state the source updates in place are classes whose methods state the whole new state;
filters, classifications and text functions are pure functions with lemmas about them. JavaScript's string
operations are written out in `Text`:

- `trim`, ASCII `toLowerCase`, `includes`, `endsWith`, `indexOf`, `lastIndexOf` and the first-match `replace`;
- `parseInt` with sign, leading white space and the `0x` prefix;
- `String(n)` and `padStart`.

One module per source file, plus shared modules:

| file | module | models |
|---|---|---|
| wrappers.dfy | Wrappers | `Option`, and `Outcome` (a settled promise) |
| text.dfy | Text | the JavaScript string and number helpers the pages use |
| lists.dfy | Lists | order-preserving sub-lists, `filter`, removal of a value |
| selection.dfy | Selection | the selection toggle shared by Chat, QuizGenerator and StudyPlanner |
| uploads.dfy | Uploads | the document upload loop shared by the same three pages |
| form_fields.dfy | FormFields | a JavaScript object used as a form, and the `FormData` built from it |
| mcq.dfy, chat_api.dfy | Mcq, ChatApi | the MCQ test records and the chat request and reply values |
| chat_page.dfy | ChatPage | frontend/src/pages/Chat.js |
| chat_context.dfy | ChatContext | frontend/src/context/ChatContext.js |
| test_taker.dfy | TestTaker | frontend/src/pages/TestTaker.js |
| admin_requests.dfy | AdminRequests | the editors' shared `Authorization` header and POST/PUT choice |
| admin_mcq.dfy | AdminMcq | frontend/src/pages/AdminMCQ.js |
| admin_timetable.dfy | AdminTimetable | frontend/src/pages/AdminTimetable.js |
| admin_important_notes.dfy | AdminImportantNotes | frontend/src/pages/AdminImportantNotes.js |
| admin_routes.dfy | AdminRoutes | backend/src/routes/admin.js |
| files_page.dfy | FilesPage | frontend/src/pages/Files.js |
| file_kinds.dfy | FileKinds | the extension rule shared by Documents.js and UploadNotes.js |
| documents_page.dfy | DocumentsPage | frontend/src/pages/Documents.js |
| upload_notes.dfy | UploadNotesPage | frontend/src/pages/UploadNotes.js |
| quiz_generator.dfy | QuizGenerator | frontend/src/pages/QuizGenerator.js |
| study_planner.dfy | StudyPlanner | frontend/src/pages/StudyPlanner.js |

## Model

| member | source | states |
|---|---|---|
| Text.TrimEmptyIffBlank | frontend/src/pages/Chat.js:59 | `message.trim()` is empty exactly when every character of the message is JavaScript white space |
| Text.LowerIdempotent | frontend/src/pages/Files.js:75-77 | lowercasing an already lowercased text changes nothing, so lowercasing the search term twice is harmless |
| Text.LastIndexOf | frontend/src/pages/Documents.js:99 | the position found holds the character and no later position does; none is found exactly when the character is absent |
| Text.ParseIntRoundTrip | backend/src/routes/admin.js:153 | `parseInt` reads back every integer printed by `String(n)` |
| Text.IntToStringInjective | frontend/src/pages/QuizGenerator.js:95 | different integers print differently |
| Text.PadStart | frontend/src/pages/TestTaker.js:61 | `padStart` gives at least the target width, ends with the original text and fills only the front |
| Lists.FilterMembership | frontend/src/pages/Files.js:74 | an element is in `filter(p)` exactly when it is in the list and satisfies `p` |
| Lists.FilterIsSubsequence | frontend/src/pages/Files.js:74 | `filter` keeps its elements in the list's order |
| Lists.FilterKeepsAll | frontend/src/pages/UploadNotes.js:78 | `filter` with a predicate every element satisfies keeps the whole list |
| Lists.WithoutMultiset | frontend/src/pages/Chat.js:108 | removing a value removes every occurrence of it and no other element |
| Selection.Toggle | frontend/src/pages/Chat.js:105-111 | the id is selected afterwards exactly when it was not before; every other id keeps its membership; an absent id is appended at the end; a present one shrinks the list |
| Selection.TogglePresent | frontend/src/pages/Chat.js:107-108 | toggling a selected id removes every occurrence of it and keeps the rest in order |
| Selection.ToggleTwiceAbsent | frontend/src/pages/Chat.js:105-111 | on a list without the id, toggling it twice gives back the original list |
| Selection.ToggleTwicePresent | frontend/src/pages/Chat.js:105-111 | on a list with the id, toggling it twice moves it to the end, once |
| Selection.ToggleKeepsNoDuplicates | frontend/src/pages/QuizGenerator.js:74-80 | a selection without duplicates stays without duplicates |
| Uploads.AddedAll | frontend/src/pages/Chat.js:125-129 | definition: the `newDoc` records of a run of uploads, `{_id, fileName, processed}` for each accepted file, in upload order |
| Uploads.AddedAllCount | frontend/src/pages/Chat.js:116-136 | a run of uploads adds exactly one document per accepted file |
| Uploads.AddedAllFromReceipts | frontend/src/pages/Chat.js:125-129 | every added document carries an accepted upload's id and processed flag and that file's name |
| Uploads.UploadAll | frontend/src/pages/Chat.js:113-139 | the loop appends the added documents in file order and selects each of their ids |
| FormFields.Get | frontend/src/pages/AdminMCQ.js:27 | a key is read back exactly when the form has it, with a value the form holds |
| FormFields.Set | frontend/src/pages/AdminMCQ.js:144 | setting a key makes it read back the new value and leaves every other key's value unchanged |
| FormFields.SetKeepsUniqueKeys | frontend/src/pages/AdminImportantNotes.js:118-161 | a form with distinct keys keeps distinct keys after a field is set |
| FormFields.AllFilledThree | frontend/src/pages/AdminImportantNotes.js:27 | the three-field validation passes exactly when none of the fields is missing or empty |
| FormFields.BodyContents | frontend/src/pages/AdminImportantNotes.js:33-39 | every form key is appended with its value, and a file part is added exactly when a file was chosen, last |
| FormFields.BuildFormData | frontend/src/pages/AdminImportantNotes.js:35-39 | the `forEach` loop appends the fields in key order, then the file when one is chosen |
| ChatPage.ModeName | frontend/src/pages/Chat.js:14 | only the chat mode is sent as `chat` |
| ChatPage.OutgoingContent | frontend/src/pages/Chat.js:65 | the typed text when it is non-empty, else `Generate a quiz` in quiz mode and `Create a study plan` in any other mode; never empty |
| ChatPage.SendIgnored | frontend/src/pages/Chat.js:59-60 | definition: `handleSend` returns at once for a blank message in chat mode or when there is no session id |
| ChatPage.SendDisabled | frontend/src/pages/Chat.js:611 | definition: the send button is disabled for a blank chat message, while loading, or with nothing selected |
| ChatPage.SendEnabledIsNotIgnored | frontend/src/pages/Chat.js:611 | the send button is disabled exactly for a blank chat message, while loading, or with nothing selected; an enabled button with a session is never ignored |
| ChatPage.OptionLetter | frontend/src/pages/Chat.js:185 | option `i` is lettered with the character code `65 + i`, `A` to `Z` for the first 26 |
| ChatPage.MarkedCorrect | frontend/src/pages/Chat.js:181 | definition: option `i` is styled as correct when `i === q.correct` |
| ChatPage.MarkedOptions | frontend/src/pages/Chat.js:181-187 | exactly the option at `q.correct` is marked when that index is valid, none otherwise |
| ChatPage.MarkedFrom | frontend/src/pages/Chat.js:179-187 | the options from `i` on that are marked: `q.correct` alone when it lies in that range, none otherwise |
| ChatPage.ChatPage.constructor | frontend/src/pages/Chat.js:9-19 | the initial page state; the mode comes from the navigation state when one is given |
| ChatPage.ChatPage.LoadDocuments | frontend/src/pages/Chat.js:38-45 | a successful fetch replaces the document list; a failure leaves it |
| ChatPage.ChatPage.CreateSession | frontend/src/pages/Chat.js:47-56 | a created session's id is stored; a failure leaves the old one |
| ChatPage.ChatPage.BeginSend | frontend/src/pages/Chat.js:58-69 | a blank chat message or no session changes nothing and sends nothing; otherwise `loading` is set, the user turn is appended and the request carries the content, the selection and the mode |
| ChatPage.ChatPage.FinishSend | frontend/src/pages/Chat.js:81-102 | success appends the reply, stores any quiz or plan, clears the input and resets the mode to chat; failure appends the apology and changes nothing else; `loading` ends false |
| ChatPage.ChatPage.HandleSend | frontend/src/pages/Chat.js:58-103 | a send goes out exactly when it is not ignored, as the request for the typed text or the mode's default; the history then grows by the user turn and the reply (or the apology); on success the reply's quiz and plan are kept, the input is cleared and the mode returns to chat; on failure input, mode, quiz and plan are kept; an ignored send changes nothing |
| ChatPage.ChatPage.ToggleDocumentSelection | frontend/src/pages/Chat.js:105-111 | the selection becomes its toggle |
| ChatPage.ChatPage.OnDrop | frontend/src/pages/Chat.js:113-139 | accepted uploads are appended and selected, in order; `uploading` ends false |
| ChatContext.UseChat | frontend/src/context/ChatContext.js:8-14 | the provider's value, or the `useChat must be used within a ChatProvider` error exactly when there is no provider |
| ChatContext.ChatProvider.constructor | frontend/src/context/ChatContext.js:16-21 | history empty, no session |
| ChatContext.ChatProvider.CreateSession | frontend/src/context/ChatContext.js:46-53 | no user: nothing happens; a created session replaces the current one and empties the history; a failed request changes nothing and is rethrown |
| ChatContext.ChatProvider.SendMessage | frontend/src/context/ChatContext.js:55-88 | a missing session is created first; the user turn with exactly the content is appended; success adds no assistant turn; failure appends one assistant turn flagged as an error and rethrows |
| ChatContext.ChatProvider.ReceiveMessage | frontend/src/context/ChatContext.js:32-34 | an incoming message is appended at the end and earlier messages are unchanged |
| ChatContext.History | frontend/src/context/ChatContext.js:51 | definition: the history a send starts from, emptied when the send had to create a session first |
| TestTaker.FormatTime | frontend/src/pages/TestTaker.js:58-62 | definition: `formatTime`, the floored minutes, a colon and the truncated remainder padded to two digits; FormatTimeRoundTrip gives its meaning |
| TestTaker.JsRem | frontend/src/pages/TestTaker.js:60 | JavaScript's `%`: the remainder has the sign of the dividend and is smaller than the divisor |
| TestTaker.SecondsField | frontend/src/pages/TestTaker.js:60-61 | for a non-negative time the seconds field is two digits with a value below 60 |
| TestTaker.FormatTimeRoundTrip | frontend/src/pages/TestTaker.js:58-62 | for a non-negative time, `mins:ss` reads back as `mins * 60 + ss`, the original number of seconds |
| TestTaker.ReadBack | frontend/src/pages/TestTaker.js:58-62 | a display whose fields hold the whole minutes and the remaining seconds reads back as the time |
| TestTaker.FormatTimeFields | frontend/src/pages/TestTaker.js:58-62 | a non-negative time prints as its whole minutes, a colon and its padded remaining seconds |
| TestTaker.ParseTimeAt | frontend/src/pages/TestTaker.js:61 | a display reads as the fields on either side of its last colon |
| TestTaker.ParseTimeOf | frontend/src/pages/TestTaker.js:61 | a display with digit-only fields and two seconds digits reads as minutes * 60 + seconds |
| TestTaker.Tick | frontend/src/pages/TestTaker.js:19-26 | definition: one run of the timer effect: a second off while time is left and not submitted, submission at zero with a test loaded, otherwise no change |
| TestTaker.Run | frontend/src/pages/TestTaker.js:19-26 | definition: `n` successive runs of the timer effect |
| TestTaker.SubmittedIsFinal | frontend/src/pages/TestTaker.js:20-24 | once submitted, no tick changes anything: no countdown and no way back |
| TestTaker.CountsDown | frontend/src/pages/TestTaker.js:20-21 | before zero, each tick takes exactly one second off and submits nothing |
| TestTaker.AutoSubmit | frontend/src/pages/TestTaker.js:19-26 | a loaded test with `t` seconds left is submitted after exactly `t + 1` ticks and not before |
| TestTaker.RunSplit | frontend/src/pages/TestTaker.js:19-26 | running `m + n` ticks is running `m` then `n` |
| TestTaker.NoTestNeverSubmits | frontend/src/pages/TestTaker.js:23 | without a loaded test the countdown never submits |
| TestTaker.FindFrom | frontend/src/pages/TestTaker.js:31 | the first position at or after `k` whose id matches, or none when no later test matches |
| TestTaker.FindTest | frontend/src/pages/TestTaker.js:31 | `find`: the first test of the list with the id, or none exactly when no test has the id |
| TestTaker.TestTakerPage.constructor | frontend/src/pages/TestTaker.js:9-13 | no test, no answers, no time, not submitted, loading |
| TestTaker.TestTakerPage.LoadTest | frontend/src/pages/TestTaker.js:28-44 | the test with the page's id is selected and its clock set to `timeLimit * 60`; no match leaves no test; a failed fetch leaves the test; loading ends in every case |
| TestTaker.TestTakerPage.HandleAnswerChange | frontend/src/pages/TestTaker.js:46-51 | question `i` gets answer `a`; every other entry is kept |
| TestTaker.TestTakerPage.HandleSubmit | frontend/src/pages/TestTaker.js:53-56 | the test is submitted |
| TestTaker.TestTakerPage.Step | frontend/src/pages/TestTaker.js:19-26 | one run of the countdown effect is one `Tick` of the clock state; a submitted test stays submitted with its time frozen |
| AdminRequests.AuthorizationHeader | frontend/src/pages/AdminMCQ.js:52 | `Bearer ` followed by the stored token, or by the text `null` when none is stored |
| AdminRequests.Editing | frontend/src/pages/AdminMCQ.js:44-45 | definition: the `editingId ?` test, an id that is set and non-empty |
| AdminRequests.SaveTarget | frontend/src/pages/AdminMCQ.js:44-45 | PUT exactly when an id is being edited, POST otherwise |
| AdminRequests.SaveTargetIdentifiesRecord | frontend/src/pages/AdminImportantNotes.js:42-43 | the request target determines whether and which record is being edited |
| AdminMcq.Edited | frontend/src/pages/AdminMCQ.js:115-119 | an edit changes exactly the named field of the question |
| AdminMcq.EditIdempotent | frontend/src/pages/AdminMCQ.js:113-121 | repeating the same edit changes nothing more |
| AdminMcq.EditsCommute | frontend/src/pages/AdminMCQ.js:113-121 | edits of different fields commute |
| AdminMcq.UpdatedQuestions | frontend/src/pages/AdminMCQ.js:113-121 | updating question `i` keeps the length and every other question |
| AdminMcq.EditForm | frontend/src/pages/AdminMCQ.js:77 | definition: the form `handleEdit` loads, title, description, semester and time limit of the stored test |
| AdminMcq.EditFormFields | frontend/src/pages/AdminMCQ.js:77 | `handleEdit` loads title, description, semester and time limit, under distinct keys |
| AdminMcq.EditFormSavable | frontend/src/pages/AdminMCQ.js:27-30 | an edited test passes validation exactly when its title, description and semester are non-empty |
| AdminMcq.LoadedQuestions | frontend/src/pages/AdminMCQ.js:78 | the test's questions (even an empty list), or one blank question when the field is absent |
| AdminMcq.EditedTestIsUpdatedInPlace | frontend/src/pages/AdminMCQ.js:44-45 | saving an edited test is a PUT to `mcq-tests/{id}` |
| AdminMcq.AdminMcqPage.constructor | frontend/src/pages/AdminMCQ.js:6-9 | empty form, one blank question, nothing edited |
| AdminMcq.AdminMcqPage.SetField | frontend/src/pages/AdminMCQ.js:144-182 | one form field is set |
| AdminMcq.AdminMcqPage.AddQuestion | frontend/src/pages/AdminMCQ.js:109-111 | one blank question is appended; earlier questions are unchanged |
| AdminMcq.AdminMcqPage.UpdateQuestion | frontend/src/pages/AdminMCQ.js:113-121 | an index in range updates that question's field only; an index out of range throws and changes nothing |
| AdminMcq.AdminMcqPage.ResetForm | frontend/src/pages/AdminMCQ.js:103-107 | empty form, one blank question, nothing edited |
| AdminMcq.AdminMcqPage.HandleEdit | frontend/src/pages/AdminMCQ.js:76-80 | the edit form, the loaded questions and the edited id |
| AdminMcq.AdminMcqPage.HandleSubmit | frontend/src/pages/AdminMCQ.js:26-74 | nothing is sent when a required field or the token is missing; otherwise the payload goes to the save target; a success resets form, questions and edited id, anything else leaves them |
| AdminTimetable.EmptyGrid | frontend/src/pages/AdminTimetable.js:15 | 7 rows of 8 empty cells |
| AdminTimetable.UpdatedGrid | frontend/src/pages/AdminTimetable.js:141-145 | cell `[d][t]` becomes `v`; the dimensions and every other cell are unchanged |
| AdminTimetable.LastWriteWins | frontend/src/pages/AdminTimetable.js:141-145 | two writes to one cell leave the later value |
| AdminTimetable.DistinctWritesCommute | frontend/src/pages/AdminTimetable.js:141-145 | writes to different cells commute |
| AdminTimetable.EditForm | frontend/src/pages/AdminTimetable.js:109 | definition: the form `handleEdit` loads, title, description and semester of the stored timetable |
| AdminTimetable.EditFormFields | frontend/src/pages/AdminTimetable.js:109 | `handleEdit` loads title, description and semester; the form passes validation exactly when they are non-empty |
| AdminTimetable.AdminTimetablePage.Schedule | frontend/src/pages/AdminTimetable.js:15 | the grid held in the page's array, cell by cell |
| AdminTimetable.AdminTimetablePage.constructor | frontend/src/pages/AdminTimetable.js:6-17 | empty form, no file, nothing edited, upload mode, empty draft and empty 7 × 8 grid |
| AdminTimetable.AdminTimetablePage.UpdateSchedule | frontend/src/pages/AdminTimetable.js:141-145 | the grid becomes its single-cell update |
| AdminTimetable.AdminTimetablePage.SetField | frontend/src/pages/AdminTimetable.js:182-199 | one form field is set |
| AdminTimetable.AdminTimetablePage.SetMode | frontend/src/pages/AdminTimetable.js:163-170 | the chosen mode, upload or create, is set |
| AdminTimetable.AdminTimetablePage.SetFile | frontend/src/pages/AdminTimetable.js:215-220 | the chosen image, or none when the picker is cancelled |
| AdminTimetable.AdminTimetablePage.SetDraftTitle | frontend/src/pages/AdminTimetable.js:228-233 | the draft title is set; description and semester are kept |
| AdminTimetable.AdminTimetablePage.SetDraftDescription | frontend/src/pages/AdminTimetable.js:237-242 | the draft description is set; title and semester are kept |
| AdminTimetable.AdminTimetablePage.SetDraftSemester | frontend/src/pages/AdminTimetable.js:245-250 | the draft semester is set; title and description are kept |
| AdminTimetable.AdminTimetablePage.ClearDraft | frontend/src/pages/AdminTimetable.js:65 | the draft is cleared and the grid is a fresh empty 7 × 8 grid |
| AdminTimetable.AdminTimetablePage.ResetForm | frontend/src/pages/AdminTimetable.js:134-139 | form, file and edited id cleared, and the empty grid restored |
| AdminTimetable.AdminTimetablePage.HandleEdit | frontend/src/pages/AdminTimetable.js:108-111 | the edit form and the edited id |
| AdminTimetable.AdminTimetablePage.HandleSubmit | frontend/src/pages/AdminTimetable.js:37-106 | each mode validates its own fields; create mode POSTs the draft to `/timetable/create`, upload mode POSTs or PUTs the form with the image |
| AdminTimetable.AdminTimetablePage.SubmitCreate | frontend/src/pages/AdminTimetable.js:38-75 | nothing is sent without title, description and semester; a success resets the draft and the grid |
| AdminTimetable.AdminTimetablePage.ClearUpload | frontend/src/pages/AdminTimetable.js:95-97 | form, file and edited id cleared |
| AdminTimetable.AdminTimetablePage.SubmitUpload | frontend/src/pages/AdminTimetable.js:43-105 | nothing is sent when a required field is missing; the body is every form field then the image; a success clears form, file and edited id |
| AdminImportantNotes.EditForm | frontend/src/pages/AdminImportantNotes.js:66 | definition: the form `handleEdit` loads, title, message, semester and priority of the stored note |
| AdminImportantNotes.DefaultFormFields | frontend/src/pages/AdminImportantNotes.js:6 | the default form holds priority `medium` only, so it cannot be sent as it is |
| AdminImportantNotes.EditFormFields | frontend/src/pages/AdminImportantNotes.js:66 | `handleEdit` loads title, message, semester and priority, under distinct keys |
| AdminImportantNotes.EditFormSendable | frontend/src/pages/AdminImportantNotes.js:27-30 | an edited note passes validation exactly when its title, message and semester are non-empty |
| AdminImportantNotes.AdminImportantNotesPage.constructor | frontend/src/pages/AdminImportantNotes.js:6-9 | priority `medium`, no file, nothing edited |
| AdminImportantNotes.AdminImportantNotesPage.SetField | frontend/src/pages/AdminImportantNotes.js:118-161 | one form field is set; the keys stay distinct |
| AdminImportantNotes.AdminImportantNotesPage.SetFile | frontend/src/pages/AdminImportantNotes.js:150-155 | the chosen file, or none when the picker is cancelled |
| AdminImportantNotes.AdminImportantNotesPage.ResetForm | frontend/src/pages/AdminImportantNotes.js:91-95 | priority `medium` again, no file, nothing edited |
| AdminImportantNotes.AdminImportantNotesPage.HandleEdit | frontend/src/pages/AdminImportantNotes.js:65-68 | the edit form and the edited id |
| AdminImportantNotes.AdminImportantNotesPage.HandleSubmit | frontend/src/pages/AdminImportantNotes.js:26-63 | nothing is sent when title, message or semester is missing; otherwise every field then the file is sent to the save target; a success restores the default form and clears file and edited id |
| AdminRoutes.StoredFileName | backend/src/routes/admin.js:21 | definition: multer's stored name, the decimal timestamp, a `-`, then the original name |
| AdminRoutes.StoredFileNameParts | backend/src/routes/admin.js:20-22 | the stored name is the timestamp's digits, the first `-`, then the original name, and both read back |
| AdminRoutes.StoredPath | backend/src/routes/admin.js:16-22 | a stored upload's path lies under `uploads/admin/` |
| AdminRoutes.TokenOf | backend/src/routes/admin.js:29 | definition: the header with its first `Bearer ` removed; no header gives no token |
| AdminRoutes.AdminAuth | backend/src/routes/admin.js:27-41 | 401 `Access denied` exactly when the header is absent or empty after removing `Bearer `; otherwise the verified admin, or 401 `Invalid token` |
| AdminRoutes.BearerPrefixRemoved | backend/src/routes/admin.js:29 | removing `Bearer ` from `Bearer {token}` gives the token back |
| AdminRoutes.EditorHeaderAuthenticates | backend/src/routes/admin.js:27-41 | the editors' header is accepted exactly when the stored token is non-empty and verifies to an existing admin; empty is `Access denied`, a token that does not verify or names no admin is `Invalid token`; a token never stored arrives as `null` |
| AdminRoutes.FindByEmail | backend/src/routes/admin.js:47 | an admin with the email, none exactly when no admin has it |
| AdminRoutes.FindByEmailFirst | backend/src/routes/admin.js:47 | the admin found is the first with the email |
| AdminRoutes.Login | backend/src/routes/admin.js:44-58 | 401 `Invalid credentials` exactly when no admin has the email or the password does not match; otherwise the signed token and the admin's details |
| AdminRoutes.LoginNeedsMatchingAdmin | backend/src/routes/admin.js:44-58 | a successful login belongs to the first admin with the email, whose password matched |
| AdminRoutes.TimeLimit | backend/src/routes/admin.js:153 | `parseInt(timeLimit) \|\| 30` is never 0 |
| AdminRoutes.TimeLimitDefaults | backend/src/routes/admin.js:153 | a number or its decimal text is kept unless 0, which becomes 30; an absent or non-numeric value becomes 30 |
| AdminRoutes.CreateMcq | backend/src/routes/admin.js:139-163 | 400 `Title, description, and semester are required` exactly when one of them is missing or empty, so nothing is saved; otherwise the saved test carries the fields and the defaulted time limit |
| AdminRoutes.UpdateMcq | backend/src/routes/admin.js:283-300 | title, description, semester and questions pass through unchanged, and the update carries the defaulted time limit, never 0 |
| AdminRoutes.CreatedFileFields | backend/src/routes/admin.js:69-70 | `fileName` and `filePath` are both present exactly when a file was uploaded, taken from it |
| AdminRoutes.UploadFields | backend/src/routes/admin.js:245-248 | an update writes the file fields exactly as a creation would |
| AdminRoutes.NoteUpdateData | backend/src/routes/admin.js:241-254 | the note update carries the text fields and the file fields only with an upload |
| AdminRoutes.ImportantUpdateData | backend/src/routes/admin.js:268-281 | the notice update carries the text fields and the file fields only with an upload |
| AdminRoutes.TimetableUpdateData | backend/src/routes/admin.js:256-266 | the timetable update carries `imagePath` only with an upload |
| AdminRoutes.Download | backend/src/routes/admin.js:303-325 | a found record's non-empty `filePath` is served for `note` and `important`, its `imagePath` for `timetable`, and only those; any other type, unknown record or empty path is 404 `File not found` |
| AdminRoutes.UpdatedNoteDownloads | backend/src/routes/admin.js:241-254 | after an update with a file the note downloads that file; after one without, what was served before |
| AdminRoutes.CreatedNoteDownloads | backend/src/routes/admin.js:61-81 | a note created with an upload downloads its stored path; one created without has nothing to serve |
| FilesPage.Combined | frontend/src/pages/Files.js:67-72 | definition: notes, important notes, timetables and MCQ tests concatenated, each under its tag; CombinedLayout gives its layout |
| FilesPage.Tag | frontend/src/pages/Files.js:68-71 | each item keeps its position and gets its collection's tag |
| FilesPage.CombinedLayout | frontend/src/pages/Files.js:67-72 | notes, then important notes, then timetables, then MCQ tests, each under its tag |
| FilesPage.MatchesSearch | frontend/src/pages/Files.js:75-77 | definition: the lowercased title, description or message, where present, includes the lowercased term |
| FilesPage.MatchesFilter | frontend/src/pages/Files.js:78 | definition: the filter is `all` or names the item's collection tag |
| FilesPage.FilteredFiles | frontend/src/pages/Files.js:74-80 | only items passing search and filter are kept |
| FilesPage.FilteredSelection | frontend/src/pages/Files.js:74-80 | the result keeps the combined order and holds exactly the items matching search and filter |
| FilesPage.IncludesEmpty | frontend/src/pages/Files.js:75 | every text includes the empty search |
| FilesPage.TextlessNeverShown | frontend/src/pages/Files.js:75-77 | an item without title, description and message is never shown; any other is shown for the empty search and `all` |
| FilesPage.TypeFilterShowsOneKind | frontend/src/pages/Files.js:78 | a type filter shows only items of that type |
| FilesPage.SearchIgnoresCase | frontend/src/pages/Files.js:75-77 | searching for a term or its lowercase finds the same items |
| FilesPage.TotalCount | frontend/src/pages/Files.js:115 | the total is the length of the combined list |
| FilesPage.ShowDownload | frontend/src/pages/Files.js:217 | definition: the download button shows when the item has a non-empty `fileName`, `filePath` or `imagePath` |
| FilesPage.DownloadType | frontend/src/pages/Files.js:220-221 | `note` and `important` map to themselves; every other tag maps to `timetable` |
| FilesPage.DownloadName | frontend/src/pages/Files.js:223 | the file name when present, else the title |
| FileKinds.Extension | frontend/src/pages/Documents.js:99 | the lowercased name's final dot-free part, the whole lowercased name when there is no dot |
| FileKinds.DotsKept | frontend/src/pages/Documents.js:99 | lowercasing neither adds nor removes dots |
| FileKinds.ExtensionOfSuffix | frontend/src/pages/Documents.js:91-99 | a name ending in `.ext` in any case has the lowercased `ext` as its extension |
| FileKinds.ExtensionOfName | frontend/src/pages/UploadNotes.js:94 | `base.ext` has the lowercased `ext` as its extension, whatever dots `base` holds |
| FileKinds.ExtensionIgnoresCase | frontend/src/pages/UploadNotes.js:94-107 | the extension does not depend on the case of the name |
| DocumentsPage.TypeMatches | frontend/src/pages/Documents.js:90-93 | definition: `all`, or a lowercased name ending in `.pdf`, `.docx` or `.txt` for that filter |
| DocumentsPage.Listed | frontend/src/pages/Documents.js:88-94 | definition: a document with a name that contains the search term, ignoring case, and that passes the type filter |
| DocumentsPage.FilteredDocuments | frontend/src/pages/Documents.js:87-95 | every listed document passes the name, search and type tests |
| DocumentsPage.FilteredDocumentsSelection | frontend/src/pages/Documents.js:87-95 | the list keeps the library's order and holds exactly the documents passing the tests; one without a name never |
| DocumentsPage.FileIcon | frontend/src/pages/Documents.js:97-106 | the memo glyph exactly for docx, the curled page exactly for txt, the page for pdf, anything else or no name |
| DocumentsPage.FileColor | frontend/src/pages/Documents.js:108-117 | red exactly for pdf, blue exactly for docx, grey exactly for txt, green for anything else or no name |
| DocumentsPage.FilteredTypeHasItsExtension | frontend/src/pages/Documents.js:90-117 | a document the pdf, docx or txt filter lists has that extension, so it gets that type's icon and colour |
| DocumentsPage.UploadedDocument | frontend/src/pages/Documents.js:48-54 | definition: the record appended after an accepted upload, with the receipt's id and processed flag and the file's name as `fileName`, and no `name` |
| DocumentsPage.UploadedDocumentHidden | frontend/src/pages/Documents.js:48-88 | a just-uploaded document, which has a `fileName` but no `name`, is not listed until the list is reloaded |
| DocumentsPage.DisplayName | frontend/src/pages/Documents.js:302-330 | `fileName` when present, else `name` |
| DocumentsPage.FilteredByDisplayName | frontend/src/pages/Documents.js:87-95 | every listed document's displayed name passes the search and type tests |
| DocumentsPage.UploadedDocumentShown | frontend/src/pages/Documents.js:48-55 | filtering on the displayed name lists an upload exactly when its file name matches, and treats records without a `fileName` as before |
| UploadNotesPage.StripExtension | frontend/src/pages/UploadNotes.js:35 | removes the last `.` and the non-empty `/`- and dot-free rest, when the name ends that way; otherwise the name is kept; the result is always a prefix |
| UploadNotesPage.ExtensionAtUnique | frontend/src/pages/UploadNotes.js:35 | the regular expression can match at one position only |
| UploadNotesPage.StripExtensionOf | frontend/src/pages/UploadNotes.js:35 | `base.ext` becomes `base` for every non-empty `ext` without `.` or `/` |
| UploadNotesPage.StripExtensionKeeps | frontend/src/pages/UploadNotes.js:35 | a name without a dot, ending in a dot, or with a `/` after its last dot is kept |
| UploadNotesPage.NoteIcon | frontend/src/pages/UploadNotes.js:93-104 | no file name throws; the picture exactly for images, the memo exactly for docx, the curled page exactly for txt |
| UploadNotesPage.ExtensionColor | frontend/src/pages/UploadNotes.js:108-116 | the colour of a lowercased extension: purple exactly for jpg, jpeg and png, red exactly for pdf |
| UploadNotesPage.NoteColor | frontend/src/pages/UploadNotes.js:106-117 | no file name throws; purple exactly for images, red exactly for pdf |
| UploadNotesPage.NoteStyleMatchesDocuments | frontend/src/pages/UploadNotes.js:93-117 | apart from images, a note gets the same icon and colour as on the Documents page |
| UploadNotesPage.ImagesShareStyle | frontend/src/pages/UploadNotes.js:96-110 | `jpg`, `jpeg` and `png` in any case share the picture icon and purple colour |
| UploadNotesPage.UploadBody | frontend/src/pages/UploadNotes.js:32-35 | definition: the multipart body of one upload: the file as `note`, the fixed owner id, and the name without its extension |
| UploadNotesPage.UploadBodies | frontend/src/pages/UploadNotes.js:31-35 | every file is posted, in order, with the owner and its name without the extension |
| UploadNotesPage.AddedNotes | frontend/src/pages/UploadNotes.js:45-51 | definition: the notes a run of uploads appends, one per accepted file, in upload order |
| UploadNotesPage.LastSuccess | frontend/src/pages/UploadNotes.js:52 | definition: `Successfully uploaded {name}` for the last accepted file, none when no file was accepted |
| UploadNotesPage.LastFailure | frontend/src/pages/UploadNotes.js:53-56 | definition: `Upload failed for {name}: {reason}` for the last rejected file, none when no file was rejected |
| UploadNotesPage.AddedNotesFromReceipts | frontend/src/pages/UploadNotes.js:45-51 | every added note carries an accepted upload's id and name and that file's name |
| UploadNotesPage.AddedNotesCount | frontend/src/pages/UploadNotes.js:45-51 | exactly one note is appended per accepted upload |
| UploadNotesPage.LastSuccessIsLastAccepted | frontend/src/pages/UploadNotes.js:52 | the success message names the last accepted file, and there is none exactly when every upload failed |
| UploadNotesPage.LastFailureIsLastRejected | frontend/src/pages/UploadNotes.js:55-56 | the error message names the last rejected file and its reason, and there is none exactly when every upload succeeded |
| UploadNotesPage.UploadStep | frontend/src/pages/UploadNotes.js:31-58 | one more settled upload extends the bodies and the notes and replaces the message of its kind |
| UploadNotesPage.WithoutNote | frontend/src/pages/UploadNotes.js:78 | `filter` on the id: no remaining note has the deleted id, and none is added |
| UploadNotesPage.WithoutNoteKeepsOrder | frontend/src/pages/UploadNotes.js:78 | exactly the notes with another id remain, in their order, and nothing changes when no note has the id |
| UploadNotesPage.UploadNotesPage.constructor | frontend/src/pages/UploadNotes.js:8-11 | no notes, not uploading, no messages |
| UploadNotesPage.UploadNotesPage.OnDrop | frontend/src/pages/UploadNotes.js:26-61 | the messages are cleared, the bodies are the upload bodies, the notes grow by the added notes, the messages are the last success and the last failure, `uploading` ends false |
| UploadNotesPage.UploadNotesPage.Record | frontend/src/pages/UploadNotes.js:44-56 | an accepted upload appends one note and sets the success message; a rejected one sets the error only |
| UploadNotesPage.UploadNotesPage.DeleteNote | frontend/src/pages/UploadNotes.js:75-83 | success removes the notes with the id and reports it; failure changes only the error |
| QuizGenerator.QuizPrompt | frontend/src/pages/QuizGenerator.js:95 | definition: `Generate a {difficulty} difficulty quiz with {n} {type} questions` |
| QuizGenerator.QuizPromptFixesCount | frontend/src/pages/QuizGenerator.js:95 | for one difficulty and question type the request text determines the question count |
| QuizGenerator.QuizGeneratorPage.constructor | frontend/src/pages/QuizGenerator.js:8-18 | no documents, no selection, no quiz; settings 10 questions, `medium`, `multiple-choice` |
| QuizGenerator.QuizGeneratorPage.SetNumQuestions | frontend/src/pages/QuizGenerator.js:298-306 | the count becomes the chosen option of 5, 10, 15 and 20; difficulty and type are kept |
| QuizGenerator.QuizGeneratorPage.SetDifficulty | frontend/src/pages/QuizGenerator.js:314-321 | the difficulty becomes easy, medium or hard as chosen; count and type are kept |
| QuizGenerator.QuizGeneratorPage.SetQuestionType | frontend/src/pages/QuizGenerator.js:329-337 | the type becomes multiple-choice, true-false or mixed as chosen; count and difficulty are kept |
| QuizGenerator.QuizGeneratorPage.ToggleDocument | frontend/src/pages/QuizGenerator.js:74-80 | the selection becomes its toggle |
| QuizGenerator.QuizGeneratorPage.OnDrop | frontend/src/pages/QuizGenerator.js:33-62 | accepted uploads are appended and selected, in order |
| QuizGenerator.QuizGeneratorPage.GenerateQuiz | frontend/src/pages/QuizGenerator.js:82-111 | no request and no change with nothing selected; otherwise the `quiz-generation` request with the settings' text and the selection; the quiz changes only when the reply has one; `loading` ends false |
| StudyPlanner.PlanPrompt | frontend/src/pages/StudyPlanner.js:101 | definition: `Create a {duration} day study plan` |
| StudyPlanner.PlanPromptFixesDuration | frontend/src/pages/StudyPlanner.js:101 | different durations give different request texts |
| StudyPlanner.SelectedDocuments | frontend/src/pages/StudyPlanner.js:310 | every document in the panel is selected |
| StudyPlanner.SelectedDocumentsSelection | frontend/src/pages/StudyPlanner.js:310 | the panel lists, in library order, exactly the documents whose id is selected |
| StudyPlanner.ToggledPanel | frontend/src/pages/StudyPlanner.js:78-84 | toggling an id adds or removes its documents from the panel and leaves the others |
| StudyPlanner.UploadedArePanelled | frontend/src/pages/StudyPlanner.js:57-58 | every document a run of uploads adds is shown in the panel |
| StudyPlanner.StudyPlannerPage.constructor | frontend/src/pages/StudyPlanner.js:8-14 | no documents, no selection, no plan, duration 7, one of the offered durations |
| StudyPlanner.StudyPlannerPage.SetDuration | frontend/src/pages/StudyPlanner.js:327-331 | the duration becomes the chosen option, one of 3, 5, 7, 14 and 30 |
| StudyPlanner.StudyPlannerPage.ToggleDocument | frontend/src/pages/StudyPlanner.js:78-84 | the selection becomes its toggle |
| StudyPlanner.StudyPlannerPage.OnDrop | frontend/src/pages/StudyPlanner.js:37-66 | accepted uploads are appended and selected, in order |
| StudyPlanner.StudyPlannerPage.GenerateStudyPlan | frontend/src/pages/StudyPlanner.js:86-120 | no request and no change with nothing selected; otherwise the `study-plan` request for the duration and the selection; the plan changes only when the reply has one; `loading` ends false |

## Left out

- Rendering: JSX, styles and animations are left out. Icons are symbolic `FileKinds.Glyph` values; the emoji literals in UploadNotes.js are mis-encoded in the source file and are modelled as the glyphs they stand for.
- I/O is left out: `api`, `fetch`, `axios`, `localStorage`, `alert`, `confirm`, navigation, download links and console logging. Each request is a resolved-or-rejected input, and the stored admin token is an `Option` input.
- Clocks and timers are left out: `setTimeout`, `new Date()`, and every `timestamp`, `createdAt`, `uploadDate` and `fileSize` field. The countdown is a sequence of discrete ticks, and multer's `Date.now()` is a parameter.
- The socket.io connection is left out: connect, disconnect and `join-chat` are transport. Only the `new-message` append is modelled, as `ReceiveMessage`.
- ChatContext.ChatProvider.SendMessage: the awaits are taken in program order. React's stale closure, which reads the old `currentSession` right after `createSession`, is not modelled. A null session or user is modelled as the `TypeError` rejection that reading `.sessionId` or `.id` on null raises inside the `try`.
- `formatFileSize` is left out (Documents.js, StudyPlanner.js, UploadNotes.js): it is floating-point arithmetic with `Math.log` and `toFixed`.
- Text.Lower: `toLowerCase` is modelled on ASCII letters only; Unicode case mapping is not modelled.
- Text.ParseInt: it computes exact integers, with no loss of precision above 2^53, and the radix argument (never passed here) is not modelled.
- AdminMcq.AdminMcqPage.UpdateQuestion: the source copies the list but writes into the shared question object in place. The model updates a value, so aliasing between the old and new lists is not captured.
- AdminTimetable.AdminTimetablePage.UpdateSchedule: the source writes into the shared row array. The model writes the cell in place in one 7 × 8 array, and it requires the indices to be in range, which is the only kind the grid inputs produce.
- ChatPage.OptionLetter: it requires `65 + i` to be a valid character code. Options past the surrogate range are not modelled.
- QuizGenerator: a generated quiz is a sequence of `QuizItem`s, and a study plan is an opaque value shown as received.
- StudyPlanner.StudyPlannerPage.SetDuration: the duration select is modelled by option index.
- QuizGenerator.QuizGeneratorPage.SetNumQuestions: the three quiz-settings selects are modelled by option index, as the duration select.
- FormFields.Value: a `Num` holds an integer, while JavaScript numbers are doubles; fractions and the exponent form `String(n)` prints for |n| ≥ 10^21 are not modelled.
- AdminRoutes.TimeLimitDefaults: it is stated for the integers of `FormFields.Value`; a JSON `timeLimit` of `2.5` (which gives 2) or `1e21` (which prints as `1e+21` and gives 1) is outside it.
- The backend chat orchestration is left out, together with huggingfaceService and the `/chat` routes: their code is not part of this model.
- Mongoose, bcrypt and jsonwebtoken are left out. Stores are functions from id to record, and password checking, token verification and signing are function parameters. Database failures, which give 500 responses, are not modelled.
- The admin GET list routes, the delete routes, `/dashboard-stats`, `/semester/:semester` and `/timetable/create` are left out: they are Mongoose reads, deletes, counts or an unvalidated save of the request body.
- The page lists' `fetch*` reloads after a successful save are left out: they are requests whose results are inputs.
- Documents.js: the `loadDocuments` reload one second after an upload is left out, because it is a timer. A `null` entry in the document list is not modelled either.

## Findings

| source | as written | input that shows it | evidently intended | confidence | as-written member | corrected member |
|---|---|---|---|---|---|---|
| frontend/src/pages/Documents.js:48-95 | `onDrop` appends `{_id, fileName, processed}` with no `name`, and the filter reads `doc.name`. A freshly uploaded document therefore does not appear in the filtered list until the list is reloaded from the server, although the cards display `doc.fileName \|\| doc.name` | drop `notes.pdf`; the new record has `fileName = "notes.pdf"` and no `name`; with search `""` and filter `all` it is not listed | filter on the displayed name `doc.fileName \|\| doc.name`, so the upload is listed exactly when `notes.pdf` matches | medium, not executed | DocumentsPage.UploadedDocumentHidden | DocumentsPage.UploadedDocumentShown |
