# AnswerXtractor study lab, upload panel and back-end checks in Dafny

This project models the parts of AnswerXtractor that decide what a student
sees and what the server accepts.

- **Study Lab** (`frontend/src/components/StudyTools.jsx`):
  - the flashcard navigator, with a circular index and a flip flag;
  - the quiz session: a guard against answering twice, the score, advancing and finishing, and restarting;
  - the mind-map serialiser: `cleanName`, and `generateMermaidText` with its recursive `addChildren`;
  - the controller that fetches study material on every tab change and shows a spinner, an error panel or the session.
- **Upload panel** (`frontend/src/components/DocumentManager.jsx`):
  - the picker's acceptance test, on MIME type or file name;
  - how `uploading`, `uploadProgress` and `error` move while a file is posted.
- **Back end** (`backend/app.py`):
  - the `Authorization` header check;
  - the upload checks: file part, empty name, extension after the last dot, blank extracted text;
  - owner-scoped lookups and the cascades of `delete_document` and `delete_chat`;
  - `create_chat`;
  - the `get_chats` list with its "first user message" preview;
  - the `get_study_tools` type check.

Payloads from the study-material generator are untrusted. They are modelled
as a JSON `Value` (module `Json`) with JavaScript truthiness and property
access. Every view checks the payload's outer shape: an array for the
flashcards and the quiz, an object with a truthy `name` for the mind map.
The entries inside are not all checked. A flashcard needs a truthy question
and answer. A quiz question is not checked at all. So the render throws,
shown as the `Crashed` screen, on a null quiz entry, on a quiz entry whose
`options` is missing or not an array, and on a question, answer or option
that is an object. React refuses an object as a child.

Stateful components are classes whose fields are the component's hooks:
`FlashcardsView`, `QuizView`, `MindMapView`, `StudyLabView` and `UploadPanel`.
The back end's tables are the class `Store`. Most class methods are proved
to produce the state that a pure function gives:
- `QuizView`'s handlers give `Choose`, `Advance` or the initial state;
- `UploadPanel`'s handlers give `Pick`, `Settle` or `Expire`;
- the flashcard buttons give `Next` or `Prev`;
- `Store`'s methods give the filtered and extended tables;
- `MindMapView.RenderMermaid` sets the error that `RenderError` gives.

The invariants kept over any run of events, the round trips and the agreement
between client and server are proved about those functions.
`StudyLabView`'s methods and `FlashcardsView.Flip` instead state their whole
new state field by field in their ensures. The tab-race scenarios are proved
on the `StudyLabView` class itself.

Where the code and the intended behaviour disagree, the model follows the
code:

- **Tab switches.** The study-material controller has no stale-response
  guard. Every answer that arrives is applied, whichever tab asked for it.
  `StudyLab.StaleQuizPayload` shows a quiz answer arriving after a switch to
  the mind map and being shown as the mind map's payload.
  `StudyLab.ErrorOutlivesLaterPayload` shows an error panel that a later
  successful answer does not clear.
- **Node names.** `cleanName` yields "Unknown" only for a falsy name. A name
  made only of stripped characters yields "" (`MindMap.CleanNameCanBeEmpty`).
  Line breaks are not stripped, which is why `MindMap.MermaidTextShape`
  needs names without them.
- **Upload timer.** The three-second timer set after a successful upload
  clears whatever progress entry is showing when it fires. That includes the
  "uploading" entry of a file picked in the meantime
  (`DocumentManager.StaleTimerClearsNextUpload`).
- **Client and server acceptance.** The picker lets a file through on its
  MIME type alone. The server judges only the name's extension, so such a
  file can be refused (`DocumentManager.MimeOnlyFileRefusedByServer`). Judged
  by name, the two agree exactly (`DocumentManager.NameMatchesIffServerAccepts`).

## Model

| member | source | states |
|---|---|---|
| Flashcards.Next | frontend/src/components/StudyTools.jsx:167-172 | the next index stays inside the deck |
| Flashcards.Prev | frontend/src/components/StudyTools.jsx:174-179 | the previous index stays inside the deck |
| Flashcards.NavigationWraps | frontend/src/components/StudyTools.jsx:167-179 | next from the last card is 0, prev from 0 is the last card, otherwise ±1 |
| Flashcards.PrevUndoesNext | frontend/src/components/StudyTools.jsx:167-179 | prev after next, and next after prev, restore the index |
| Flashcards.ForwardWithinLap | frontend/src/components/StudyTools.jsx:167-172 | k presses of next (k ≤ deck size) land on i+k, wrapping once past the end |
| Flashcards.BackwardWithinLap | frontend/src/components/StudyTools.jsx:174-179 | k presses of prev (k ≤ deck size) land on i−k, wrapping once past the start |
| Flashcards.FullCircle | frontend/src/components/StudyTools.jsx:167-179 | a full lap of next or of prev returns to the starting card |
| Flashcards.Render | frontend/src/components/StudyTools.jsx:158-216 | "No flashcards" iff the payload is not a non-empty array; "Invalid flashcard data" iff the current entry lacks a truthy question or answer; a crash iff they pass but one is an object; otherwise a card with those fields, the flip state and the "i / n" position |
| Flashcards.ObjectQuestionCrashes | frontend/src/components/StudyTools.jsx:182-203 | a card whose question is an object passes the check and then throws |
| Flashcards.FlashcardsView.constructor | frontend/src/components/StudyTools.jsx:155-156 | a mounted navigator starts at card 0, unflipped |
| Flashcards.FlashcardsView.HandleNext | frontend/src/components/StudyTools.jsx:167-172 | offered while a card shows; unflips the card and moves to Next; the index stays in the deck |
| Flashcards.FlashcardsView.HandlePrev | frontend/src/components/StudyTools.jsx:174-179 | offered while a card shows; unflips the card and moves to Prev; the index stays in the deck |
| Flashcards.FlashcardsView.Flip | frontend/src/components/StudyTools.jsx:197 | clicking the card toggles the flip flag and leaves the index |
| Quiz.Choose | frontend/src/components/StudyTools.jsx:251-258 | no change once the result shows; otherwise records the pick, shows the result, and adds 1 to the score iff the pick is `correct_index` |
| Quiz.Advance | frontend/src/components/StudyTools.jsx:260-268 | score unchanged; before the last question moves on and clears the pick; on the last sets finished |
| Quiz.StepKeepsInv | frontend/src/components/StudyTools.jsx:251-268 | every event keeps: index in range, a pick exactly when the result shows, finished only on the last question, score ≤ questions answered |
| Quiz.RunKeepsInv | frontend/src/components/StudyTools.jsx:251-283 | after any sequence of events the invariant holds and 0 ≤ score ≤ number of questions |
| Quiz.OfferedRunRevealsBeforeFinishing | frontend/src/components/StudyTools.jsx:335-345 | using only the controls the screen offers, the quiz finishes only with the last answer revealed |
| Quiz.RunAppend | frontend/src/components/StudyTools.jsx:251-283 | running two event sequences one after the other is running their concatenation |
| Quiz.PlayScores | frontend/src/components/StudyTools.jsx:251-268 | answering k questions and advancing after each leaves question k open with score = number of correct answers |
| Quiz.FinalScore | frontend/src/components/StudyTools.jsx:270-278 | answering every question finishes the quiz with score = number of correct answers ≤ number of questions |
| Quiz.CountCorrect | frontend/src/components/StudyTools.jsx:255-256 | the number of correct answers is at most the number of answers |
| Quiz.MarkOf | frontend/src/components/StudyTools.jsx:313-329 | options are plain until the result shows; then the correct one is green, a wrong pick red, the rest faded |
| Quiz.Render | frontend/src/components/StudyTools.jsx:243-345 | "No questions" iff the payload is not a non-empty array; results (score out of total) iff finished; otherwise a crash iff the current entry's `options` is not an array or its question or an option is an object; else the question, its options, number, total, score, and an advance button iff the result shows, labelled "Show Results" on the last question |
| Quiz.NullQuestionCrashes | frontend/src/components/StudyTools.jsx:292-313 | a null quiz entry throws instead of rendering |
| Quiz.MissingOptionsCrashes | frontend/src/components/StudyTools.jsx:292-313 | a quiz entry without `options` throws instead of rendering |
| Quiz.QuizView.constructor | frontend/src/components/StudyTools.jsx:236-240 | a mounted quiz starts at question 0 with score 0 |
| Quiz.QuizView.HandleOptionClick | frontend/src/components/StudyTools.jsx:251-258 | the new state is Choose of the old |
| Quiz.QuizView.HandleNext | frontend/src/components/StudyTools.jsx:260-268 | the new state is Advance of the old |
| Quiz.QuizView.Restart | frontend/src/components/StudyTools.jsx:281-283 | whatever the state, back to question 0, score 0, no pick, no result, not finished |
| MindMap.Strip | frontend/src/components/StudyTools.jsx:380 | stripping never lengthens a name |
| MindMap.StripChars | frontend/src/components/StudyTools.jsx:380 | a character survives stripping iff it was there and is not one of `(){}[]"` |
| MindMap.StripKeepsClean | frontend/src/components/StudyTools.jsx:380 | stripping a name without those characters changes nothing |
| MindMap.CleanName | frontend/src/components/StudyTools.jsx:377-381 | "Unknown" for a falsy name; a TypeError (None) for a truthy non-string; for a string, the first min(50, length) characters of the stripped name; every result is at most 50 characters with no forbidden character |
| MindMap.CleanNameIdempotent | frontend/src/components/StudyTools.jsx:377-381 | cleaning a non-empty cleaned name again gives it back |
| MindMap.CleanNameFixesClean | frontend/src/components/StudyTools.jsx:377-381 | a non-empty name of at most 50 characters with no brackets or quotes comes back from cleanName unchanged |
| MindMap.CleanNameCanBeEmpty | frontend/src/components/StudyTools.jsx:377-381 | a name made only of stripped characters cleans to "", not "Unknown" |
| MindMap.NodeEntriesShape | frontend/src/components/StudyTools.jsx:384-393 | a node's lines are one per node of its subtree, in pre-order, names clean: the node first at its level, every later line deeper, and exactly its own children one level down |
| MindMap.ForestEntriesShape | frontend/src/components/StudyTools.jsx:384-393 | a list of children yields one line per node of their subtrees, in pre-order, names clean, with exactly one line per child at the list's level |
| MindMap.OutlineShape | frontend/src/components/StudyTools.jsx:383-397 | the lines under the root are one per descendant, in pre-order from level 2, names clean; the level-2 lines are exactly the root's children (with NodeEntriesShape, every node's children sit one level below it) |
| MindMap.EmitAppend | frontend/src/components/StudyTools.jsx:387-388 | emitting two runs of lines is emitting them one after the other |
| MindMap.HeaderLineCount | frontend/src/components/StudyTools.jsx:383 | the header `mindmap` / `root((name))` is two lines |
| MindMap.EmitLineCount | frontend/src/components/StudyTools.jsx:386-388 | each entry writes exactly one line |
| MindMap.MermaidTextShape | frontend/src/components/StudyTools.jsx:383-397 | the text is the header followed by the indented pre-order lines, and has 2 + (number of descendants) lines |
| MindMap.AddChild | frontend/src/components/StudyTools.jsx:386-392 | appends the child's indented line and then its subtree's lines, or fails with the TypeError of a null child |
| MindMap.AddChildren | frontend/src/components/StudyTools.jsx:384-393 | appends, child by child, exactly the pre-order lines of the list |
| MindMap.GenerateMermaidText | frontend/src/components/StudyTools.jsx:375-398 | the accumulated text equals the recursive definition MermaidText |
| MindMap.RenderError | frontend/src/components/StudyTools.jsx:400-413 | no error iff the text was built and Mermaid rendered it; otherwise a non-empty message |
| MindMap.MindMapView.View | frontend/src/components/StudyTools.jsx:356-428 | "No mind map" iff the structure is not an object with a truthy name; the overlay shows iff rendering |
| MindMap.MindMapView.RenderMermaid | frontend/src/components/StudyTools.jsx:370-414 | after a render pass the view is never left loading, and the error is RenderError of the pass |
| StudyLab.TypeName | frontend/src/components/StudyTools.jsx:36-43 | every tab requests one of the three types the back end accepts |
| StudyLab.ErrorText | frontend/src/components/StudyTools.jsx:48 | the server's message when it sent a non-empty one, otherwise the fixed fallback; never empty |
| StudyLab.Show | frontend/src/components/StudyTools.jsx:104-134 | the spinner iff loading; the error panel iff not loading and an error is set; the session only for truthy data, with the active tab |
| StudyLab.StudyLabView.constructor | frontend/src/components/StudyTools.jsx:30-37 | mounting opens the flashcards tab and issues its request |
| StudyLab.StudyLabView.FetchStudyMaterial | frontend/src/components/StudyTools.jsx:39-41 | requests the active tab's type, loading, error cleared, data kept |
| StudyLab.StudyLabView.SelectTab | frontend/src/components/StudyTools.jsx:35-37 | a new tab issues a request for its type; the same tab issues none |
| StudyLab.StudyLabView.Retry | frontend/src/components/StudyTools.jsx:115-119 | from the error panel, re-requests the active tab's type |
| StudyLab.StudyLabView.Receive | frontend/src/components/StudyTools.jsx:42-51 | any answer stops loading; a payload replaces data whatever tab asked for it; a failure sets the error text and keeps data |
| StudyLab.StaleQuizPayload | frontend/src/components/StudyTools.jsx:35-52 | a quiz answer arriving after a switch to the mind map is shown as the mind map's payload |
| StudyLab.ErrorOutlivesLaterPayload | frontend/src/components/StudyTools.jsx:39-51 | an error from one request still shows after a later request delivers a payload |
| AppChecks.TokenFromHeader | backend/app.py:24-31 | 401 "Token is missing!" iff the header is absent or empty; otherwise the token is the header without a leading "Bearer ", or the header itself |
| AppChecks.BearerRoundTrip | backend/app.py:30-31 | "Bearer " + t yields t |
| AppChecks.AfterLastDot | backend/app.py:113 | the part after the last dot is a dot-free suffix preceded by a dot |
| AppChecks.AfterLastDotRoundTrip | backend/app.py:113 | splitting stem + "." + ext at the last dot gives back ext whenever ext has no dot |
| AppChecks.Extension | backend/app.py:112-113 | "" without a dot; otherwise the lowered text after the last dot |
| AppChecks.CheckUpload | backend/app.py:104-116 | 400 "No file provided!" without a file part, 400 "No file selected!" for an empty name, 400 "File type not supported!" for any other name whose extension is not pdf, docx, pptx or txt; accepted exactly otherwise |
| AppChecks.StripEmptyIffBlank | backend/app.py:122 | stripped text is empty iff every character is white space |
| AppChecks.UploadReply | backend/app.py:104-149 | the name checks come first; then 500 when extraction fails, 400 for blank text, 201 exactly when the checks pass and the text is not blank |
| AppChecks.Truncate | backend/app.py:186 | text of up to 50 characters is kept; longer text becomes its first 50 characters + "..."; never more than 53 |
| AppStore.FindDocument | backend/app.py:154 | a found document has that id and that owner; None means no such document |
| AppStore.FindChat | backend/app.py:307 | a found chat has that id and that owner; None means no such chat |
| AppStore.GetDocument | backend/app.py:178 | by id alone, whoever owns it |
| AppStore.OthersDocumentNotFound | backend/app.py:154-157 | another user's document is not found (404) |
| AppStore.OthersChatNotFound | backend/app.py:307-310 | another user's chat is not found (404) |
| AppStore.ChatsOf | backend/app.py:160 | exactly the chats on the document |
| AppStore.WithoutMessagesOf | backend/app.py:161-162 | exactly the messages outside the given chats remain |
| AppStore.WithoutMessagesOfMore | backend/app.py:161-162 | deleting chat by chat equals deleting for all the chats at once |
| AppStore.WithoutChatsOf | backend/app.py:163 | exactly the chats not on the document remain |
| AppStore.WithoutDocument | backend/app.py:165 | exactly the other documents remain |
| AppStore.WithoutChat | backend/app.py:314 | exactly the other chats remain |
| AppStore.CascadeStaysWithOwner | backend/app.py:160-163 | the cascade ignores owners, yet while chats sit on their owner's documents it removes only the caller's chats |
| AppStore.DeleteDocumentKeepsOthers | backend/app.py:159-166 | after deleting a document, a message, chat or document remains iff it was not tied to that document |
| AppStore.FirstUserMessage | backend/app.py:184-187 | the first message from "user", with none before it; None iff there is none |
| AppStore.Preview | backend/app.py:183-187 | "New chat" without a user message, else the first user message truncated; at most 53 characters |
| AppStore.FindPreview | backend/app.py:183-187 | the scan that stops at the first user message yields Preview |
| AppStore.FirstUserAt | backend/app.py:184-187 | a user message with no user message before it is the preview's source |
| AppStore.MessagesOf | backend/app.py:179 | exactly the chat's messages, no more than are stored |
| AppStore.MessagesOfAppend | backend/app.py:179 | a message stored last comes after the chat's earlier ones, which stay in their order (stored order is timestamp order) |
| AppStore.Summary | backend/app.py:178-195 | an entry carries the chat's ids; the document's file name, or "Unknown" when no document has that id; the preview "New chat" when the chat has no user message, else the first user message truncated, at most 53 characters |
| AppStore.ChatListShape | backend/app.py:175-197 | the list holds one entry per chat of the user and nothing else |
| AppStore.NewestChatFirst | backend/app.py:175 | the chat created last heads the list |
| AppStore.StudyToolsReply | backend/app.py:327-336 | 404 unless the document is the caller's; a body that is not an object crashes (500); 400 "Invalid tool type!" unless the type is exactly flashcards, quiz or mindmap; otherwise that type is generated |
| AppStore.MaxDocumentId | backend/models.py:24 | every document's id is at most it, so it + 1 is a fresh key |
| AppStore.NewDocument | backend/app.py:126-130 | the inserted row belongs to the uploader, keeps the file name and the extracted text, and its id is above every existing id |
| AppStore.WithUpload | backend/app.py:126-133 | the documents table is unchanged unless the reply is 201; on 201 the name and the extraction are present and exactly one new row is appended |
| AppStore.UploadKeepsTables | backend/app.py:126-133 | an upload keeps document ids unique, chat ids unique and every chat on a document of its own user |
| AppStore.AppendKeepsTables | backend/models.py:24 | appending a document with the next id keeps the table invariants |
| AppStore.MaxChatId | backend/models.py:39 | every chat's id is at most it, so it + 1 is a fresh key |
| AppStore.AppendFreshKeepsKeys | backend/app.py:126-133 | a new document under a fresh id keeps ids unique |
| AppStore.AppendFreshKeepsChatKeys | backend/app.py:214-220 | a new chat under a fresh id keeps ids unique |
| AppStore.WithoutChatsOfKeepsKeys | backend/app.py:163 | removing a document's chats keeps chat ids unique |
| AppStore.WithoutChatKeepsKeys | backend/app.py:314 | removing a chat keeps chat ids unique |
| AppStore.WithoutDocumentKeepsKeys | backend/app.py:165 | removing a document keeps document ids unique |
| AppStore.Store.constructor | backend/models.py:21-57 | the tables start empty |
| AppStore.Store.UploadDocument | backend/app.py:103-149 | the reply is UploadReply; documents become WithUpload of the old table, so a document with the next id, the owner, the name and the text is added iff the reply is 201; chats and messages untouched; the table invariants are kept |
| AppStore.Store.DeleteDocument | backend/app.py:153-168 | 404 with nothing changed unless the document is the caller's; otherwise 200 and exactly the document, its chats and their messages are gone; keys and ownership stay consistent |
| AppStore.Store.DeleteChat | backend/app.py:306-317 | 404 with nothing changed unless the chat is the caller's; otherwise 200 and exactly the chat and its messages are gone |
| AppStore.Store.CreateChat | backend/app.py:201-225 | 400 for a missing id, 404 unless the document is the caller's, otherwise a chat with the next id for the caller on that document |
| AppStore.Store.GetChats | backend/app.py:174-197 | the list built newest first equals ChatList |
| DocumentManager.ExtensionOfMatchingName | frontend/src/components/DocumentManager.jsx:16 | a name ending in ".ext" in any letter case has server extension ext |
| DocumentManager.MatchingNameOfExtension | frontend/src/components/DocumentManager.jsx:16 | a name with server extension ext ends in ".ext" in some letter case |
| DocumentManager.DotTailMatches | backend/app.py:113 | any name with a dot ends, ignoring case, in a dot followed by the part after its last dot |
| DocumentManager.MatchedExtensionAccepted | frontend/src/components/DocumentManager.jsx:16 | a name ending in an allowed ".ext" passes every server name check |
| DocumentManager.MatchingNameAccepted | frontend/src/components/DocumentManager.jsx:16 | a name the pattern matches passes the server's checks |
| DocumentManager.AcceptedNameMatches | frontend/src/components/DocumentManager.jsx:16 | a name the server accepts matches the pattern |
| DocumentManager.NameMatchesIffServerAccepts | frontend/src/components/DocumentManager.jsx:16 | judged by name, the picker and the server agree in both directions |
| DocumentManager.MimeOnlyFileRefusedByServer | frontend/src/components/DocumentManager.jsx:14-16 | a "text/plain" file named without an extension passes the picker and gets 400 "File type not supported!" |
| DocumentManager.UploadErrorText | frontend/src/components/DocumentManager.jsx:42 | the server's non-empty message, else "Error uploading document"; never empty |
| DocumentManager.Pick | frontend/src/components/DocumentManager.jsx:10-23 | no file: nothing changes; rejected: only the error is set; accepted: uploading, error cleared, progress "uploading" with the file's name |
| DocumentManager.Settle | frontend/src/components/DocumentManager.jsx:35-46 | uploading ends; the progress keeps the file's name and says success iff the post succeeded; failure sets the error text; success starts a timer |
| DocumentManager.Expire | frontend/src/components/DocumentManager.jsx:38-40 | a timer firing clears the progress and nothing else |
| DocumentManager.StepKeepsInv | frontend/src/components/DocumentManager.jsx:10-48 | each possible event keeps: uploading iff a post is awaited; an "uploading" entry belongs to that post; any error is non-empty |
| DocumentManager.RunKeepsInv | frontend/src/components/DocumentManager.jsx:10-145 | any sequence of events keeps that invariant |
| DocumentManager.StaleTimerClearsNextUpload | frontend/src/components/DocumentManager.jsx:38-40 | a success timer firing during the next upload removes that upload's "uploading" entry while it is still awaited |
| DocumentManager.UploadPanel.constructor | frontend/src/components/DocumentManager.jsx:6-8 | the panel starts idle, without progress or error |
| DocumentManager.UploadPanel.HandleFileUpload | frontend/src/components/DocumentManager.jsx:10-23 | the new state is Pick of the old; the input is disabled while uploading |
| DocumentManager.UploadPanel.UploadSettled | frontend/src/components/DocumentManager.jsx:28-47 | the new state is Settle of the old |
| DocumentManager.UploadPanel.TimerFired | frontend/src/components/DocumentManager.jsx:38-40 | the new state is Expire of the old |
| DocumentManager.UploadPanel.DismissProgress | frontend/src/components/DocumentManager.jsx:122-129 | the close button exists only once the status is not "uploading"; it clears the progress |
| DocumentManager.UploadPanel.DismissError | frontend/src/components/DocumentManager.jsx:140-145 | the close button clears the error |

## Left out

- Mermaid's `render`, the `Date.now()` render id and the `innerHTML` writes are a foreign library and the DOM. The render result is an input (`RenderOutcome`).
- The 150 ms `setTimeout` before a flashcard index change is timing. The flip reset and the index change are one step.
- The 3000 ms of the upload timer is timing. A timer is a pending event that may fire at any later point.
- The network is an input. Study-material answers (`Answer`) and upload outcomes (`Outcome`) are handed in, in any order.
- Animations, styling, the quiz progress-bar percentage (floating point) and `formatDate` (clock and locale) are not modelled.
- `onDocumentUploaded()` and resetting the file input's value are calls to the parent component and the DOM; they change none of the panel's hooks.
- Flask routing, SQLAlchemy sessions, `jwt.decode` and `check_password_hash` are library calls. `TokenFromHeader` stops at the token text; decoding it and looking up the user are not modelled.
- The 16 MB upload limit is framework configuration.
- `backend/document_extractor.py` wraps document parsers. Its result is an input (`Extraction`).
- `backend/groq_service.py` is a network client, and `generate_study_material` is not part of this model. `get_study_tools` is modelled up to the generator call.
- `frontend/src/context/AuthContext.jsx`, `Sidebar.jsx`, `Dashboard.jsx` and `ChatInterface.jsx` are session storage and UI glue.
- `created_at`, `uploaded_at` and `timestamp` are not stored. Table order is insertion order, which is the order of the default timestamps. Records created in the same clock tick are not told apart.
- New ids are one more than the largest id in the table. That is SQLite's row-id rule while ids have never reached the maximum. For an empty table both give id 1.
- AppStore.Store.CreateChat: takes the document id as an integer (0 for a missing or falsy value). Other JSON values for `document_id` are not modelled, and the 201 reply's body is left empty.
- AppStore.StudyToolsReply: stands for a body that is not a JSON object by a bare 500 with no `message` field, written as the empty message. Flask's default error page has no JSON body. A request that is not JSON at all may be answered differently by the framework.
- AppChecks.Extension: lowers ASCII letters only. Python's `lower()` also folds other letters, which do not affect the four allowed extensions.
- MindMap.CleanName: counts `substring(0, 50)` in characters, where JavaScript counts UTF-16 code units. It uses a fixed placeholder text for the TypeError's message.
- JavaScript numbers are modelled as integers. Payload fields compared with `===` are array indices.
- A mounted view's props are fixed: a new payload is modelled as mounting a fresh view. In the code the same view is re-rendered and keeps its hooks, and the model does not capture what follows. `QuizView` and `FlashcardsView` keep their index and score, so the index can lie past the end of a shorter new payload. `MindMapView` calls `useEffect` after its early return (StudyTools.jsx:356-368), so a structure that turns from invalid to valid changes the number of hooks and React throws.
- The uploaded file's `FormData` encoding and the axios request headers are not modelled.
