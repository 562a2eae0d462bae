# Mend AI chat core in Dafny

A model of the conversation core of the Mend AI counsellor, with proofs about it.

The chat route (`POST /api/chat`) keeps a process-wide map from session id to the history of turns. Each turn is `{role, parts: [{text}]}`. A request goes through these steps:

1. Reject a blank `userQuery`.
2. Resolve the session id, falling back to `"default-session"`.
3. When a file is attached, hand it to the PDF loader (its type is never checked) and put the joined text of its pages into a fixed prompt template ahead of the question.
4. Append the user turn.
5. Compact the history if needed.
6. Ask the model for a reply, append the reply as a `model` turn, and store the history.

Compaction applies once the history is longer than `MAX_HISTORY_LENGTH = 10`. The history is split so that the last `KEEP_RECENT_MSGS = 4` turns are kept. The older part goes to a summariser. If the summariser returns non-empty text, the history becomes one synthetic `user` turn tagged `[SYSTEM SUMMARY of previous conversation]: ` followed by the four recent turns. Otherwise the history is left as it was.

The page's send handler has four parts:
- a send guard;
- the user message it shows;
- a clean-up pipeline run on the reply text before `JSON.parse`: strip control characters, trim, strip code fences, trim;
- a fixed fallback object used when parsing fails.

Every send that the guard lets through appends exactly one user message and one bot message.

Files:
- `wrappers.dfy`: `Option`.
- `text.dfy`: JavaScript `trim`, the `\s` class, prefixes and substring occurrence.
- `chat_route.dfy`: module `ChatRoute`, the model of `app/api/chat/route.js`. Request handling is specified by the pure functions `Handle` and `CommitTurn`. The class `ChatSessions` holds the `chatSessions` map, and its methods `Post` and `Commit` update the map step by step. They are proved equal to those functions.
- `chat_page.dfy`: module `ChatPage`, the model of `handleSendMessage` in `app/page.jsx`. The clean-up is a set of string functions. The `Page` class holds the `messages`, `isLoading` and `sessionId` state. A send is split at its `await fetch` into `StartSend` and `FinishSend`, so the pending state in between, with `isLoading` set, is a reachable state of the model.

Functions passed as parameters stand for the calls whose behaviour the model does not describe:
- `Inference` is the model call, used both for the summary and for the reply. It is a remote call and returns `None` when it throws.
- `Loader` is the PDF loader. It reads a temporary file and returns `None` when it throws.
- `Fetcher` is the page's `fetch` together with `response.json()`. It is a remote call, and returns `Failed` when the request throws, the status is not ok or the body is not JSON.
- `Parser` is `JSON.parse`. It runs inside the page and is left abstract; it returns `None` when it throws.

The route's `History` variable aliases the array stored in the map when the session already exists, and the model keeps this aliasing. `History.push` of the user turn is therefore visible in the map before `set` runs. A compacted history is a new array, so it is stored only by the final `set`. When the reply call then throws, the following holds:
- an existing session keeps its old history plus the user turn, uncompacted;
- a session that was not in the map is not created.

`ReplyFailureKeepsUserTurn` states this.

Behaviour of the code worth knowing:
- Validation looks only at `userQuery`. A request with an attachment and an empty query is refused with status 400 before the file is read (`FileOnlyRequestRejected`). The page sends the text as given, so a file-only send from the page is shown as `📎 <name>` and then answered with the apology message.
- The document template is used whenever a file is attached, even when the extracted text is empty.
- The user turn survives a failed reply only for a session that already existed (see above).
- Validation checks the query before anything else, and no turn is appended when the attachment cannot be loaded (`LoadFailureChangesNothing`).

## Model

| member | source | states |
|---|---|---|
| `Text.Trim` | app/page.jsx:93 | the result has no whitespace at either end, is a contiguous slice of the input, and everything cut off is whitespace (the ECMAScript whitespace and line-terminator set) |
| `ChatRoute.ResolveSessionId` | app/api/chat/route.js:55 | a missing or empty session id resolves to `"default-session"`; any other id is used as given; the result is never empty |
| `ChatRoute.ConcatAppend` | app/api/chat/route.js:81-83 | joining the pages of two page lists one after the other gives the two joined texts one after the other |
| `ChatRoute.ConcatPageOrder` | app/api/chat/route.js:81-83 | every page's text appears in the document text, starting where the text of the earlier pages ends, so the pages are joined in page order |
| `ChatRoute.JoinPages` | app/api/chat/route.js:81-83 | the `forEach` accumulation of `docContent` yields exactly the page texts joined in order |
| `ChatRoute.ComposeQuery` | app/api/chat/route.js:95-99 | the composed query starts with the template lead, continues with the document text, then `User Question: ` and the original query, and the original query can be read back between the question label and the closing instruction, which ends the text |
| `ChatRoute.ComposeTurnText` | app/api/chat/route.js:61-102 | without a file the turn text is the query verbatim; when the loader throws there is no turn; otherwise it is the composed query over the joined pages |
| `ChatRoute.ReadQuery` | app/api/chat/route.js:61-102 | the `if (file)` block computes what `ComposeTurnText` specifies; it is the step-by-step form of that function and adds no property of its own |
| `ChatRoute.Compact` | app/api/chat/route.js:109-125 | a history of at most 10 turns is never changed; the length changes exactly when the history is longer than 10 and the summary of its older part is a non-empty text; a changed history has 5 turns: the summary turn built from exactly the text the summariser returned for the older part, then the last 4 turns unchanged and in order |
| `ChatRoute.SummaryTurnText` | app/api/chat/route.js:118-121 | the summary turn is a `user` turn with a single text, the summary tag followed by the summary itself |
| `ChatRoute.CompactIfNeeded` | app/api/chat/route.js:109-125 | the split at `length - 4`, the summary call and the rebuild compute what `Compact` specifies; it is the step-by-step form of that function and adds no property of its own |
| `ChatRoute.SummaryFailureSendsFullHistory` | app/api/chat/route.js:114-124 | when the summariser throws or returns an empty text, the over-long history goes to inference exactly as it was |
| `ChatRoute.EleventhTurnCompacts` | app/api/chat/route.js:109-123 | on the eleventh turn the first seven turns go to the summariser, and on success the history sent on is the summary turn, the three latest stored turns and the new user turn |
| `ChatRoute.CommitTurn` | app/api/chat/route.js:104-141 | the answer is a reply exactly when inference answers for the pushed and compacted history; a reply reports the session id and a `debugHistoryLength` equal to the stored history's length; a failure is the 500 answer; no other session is touched and no other session is created |
| `ChatRoute.Handle` | app/api/chat/route.js:41-160 | the answer is the 400 "Message is required" exactly when the query is missing or whitespace only, and then nothing changes; every other failure is the 500 answer; a reply names the resolved session and a `debugHistoryLength` equal to the stored length; only the resolved session may change |
| `ChatRoute.SuccessAppendsExchange` | app/api/chat/route.js:104-141 | a successful request stores the old history plus exactly one user turn, possibly compacted, then exactly one model turn holding the reply, and the reply is what inference returned for that history |
| `ChatRoute.ReplyWhenInferenceAnswers` | app/api/chat/route.js:104-147 | a non-blank request whose attachment, if any, loads and whose inference call answers gets that reply, naming the resolved session with `debugHistoryLength` one more than the history sent, and the session stores the history sent followed by the model turn; nothing else changes |
| `ChatRoute.ShortHistoryGrowsByTwo` | app/api/chat/route.js:109 | while the history after the user turn has at most 10 turns, a successful request stores the old history followed by the user turn and the model turn |
| `ChatRoute.ReplyFailureKeepsUserTurn` | app/api/chat/route.js:104-141 | when inference throws, the answer is 500; an existing session keeps its history plus the user turn, uncompacted, through the aliased array; an unseen session is not created |
| `ChatRoute.FileOnlyRequestRejected` | app/api/chat/route.js:48-53 | an empty query with a file attached is refused with 400 and changes nothing |
| `ChatRoute.LoadFailureChangesNothing` | app/api/chat/route.js:78-79 | when the PDF loader throws, the answer is 500 and no session changes |
| `ChatRoute.CompactBounded` | app/api/chat/route.js:109-125 | with a summariser that always answers, at most 10 turns go to inference, however long the history is |
| `ChatRoute.BoundedAfterReply` | app/api/chat/route.js:109-141 | with a summariser that always answers, a successful request leaves the session at most 11 turns long, however long it was |
| `ChatRoute.MissingSessionIdsShareHistory` | app/api/chat/route.js:55-58 | two successive requests whose session id is missing or empty both use `"default-session"`, at any history length: the first stores the compacted old history plus its exchange, and the second stores the compacted form of what the first stored, followed by its own user turn, and then its model turn |
| `ChatRoute.ShortExchangesAccumulate` | app/api/chat/route.js:104-141 | while the history stays below compaction length, two successive exchanges leave the history followed by both user and model turns, in order |
| `ChatRoute.ChatSessions.constructor` | app/api/chat/route.js:16 | the session map starts empty |
| `ChatRoute.ChatSessions.Post` | app/api/chat/route.js:41-160 | the map and the answer after the handler are exactly those `Handle` specifies |
| `ChatRoute.ChatSessions.Commit` | app/api/chat/route.js:104-141 | the map and the answer after the push, compaction, inference and `set` steps are exactly those `CommitTurn` specifies |
| `ChatPage.UserText` | app/page.jsx:49 | the user message shows the trimmed text; if that is empty and a file is attached it shows `📎 <file name>`; it is empty exactly when the trimmed text is empty and no file is attached |
| `ChatPage.SessionField` | app/page.jsx:64 | the form carries the page's session id, and the text `"null"` when none is set (`formData.append` of `null`) |
| `ChatPage.RemoveControl` | app/page.jsx:91-92 | the result has no character in U+0000..U+001F or U+007F..U+009F; every character it holds occurs in the input, and every non-control character of the input occurs in it; a single control character is removed and a single other character kept; a string without control characters is unchanged |
| `ChatPage.RemoveControlAppend` | app/page.jsx:92 | removal of a concatenation is the concatenation of the removals, so with the one-character cases the result is exactly the input's non-control characters in their order |
| `ChatPage.StripFence` | app/page.jsx:97-98 | removing a fence marker and the whitespace after it never lengthens the text or adds a character that was not there |
| `ChatPage.StripFenceKeepsPrefix` | app/page.jsx:97-98 | text before the first occurrence of the marker's first character is kept unchanged and in order, and stripping continues on the rest |
| `ChatPage.StripFenceDropsMarker` | app/page.jsx:97-98 | a marker at the head is removed with the whole whitespace run that follows it (`\s*`), and nothing more |
| `ChatPage.StripFenceLeavesNoFence` | app/page.jsx:98 | after the "```" replacement the text contains no "```", because removals can never bring backticks together into a new fence |
| `ChatPage.StripFenceAbsent` | app/page.jsx:97-98 | a text that does not contain the marker is left unchanged |
| `ChatPage.CleanResponse` | app/page.jsx:91-99 | the text given to `JSON.parse` has no control characters, no "```json" and no "```", and is trimmed |
| `ChatPage.CleanResponseIdempotent` | app/page.jsx:91-99 | cleaning an already cleaned reply changes nothing |
| `ChatPage.CleanResponseKeepsPlainReply` | app/page.jsx:91-99 | a reply that is plain JSON text (no control characters, no surrounding whitespace, no "```") reaches `JSON.parse` unchanged |
| `ChatPage.CleanResponseUnwrapsFencedJson` | app/page.jsx:91-99 | a reply of the form "```json", newline, body, newline, "```" reaches `JSON.parse` as exactly the body, when the body has no control characters, no surrounding whitespace and no backticks |
| `ChatPage.BlockRemoveControl` | app/page.jsx:92 | the control characters around a block body are removed and the marker and body text is kept intact |
| `ChatPage.BlockStripFence` | app/page.jsx:97-98 | stripping the opening marker and then the closing marker of a block leaves exactly its body |
| `ChatPage.ParseFallbackFields` | app/page.jsx:110-116 | the fallback object has `safety_alert` false, `warm_opening` the raw uncleaned reply, empty `key_insights` and `suggested_replies`, and an empty `guiding_question` |
| `ChatPage.StructuredResponse` | app/page.jsx:84-117 | a reply that is not a string is used unchanged; a string reply is cleaned and parsed; when parsing fails it becomes the fallback object around the raw text |
| `ChatPage.BotMessageFor` | app/page.jsx:119-138 | the message is the apology exactly when the request failed, and a delivered reply always gives a bot message carrying the structured response |
| `ChatPage.Page.constructor` | app/page.jsx:22-25 | the page starts with no messages, not loading, and no session id |
| `ChatPage.Page.Mount` | app/page.jsx:32-36 | mounting stores the generated session id and changes nothing else |
| `ChatPage.Page.StartSend` | app/page.jsx:42-68 | a send with empty text and no file, or while a send is pending, changes nothing and builds no form; any other send appends exactly the user message, sets `isLoading`, and builds the form with the raw text, the session field and the file |
| `ChatPage.Page.FinishSend` | app/page.jsx:119-141 | the outcome's bot message (structured reply or apology) is appended as the only change to the messages, and `isLoading` is cleared |
| `ChatPage.Page.SendMessage` | app/page.jsx:42-142 | a send with no other event while it is pending: an ignored send posts nothing and changes nothing; any other send posts the raw text, the session field and the file, appends exactly one user message and then exactly one bot message, and ends with `isLoading` cleared |
| `ChatPage.Page.SendDuringPendingIgnored` | app/page.jsx:43-60 | a second send started while the first one awaits its reply is dropped: only the first form is posted, and only the first send's user and bot messages are appended |

## Left out

- Model calls (`ai.models.generateContent`, app/api/chat/route.js:23-32 and 127-134): these are the `Inference` parameters. The model name, the system instruction and the response MIME type are not modelled.
- Undefined `result.text`: for the summariser, a call that returns no text counts as a failure, since both are falsy at line 116. A reply call that succeeds without text is not modelled; the reply is always a string.
- PDF handling (`file.arrayBuffer`, `writeFile`, `PDFLoader`, `unlink`, lines 68-93): the loader is the `Loader` parameter and temporary files are not modelled. The handler does not delete the temporary file when `pdfloader.load()` throws; the model does not track temporary files, so this cannot be seen in it.
- `req.formData()` throwing, a `userQuery` field that holds a file, and the `details: error.message` of the 500 answer are not modelled.
- Concurrency: requests on one session have no locking in the code, and the model runs them one after another.
- Session expiry and persistence: the code has neither.
- `JSON.parse` internals: `Parser` is an abstract partial function.
- BotMessageFor: `BotMessage` holds the structured value itself instead of spreading it after `id`, `sender` and `timestamp` (app/page.jsx:119-124). A parsed reply that carries any of these keys overrides them in the source, so the appended message need not look like a bot message there; the model does not capture this. What a spread of a non-object value contributes is not modelled either, and neither are message ids and timestamps from `Date.now()`.
- SendMessage: it runs a send to completion with no other event while it is pending; interleavings are written with `StartSend` and `FinishSend`, and the one proved about is a second send while pending (`SendDuringPendingIgnored`).
- The page's `fetch` (app/page.jsx:71-81): a network error, a non-ok status and a body that is not JSON are all the single outcome `Failed`. A body without `chatbotResponse` is `Delivered(None)`.
- Session-id generation from `Date.now()` and `Math.random()` (app/page.jsx:35): the generated id is the parameter of `Mount`. The `mounted` flag (app/page.jsx:22, 33) only gates rendering and is not modelled.
- Characters are Unicode scalar values rather than UTF-16 code units. Every character class used here (control characters, whitespace) lies in the Basic Multilingual Plane, so the classes agree. JSON numbers are modelled as integers and only passed through.
- `app/api/upload/route.js` (chunking, embeddings, vector store), rendering, scrolling, drag-and-drop, theming, `components/*`, `app/layout.jsx` and the static data under `data/` are not part of this model.
- `ChatRoute.GetSummary` has no contract of its own: it passes the older turns, followed by the summary instruction turn, to the summariser. `Compact`'s contract ties the summary turn to exactly what it returns.
- StripFence: its own contract only bounds the result; what it keeps and removes is stated by `StripFenceAbsent`, `StripFenceKeepsPrefix`, `StripFenceDropsMarker` and `StripFenceLeavesNoFence`. A single lemma stating that the result is the input with every leftmost marker occurrence and its following whitespace run deleted is not part of the model.
- CleanResponse: its own contract says what the cleaned text lacks; what it keeps is stated for plain replies (`CleanResponseKeepsPlainReply`) and for a reply wrapped in one "```json" block (`CleanResponseUnwrapsFencedJson`), not for every input.
