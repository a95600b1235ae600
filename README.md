# Offline LLM comparison page and rating table, modelled in Dafny

This project models the browser-side logic of the RLHL training agent's HTML user interface. It has three parts:

- **The two-backend chat page** (`tf2script.js`). A prompt goes to a local DeepSeek server, a local Ollama server, or both. Each reply is read as a stream of newline-delimited JSON frames:
  - the stream is reassembled into lines;
  - each line is trimmed and parsed;
  - the `message.content` tokens are appended to a reply bubble;
  - every frame with `done === true` pushes an assistant turn onto that backend's conversation history.
  
  The page also has a mode switch that chooses where a prompt goes, and a reset that rebinds both histories to new empty arrays.
- **The audio drop zone** (`Qwentts.js`). It decides whether a picked or dropped file is audio, checks it against a 50 MiB cap, and keeps it for later.
- **The side-by-side rating page** (`script.js`). It holds a table of 0–5 star ratings for models A and B on five dimensions.

Modules:

- `Wrappers`: `Option`.
- `JsText`: `String.prototype.trim` over JavaScript's whitespace set, and the decimal text of a non-negative integer.
- `Ndjson`: `buffer.split("\n")` and `lines.pop()`, that is, line reassembly across reads. It proves:
  - nothing is lost;
  - the lines handed on do not depend on how the text was chunked;
  - the unterminated tail is never parsed.
- `Frames`: what one complete line does to the reply in progress. `ApplyLines` is proved equal to independent reference definitions of the token text and of the commits.
- `ChatSession`: the `History`, `Bubble` and `Panel` objects, and the `Consumer` class. `Consumer` is the state one `streamChatReply` call keeps: its `buffer`, `fullAssistantText`, captured history, panel and reply bubble. It ends with the whole run, proved against the transport outcome.
- `ChatRouter`: the mode, the prompt check, `submitToActiveMode`, and `resetEverything`.
- `AudioIntake`: `isAudioFile` and `handleFile`.
- `Ratings`: the ratings table, `renderStars`, star clicks, and the Run, Clear and Save buttons.

Inputs from outside the page are parameters:

- `JSON.parse` is a function `string -> Option<Frame>` (`None` when it throws). A `Frame` keeps only the two fields the client reads.
- The network outcome is a `Transport` value: a rejected `fetch`, or a response with status, error body and optional body. The body is a sequence of decoded reads with the elapsed milliseconds, ended by `done` or by a thrown read.
- `URL.createObjectURL` is an `Option<string>` (`None` when it throws).
- The save timestamp is a string.

Behaviour of the code worth noting:

- An HTTP error or a missing response body leaves the status dot at "streaming". Only a thrown exception sets "error", and only a `done` frame sets "idle".
- Reset empties the prompt and both windows and rebinds both histories. It does not touch the status dots or the time labels.
- There is no implicit completion when the stream ends without a `done` frame. Nothing is committed, and the dot stays "streaming".
- Every `done: true` frame commits a turn, so a second one commits a second turn holding the text accumulated so far.
- A reply still streaming when the page is reset keeps writing into the history array it captured. It does not write into the new one.
- In `handleFile` the file is stored before `URL.createObjectURL` runs. If that call throws, the file stays stored and the notice is the "unexpected error" one.

## Model

| member | source | states |
|---|---|---|
| JsText.Trim | RLHL_TrainingAgent/HTML_UI/Offline_LLM/tf2script.js:268 | the result is a contiguous window of the input; everything outside it is whitespace; the window neither starts nor ends with whitespace |
| JsText.TrimEmptyIffBlank | RLHL_TrainingAgent/HTML_UI/Offline_LLM/tf2script.js:268-269 | a line trims to the empty string exactly when every character is JavaScript whitespace, so `if (!trimmed) continue` skips exactly the blank lines |
| JsText.TrimIdempotent | RLHL_TrainingAgent/HTML_UI/Offline_LLM/tf2script.js:310 | trimming an already trimmed prompt changes nothing |
| JsText.NatToString | RLHL_TrainingAgent/HTML_UI/Offline_LLM/tf2script.js:136 | the printed number is a non-empty digit string with no leading zero unless it is 0 |
| JsText.NatToStringRoundTrip | RLHL_TrainingAgent/HTML_UI/Offline_LLM/tf2script.js:136 | reading the printed digits back gives the number |
| JsText.NatToStringInjective | RLHL_TrainingAgent/HTML_UI/Offline_LLM/tf2script.js:136 | different numbers print differently |
| Ndjson.Split | RLHL_TrainingAgent/HTML_UI/Offline_LLM/tf2script.js:264 | `split("\n")` always yields at least one piece |
| Ndjson.SplitPiecesNoNewline | RLHL_TrainingAgent/HTML_UI/Offline_LLM/tf2script.js:264 | no piece of a split contains a newline |
| Ndjson.SplitRejoins | RLHL_TrainingAgent/HTML_UI/Offline_LLM/tf2script.js:264 | joining the pieces with newlines gives back the text (inverse of the split) |
| Ndjson.SplitTerminated | RLHL_TrainingAgent/HTML_UI/Offline_LLM/tf2script.js:264 | splitting newline-free lines written out with their newlines, plus a newline-free tail, gives back exactly those lines and that tail |
| Ndjson.ReassemblyLosesNothing | RLHL_TrainingAgent/HTML_UI/Offline_LLM/tf2script.js:261-265 | after a read, the complete lines (each with its newline) followed by the new buffer spell exactly old buffer + chunk; the new buffer and every line are newline-free |
| Ndjson.SplitAppend | RLHL_TrainingAgent/HTML_UI/Offline_LLM/tf2script.js:261-265 | splitting `a + b` gives the complete lines of `a`, then the split of `a`'s unfinished tail + `b` |
| Ndjson.PendingAppend | RLHL_TrainingAgent/HTML_UI/Offline_LLM/tf2script.js:261-265 | the kept buffer is all the reader needs: lines and new tail of `a + b` come from the lines of `a` and from tail(a) + `b` |
| Ndjson.FeedMatchesWholeText | RLHL_TrainingAgent/HTML_UI/Offline_LLM/tf2script.js:257-265 | reading chunk by chunk hands on exactly the complete lines of the whole text and leaves exactly its unfinished tail in the buffer |
| Ndjson.ChunkingIndependent | RLHL_TrainingAgent/HTML_UI/Offline_LLM/tf2script.js:257-265 | two chunkings of the same text hand on the same lines and leave the same buffer |
| Ndjson.UnterminatedTailIgnored | RLHL_TrainingAgent/HTML_UI/Offline_LLM/tf2script.js:257-265 | text after the last newline is never handed on as a line when the reader reports done |
| Frames.Token | RLHL_TrainingAgent/HTML_UI/Offline_LLM/tf2script.js:280-281 | a frame contributes text exactly when `message.content` is a non-empty string, and then exactly that string |
| Frames.ParseLine | RLHL_TrainingAgent/HTML_UI/Offline_LLM/tf2script.js:267-276 | a blank line carries no frame; any other line carries what the parser makes of its trimmed text |
| Frames.ApplyLinesAppend | RLHL_TrainingAgent/HTML_UI/Offline_LLM/tf2script.js:267-296 | processing `a + b` is processing `a`, then `b` |
| Frames.ParsedFramesAppend | RLHL_TrainingAgent/HTML_UI/Offline_LLM/tf2script.js:267-276 | the frames of `a + b` are the frames of `a` followed by those of `b` |
| Frames.ApplyLineMeaning | RLHL_TrainingAgent/HTML_UI/Offline_LLM/tf2script.js:280-294 | one more line extends the text by its frame's token and commits one assistant turn holding the text so far iff the frame is final |
| Frames.ApplyLinesMeaning | RLHL_TrainingAgent/HTML_UI/Offline_LLM/tf2script.js:267-296 | the accumulated text is the prefix followed by the in-order concatenation of every parsed frame's token; commits are one assistant turn per `done === true` frame, holding the text up to it (a second done frame commits again) |
| Frames.CommittedShape | RLHL_TrainingAgent/HTML_UI/Offline_LLM/tf2script.js:288-289 | the number of commits equals the number of final frames, and every commit is an assistant turn |
| Frames.SkippedLineHasNoEffect | RLHL_TrainingAgent/HTML_UI/Offline_LLM/tf2script.js:268-276 | removing a blank or unparsable line from anywhere in the batch changes neither the text nor the commits; the loop goes on past it |
| Frames.ReplayExtends | RLHL_TrainingAgent/HTML_UI/Offline_LLM/tf2script.js:257-296 | the reply built from all received text continues, after one more chunk, with just the lines completed by buffer + chunk |
| Frames.ReplayStep | RLHL_TrainingAgent/HTML_UI/Offline_LLM/tf2script.js:261-265 | a buffer that is the pending tail of the received text, with a reply that is its replay, stays so after one more chunk |
| Frames.ReplyChunkingIndependent | RLHL_TrainingAgent/HTML_UI/Offline_LLM/tf2script.js:257-296 | the reply of a whole stream depends only on its text, not on how it was cut into reads |
| ChatSession.StatusFor | RLHL_TrainingAgent/HTML_UI/Offline_LLM/tf2script.js:108-125 | "streaming" and "error" each give their own dot; any other state gives idle |
| ChatSession.TimeText | RLHL_TrainingAgent/HTML_UI/Offline_LLM/tf2script.js:127-137 | no number shows a dash; a number shows its decimal digits followed by " ms", and the digits read back as that number |
| ChatSession.TimeTextInjective | RLHL_TrainingAgent/HTML_UI/Offline_LLM/tf2script.js:127-137 | different latencies (or none) give different labels |
| ChatSession.HttpErrorText | RLHL_TrainingAgent/HTML_UI/Offline_LLM/tf2script.js:242 | the text is "Error: HTTP " and the status code, followed by " — " and the error body only when that is non-empty |
| ChatSession.ExceptionText | RLHL_TrainingAgent/HTML_UI/Offline_LLM/tf2script.js:301 | "Error: " followed by the exception message, or by "Unknown error" when it is missing or empty |
| ChatSession.Panel.AddMessage | RLHL_TrainingAgent/HTML_UI/Offline_LLM/tf2script.js:83-103 | appends one new bubble with the given role, caption and text, and keeps the earlier ones |
| ChatSession.Consumer.Start | RLHL_TrainingAgent/HTML_UI/Offline_LLM/tf2script.js:207-229 | user bubble, then user turn pushed on the captured history, then empty reply bubble; dash in the time label; streaming dot; the request carries the whole history ending in the user turn |
| ChatSession.Consumer.Respond | RLHL_TrainingAgent/HTML_UI/Offline_LLM/tf2script.js:240-253 | a non-2xx status writes the HTTP error text, and a missing body writes the no-stream text; both end the run and leave the dot and history untouched; otherwise reading starts |
| ChatSession.Consumer.ProcessChunk | RLHL_TrainingAgent/HTML_UI/Offline_LLM/tf2script.js:258-296 | one read: the buffer becomes the newline-free pending tail; text and commits follow `ApplyLines` over the completed lines; the bubble grows with the text; history grows by exactly the commits; the dot goes idle and the time label shows the latency iff something was committed |
| ChatSession.Consumer.HandleLines | RLHL_TrainingAgent/HTML_UI/Offline_LLM/tf2script.js:267-296 | the inner loop over a batch of lines agrees with `ApplyLines`; history grows by exactly the commits |
| ChatSession.Consumer.HandleLine | RLHL_TrainingAgent/HTML_UI/Offline_LLM/tf2script.js:267-294 | one line agrees with `ApplyLine`; it commits nothing or exactly one assistant turn holding the whole accumulated text |
| ChatSession.Consumer.ReadBody | RLHL_TrainingAgent/HTML_UI/Offline_LLM/tf2script.js:257-297 | after all reads, the received text is the concatenation of the chunks; history gained exactly the commits; the dot is idle iff something was committed; the time label shows the latency of the last committing read |
| ChatSession.Consumer.Run | RLHL_TrainingAgent/HTML_UI/Offline_LLM/tf2script.js:226-303 | every transport outcome ends the run; history gains exactly the replay's commits; dot, bubble and time end as `FinalStatus`, `FinalText` and `ShownTime` say |
| ChatSession.Consumer.Finish | RLHL_TrainingAgent/HTML_UI/Offline_LLM/tf2script.js:258-259 | the reader's done ends the run with nothing else changed (no implicit completion) |
| ChatSession.Consumer.Fail | RLHL_TrainingAgent/HTML_UI/Offline_LLM/tf2script.js:299-303 | a thrown exception sets the error dot and writes the exception text into the reply bubble; history keeps everything pushed so far |
| ChatSession.StreamChatReply | RLHL_TrainingAgent/HTML_UI/Offline_LLM/tf2script.js:198-304 | the whole call: the request carries the history plus the user turn; the captured history ends as the user turn followed by exactly the turns the stream commits, on every path; dot, reply text and time label follow the outcome |
| ChatRouter.Targets | RLHL_TrainingAgent/HTML_UI/Offline_LLM/tf2script.js:330-373 | DeepSeek is a target unless the mode is Ollama-only, and Ollama unless DeepSeek-only; "both" sends to DeepSeek first, then Ollama |
| ChatRouter.LookMatchesTargets | RLHL_TrainingAgent/HTML_UI/Offline_LLM/tf2script.js:156-188 | a window is highlighted as active exactly when submits go to its backend |
| ChatRouter.PromptToSend | RLHL_TrainingAgent/HTML_UI/Offline_LLM/tf2script.js:309-318 | no prompt iff the box holds only whitespace; otherwise the trimmed text, non-empty and without whitespace at either end |
| ChatRouter.App.constructor | RLHL_TrainingAgent/HTML_UI/Offline_LLM/tf2script.js:54-62 | the page starts in "both" mode with two distinct empty histories |
| ChatRouter.App.SetActiveMode | RLHL_TrainingAgent/HTML_UI/Offline_LLM/tf2script.js:190-193 | a mode button changes only the mode and sends nothing |
| ChatRouter.App.Submit | RLHL_TrainingAgent/HTML_UI/Offline_LLM/tf2script.js:324-374 | blank prompt: one error bubble per window, prompt kept, histories, dots and time labels unchanged, nothing started. Otherwise: prompt cleared; one reply started per target, in order, each on its own history and window, awaiting the response with the request carrying that history; each targeted window gains the user bubble and a fresh empty reply bubble after its earlier bubbles, with the streaming dot and a dash; the user turn is pushed only onto targeted histories; an untargeted history and window keep their turns, bubbles, dot and time label |
| ChatRouter.App.Dispatch | RLHL_TrainingAgent/HTML_UI/Offline_LLM/tf2script.js:330-373 | one reply started per target of the mode, in order, each as `StartedOn` its backend's history and window; untargeted history and window keep turns, bubbles, dot and time label |
| ChatRouter.App.LaunchBoth | RLHL_TrainingAgent/HTML_UI/Offline_LLM/tf2script.js:330-352 | "both": DeepSeek's reply started, then Ollama's, each on its own history and window, both histories gaining the user turn |
| ChatRouter.App.Launch | RLHL_TrainingAgent/HTML_UI/Offline_LLM/tf2script.js:332-348 | one router call of `streamChatReply`, up to its first `await`: the backend's history gains the user turn; its window gains the user bubble and a fresh empty reply bubble, streaming dot and dash; the request carries the whole history |
| ChatRouter.App.Reset | RLHL_TrainingAgent/HTML_UI/Offline_LLM/tf2script.js:391-395 | prompt and both windows emptied; both histories rebound to fresh empty arrays; mode, dots and time labels untouched |
| ChatRouter.LateChunkAfterReset | RLHL_TrainingAgent/HTML_UI/Offline_LLM/tf2script.js:391-395 | after a reset, a reply still streaming commits into the array it captured; the app's new history stays empty and the emptied window stays empty |
| AudioIntake.MatchesAny | RLHL_TrainingAgent/HTML_UI/Offline_LLM/Qwentts.js:30 | the extension test accepts exactly the names ending in "." plus one of the listed extensions, case-insensitively |
| AudioIntake.IsAudioFile | RLHL_TrainingAgent/HTML_UI/Offline_LLM/Qwentts.js:26-32 | no file is not audio; a file is audio iff its type starts with "audio/" or its name has an accepted extension; an empty type falls back to the extension alone |
| AudioIntake.CaseInsensitive | RLHL_TrainingAgent/HTML_UI/Offline_LLM/Qwentts.js:30 | lower-casing the name does not change whether it ends with an extension |
| AudioIntake.UpperCaseExtensionAccepted | RLHL_TrainingAgent/HTML_UI/Offline_LLM/Qwentts.js:29-42 | a capitalised accepted extension (`x.AAC`) is audio even with an empty type; `aac` is accepted though the message does not list it |
| AudioIntake.ExtensionMustEndTheName | RLHL_TrainingAgent/HTML_UI/Offline_LLM/Qwentts.js:30 | an extension followed by more text (`.wav.txt`) is not accepted by name |
| AudioIntake.KindOf | RLHL_TrainingAgent/HTML_UI/Offline_LLM/Qwentts.js:37-63 | only the loaded notice is "ok", only the no-file notice is "warn", and none is "info" |
| AudioIntake.Intake.SetStatus | RLHL_TrainingAgent/HTML_UI/Offline_LLM/Qwentts.js:18-24 | shows the notice, or does nothing when the page has no status box |
| AudioIntake.Intake.HandleFile | RLHL_TrainingAgent/HTML_UI/Offline_LLM/Qwentts.js:34-65 | checks in order (no file → warn, not audio → err, over 50·1024·1024 bytes → err) and stores nothing on failure; a file of exactly 50 MiB passes; when all pass, the file is stored and "ok" is shown only when the object URL was made, otherwise the unexpected-error notice |
| Ratings.InitialTable | RLHL_TrainingAgent/HTML_UI/script.js:1-2 | every one of the five dimensions has exactly the cells A and B, both 0 |
| Ratings.LitCountIsRating | RLHL_TrainingAgent/HTML_UI/script.js:10-12 | when star `i` is lit iff `i <=` rating, the number of lit stars is the rating |
| Ratings.StarBox | RLHL_TrainingAgent/HTML_UI/script.js:10-19 | five stars, star `i` lit exactly when `i <=` rating |
| Ratings.Page.constructor | RLHL_TrainingAgent/HTML_UI/script.js:1-2 | every cell starts at 0 and the table is well formed; `window.prompt` carries no `value` yet |
| Ratings.Page.RenderStars | RLHL_TrainingAgent/HTML_UI/script.js:4-22 | every (dimension, model) box shows five stars, with exactly the first rating-many lit; the lit count equals the rating; the table is unchanged |
| Ratings.Page.Click | RLHL_TrainingAgent/HTML_UI/script.js:14-17 | the clicked cell becomes `i` (1..5), every other cell keeps its value, all ratings stay within 0..5, and every redrawn box lights exactly the first rating-many of its five stars |
| Ratings.Page.Run | RLHL_TrainingAgent/HTML_UI/script.js:24-27 | both output areas show their placeholder text |
| Ratings.Page.Clear | RLHL_TrainingAgent/HTML_UI/script.js:29-32 | as written: the note is emptied and `value` on `window.prompt` becomes ""; the prompt box keeps its text; the ratings are untouched |
| Ratings.Page.Save | RLHL_TrainingAgent/HTML_UI/script.js:34-41 | as written: the payload carries `window.prompt.value` (undefined before the first Clear), the table, the note and the timestamp; nothing changes |
| Ratings.Page.ClearIntended | RLHL_TrainingAgent/HTML_UI/script.js:29-32 | as intended: the prompt box and the note are emptied |
| Ratings.Page.SaveIntended | RLHL_TrainingAgent/HTML_UI/script.js:34-41 | as intended: the payload carries the prompt box's text, the table, the note and the timestamp |
| Ratings.ClearAndSaveMissPromptBox | RLHL_TrainingAgent/HTML_UI/script.js:29-36 | with "hello" typed, Save records no prompt and Clear leaves "hello" in the box |
| Ratings.IntendedButtonsUsePromptBox | RLHL_TrainingAgent/HTML_UI/script.js:29-36 | with "hello" typed, the intended Save records "hello", the intended Clear empties the box, and Save then records "" |

## Left out

- DOM rendering is not modelled: element creation, `scrollToBottom`, the CSS classes of `applyModeHighlights` and `clearModeHighlights`, and the drag-over visuals. Only the mode-to-window mapping (`Look`) and the lit-star rule are kept.
- `wireEvents` and the other event wiring are not modelled: the button and Enter-key listeners, the drop-zone click and drop handlers, and the "Ready." / "Could not open file picker." / "Unexpected error while dropping the file." notices.
- `fetch`, `response.text()`, `reader.read()` and `TextDecoder` are not modelled; they are the `Transport` input, with reads given as already-decoded text. `response.text()` failing is folded into an empty error body.
- `performance.now()` and `Math.round` are not modelled; each read carries its elapsed time as a natural number of milliseconds.
- `JSON.parse` is a parameter, and only `message.content` and `done` of its result are represented.
- `URL.createObjectURL`, `console.error`, `console.log` and `new Date().toISOString()` are parameters or are not modelled.
- The too-large and loaded notices keep the size in bytes. Their `toFixed(1)` megabyte text is floating-point formatting and is not modelled.
- The concurrency of the two replies in "both" mode is not modelled: each `Consumer` is run on its own against its own history and window, and the interleaving of their reads is not represented.
- `safeString` and the "Output window not found." path of `streamChatReply` are not modelled: every window is taken to exist, so `addChatMessage` always returns a bubble.
- The initial look of the dots and time labels is not modelled: the page's markup sets it, not the script, and `Panel` starts idle with a dash.
- The DeepSeek FastAPI proxy script is not modelled; it forwards HTTP requests and has no logic of its own.
- `renderStars` is modelled over the five dimensions and the two sides, not over the page's `.row` and `.stars` elements: the markup is taken to hold exactly one box per (dimension, side), and a row whose `data-dim` is not a dimension, on which the source would throw, is not represented.
- Two submits to the same backend whose replies overlap are not modelled: each `Consumer` is run to its end on its own, although in the source both would push into the one history and write into the one window.
- ChatSession.Consumer.Start: the request holds the history by reference in the source and by value here. Later pushes are visible to `historyRef` but not to the request already sent, which matches the JSON body being serialised at `fetch` time.

## Findings

| source | as written | input that shows it | evidently intended | confidence | as-written member | corrected member |
|---|---|---|---|---|---|---|
| RLHL_TrainingAgent/HTML_UI/script.js:30 | `prompt.value = ""` resolves `prompt` to the global `window.prompt` function, so Clear leaves the prompt box's text in place | type "hello" in the prompt box, press Clear: the box still reads "hello" | Clear empties the prompt box | not executed; rests on `window.prompt` being an own property of `window`, which named element access does not shadow | Ratings.ClearAndSaveMissPromptBox | Ratings.Page.ClearIntended |
| RLHL_TrainingAgent/HTML_UI/script.js:36 | `prompt: prompt.value` reads `value` off the `window.prompt` function, so the payload's prompt is undefined (or "" after a Clear) | type "hello", press Save: the payload's prompt is undefined | the payload carries the prompt box's text | not executed; rests on `window.prompt` being an own property of `window`, which named element access does not shadow | Ratings.ClearAndSaveMissPromptBox | Ratings.Page.SaveIntended |
