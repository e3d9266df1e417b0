# Law GPT frontend, modelled in Dafny

Law GPT is a React chat client for an Indian-law assistant. This project models the parts of it that are logic rather than markup, and proves properties of that model:

- **Chat stores.** The full frontend (`src/App_Original_Backup.tsx`) and the redesigned chat screen (`law-gpt-frontend/src/LegalChatbot.tsx`) keep their chat in a `useReducer` store. Each store has a `chatReducer` over a fixed action vocabulary. Both are modelled as pure transition functions (`BackupStore.Reduce`, `Chatbot.Reduce`), with frame lemmas: each action writes only the fields it owns.
- **Send handlers in the reducer frontends.** These handlers are fixed sequences of `dispatch` calls with `try`/`catch`/`finally`. They are modelled as methods that build the action sequence step by step. Each method is proved equal to replaying that sequence through the reducer, and its final state is stated outright.
- **The streaming reader.** It is shared by `law-gpt-frontend/src/App_Simple.tsx` and `law-gpt-frontend/src/ConnectionTest.tsx`. A `while` loop over the body's chunks wraps a `for` loop over each chunk's lines, and it returns early on `done`. It is modelled as the method `EventStream.Ingest` with the same nested loops and early exit.
  - Ingest is proved equal to a left fold of one "read a line" step (`Consume`).
  - That fold is proved equal to an independent front-to-back reading of the protocol (`Transcript`).
- **The non-streaming deployed frontend** (`src/App.tsx`), the connection probes, and the diagnostics screen.
- **The saved-chat list of the full frontend.** This covers save, including the reject paths and the cap of 50. It also covers pin, star and rename, the archived/active split, thirty-day archiving, duplicate, rating, export text and file name, and the sidebar's filter, sort and top-ten cut. The saved-chat list of the redesigned screen is modelled too: load, delete, star and new chat.
- **Helpers of the full frontend.** These are the keyword-categorisation helpers, the integer form of the complexity banding, and the stored tag.
- **The typing animation** (`law-gpt-frontend/src/components/TypingAnimation.tsx`). It is a class whose fields are the component's state. Each timer firing is one method call.

### How the outside world is modelled

The outside world enters only as parameters:

- **Clock.** The clock is a `now: nat` in milliseconds. Every clock read inside one handler is taken to have the same value, and ids are the decimal text of `now`, `now + 1` or `now + 2`, as in the source.
- **`fetch`.** A `fetch` is an `Http.Reply`: a rejection carrying its rendered error text, or a status with a body.
- **Parsing.** `response.json()` is an `Http.Json` value (parsed or malformed). The stream's `JSON.parse` is an uninterpreted partial function `parse: string -> Option<Event>`.
- **Browser storage and dialogs.** The stored history list is passed in and handed back. `confirm` answers are booleans, and `alert` texts are returned as `notice` strings.
- **Locale date.** `toLocaleDateString` is a `date: string` parameter.

### Behaviour worth noting


- The redesigned chat screen's failure path does not set the API status to disconnected (`law-gpt-frontend/src/LegalChatbot.tsx:437-452`). Only the full frontend does so. `Chatbot.Settle` never touches `apiStatus`.
- In both simple frontends, an error before any placeholder exists replaces the last message, which is the question just asked. So a failed send grows the list by one message, not two. `SimpleApp.SendMessage` and `DeployedApp.SendMessage` model this as written. `SimpleApp.SendMessageKept` and `DeployedApp.SendMessageKept` are the corrected handlers that keep the question (see Findings).

## Model

| member | source | states |
|---|---|---|
| Text.TrimStart | src/App_Original_Backup.tsx:1174 | the result is a suffix of the input; everything dropped is ECMAScript white space; the result does not start with white space |
| Text.TrimEnd | src/App_Original_Backup.tsx:1179 | the result is a prefix of the input; everything dropped is white space; the result does not end with white space |
| Text.BlankIffAllSpace | src/App_Original_Backup.tsx:1174 | `!content.trim()` holds exactly when every character of the input is white space |
| Text.TrimIdempotent | src/App_Original_Backup.tsx:1213 | trimming an already trimmed query changes nothing |
| Text.ContainsAt | src/App_Original_Backup.tsx:93 | `includes` holds whenever the keyword occurs at some position |
| Text.ContainsWitness | src/App_Original_Backup.tsx:93 | whenever `includes` holds, a position where the keyword occurs exists (the converse of ContainsAt) |
| Text.ToLower | src/App_Original_Backup.tsx:89 | the length is kept; each capital letter becomes its small letter (32 code points on), every other character is kept, and no capital letter remains |
| Text.ToUpper | src/App_Original_Backup.tsx:482 | the length is kept; each small letter becomes its capital letter, every other character is kept, and no small letter remains |
| Text.LowerFixesLower | src/App_Original_Backup.tsx:89 | lower-casing leaves a text unchanged exactly when it has no capital letter; lower-casing twice is lower-casing once, and lower-casing undoes upper-casing |
| Text.LowerAppend | src/App_Original_Backup.tsx:89 | lower- and upper-casing distribute over concatenation |
| Text.TruncateShape | src/App_Original_Backup.tsx:99-101 | a text of at most n characters is kept whole; a longer one becomes its first n characters followed by `...`, n + 3 characters in all |
| Text.IndexOf | src/App_Original_Backup.tsx:426 | the result is the least index holding the character, or -1 exactly when the character is absent |
| Text.ReplaceFirst | src/App_Original_Backup.tsx:426 | replacing keeps the length |
| Text.ReplaceFirstAt | src/App_Original_Backup.tsx:426 | `replace(' ', '-')` changes only the first occurrence: each position is unchanged except the first index of the character, which becomes the replacement |
| Text.Split | law-gpt-frontend/src/App_Simple.tsx:98 | `split` always gives at least one piece, and no piece contains the separator |
| Text.JoinCons | src/App_Original_Backup.tsx:481-483 | joining a list with a new first element is that element, the separator, then the join of the rest |
| Text.JoinSnoc | src/App_Original_Backup.tsx:481-483 | joining a list with a new last element is the join, the separator, then that element |
| Text.JoinSplit | law-gpt-frontend/src/components/TypingAnimation.tsx:35 | joining the pieces of a split with the separator gives back the text |
| Text.SplitJoin | law-gpt-frontend/src/components/TypingAnimation.tsx:35 | splitting the join of separator-free pieces gives back the pieces |
| Text.Decimal | src/App_Original_Backup.tsx:410 | `Date.now().toString()` is a non-empty string of digits |
| Text.DecimalValue | src/App_Original_Backup.tsx:410 | reading the decimal text of n back gives n |
| Text.DecimalInjective | src/App_Original_Backup.tsx:1177-1188 | different clock values give different ids, so the user's message and its placeholder never share an id |
| Seqs.Filter | src/App_Original_Backup.tsx:443 | every kept element is from the input and passes the test; every input element that passes is kept; the result is no longer than the input |
| Seqs.FilterAppend | law-gpt-frontend/src/LegalChatbot.tsx:470 | filtering a concatenation is concatenating the filtered parts, so order is kept |
| Seqs.FilterPartition | src/App_Original_Backup.tsx:441-450 | filtering with a test and with its negation splits the input: the two multisets add up to the input's |
| Seqs.FirstHit | src/App_Original_Backup.tsx:397-398 | `find` gives the least index whose element passes the test, or none exactly when no element passes |
| Seqs.Take | src/App_Original_Backup.tsx:434 | `slice(0, n)` is the prefix of length min(length, n) |
| Http.OrElse | src/App.tsx:79 | `a \|\| fallback` is `a` when it is a non-empty string, and the fallback otherwise (absent or empty) |
| Http.StatusOf | law-gpt-frontend/src/App_Simple.tsx:29-44 | connected exactly when the probe got an OK status; disconnected exactly otherwise, thrown errors included |
| Chat.Merge | src/App_Original_Backup.tsx:165-173 | `{ ...msg, ...payload }` keeps the id, role and timestamp; each field the patch has overrides, and each field it lacks is kept |
| Chat.UpdateLast | src/App_Original_Backup.tsx:165-173 | the length is kept; a non-empty list keeps every element but the last and merges the patch into the last |
| Chat.UpdateLastSnoc | src/App_Original_Backup.tsx:165-173 | updating the last of `init + [m]` merges into `m` and keeps `init` |
| BackupStore.Reduce | src/App_Original_Backup.tsx:142-202 | the `chatReducer` transition; what each action does is stated by ReduceFrame, ReduceWrites, AddAppends, UpdateTouchesOnlyLast, ErrorStopsLoading and ClearLeavesGreeting |
| BackupStore.ReduceFrame | src/App_Original_Backup.tsx:142-202 | every action leaves alone every state field it does not own (Writes); an unknown action owns none |
| BackupStore.AddAppends | src/App_Original_Backup.tsx:144-148 | `ADD_MESSAGE` makes the payload the new last message and keeps all earlier ones |
| BackupStore.UpdateTouchesOnlyLast | src/App_Original_Backup.tsx:165-173 | `UPDATE_LAST_MESSAGE` keeps the length, changes only the last index (merged with the payload), and leaves an empty list empty |
| BackupStore.ErrorStopsLoading | src/App_Original_Backup.tsx:154-159 | `SET_ERROR` records the error and always clears `isLoading`, keeping messages and status |
| BackupStore.ClearLeavesGreeting | src/App_Original_Backup.tsx:174-188 | whatever the prior state, `CLEAR_MESSAGES` leaves exactly the welcome: id `1`, from the assistant, the welcome text, stamped now, with the sources `Legal Knowledge Base` and `Case Law Database`; the chat id becomes null and the chat start time now; loading, status and error are kept |
| BackupStore.ReduceWrites | src/App_Original_Backup.tsx:149-201 | `SET_LOADING`, `SET_API_STATUS`, `LOAD_MESSAGES` and `SET_CHAT_START_TIME` each set their field to the payload and change nothing else; an unknown action returns the state unchanged |
| BackupStore.ReduceAllSnoc | src/App_Original_Backup.tsx:1183-1195 | replaying one more dispatched action is one more reducer step |
| BackupStore.ReduceAllAppend | src/App_Original_Backup.tsx:1183-1256 | replaying two batches of dispatches in turn equals replaying their concatenation |
| BackupStore.SendActionsKeepSession | src/App_Original_Backup.tsx:1183-1256 | any sequence of the send handler's kinds of action keeps the error, chat id and start time, and grows the list by its number of `ADD_MESSAGE`s |
| BackupStore.CheckApiStatus | src/App_Original_Backup.tsx:1125-1144 | the status is `connecting` while the probe is out, then connected on an OK reply and disconnected on a non-OK reply or a failure; nothing else changes |
| BackupStore.ReplySources | src/App_Original_Backup.tsx:1224-1227 | the sources shown; characterised by ReplyFacts |
| BackupStore.ReplyText | src/App_Original_Backup.tsx:1232 | `data.response \|\| data.message \|\| 'No response received'`; characterised by ReplyFacts |
| BackupStore.ReplyFacts | src/App_Original_Backup.tsx:1224-1232 | the reply's sources (the knowledge-base default when it has none) with one web-search label in front exactly when a search was reported, an absent count printed as `undefined`; the text is the first truthy of `response` and `message`, else `No response received` |
| BackupStore.Fallback | src/App_Original_Backup.tsx:1245 | the apology quoting the first 40 characters typed; OutcomeShape states where it is used |
| BackupStore.Answer | src/App_Original_Backup.tsx:1217-1221 | the handler reaches the parsed body exactly when the reply is OK and parses, and then it is that body |
| BackupStore.OutcomeShape | src/App_Original_Backup.tsx:1221-1254 | the placeholder's patch always stops loading; on success it carries the reply text and sources, otherwise the apology and the single offline source |
| BackupStore.Submit | src/App_Original_Backup.tsx:1174-1195 | the user's trimmed message then an empty loading placeholder are appended and loading set, and that state is the replay of the dispatched actions |
| BackupStore.Settle | src/App_Original_Backup.tsx:1229-1257 | the placeholder is settled with the patch, the status becomes connected on success and disconnected on failure, and loading stops; the last action dispatched is `SET_LOADING false` |
| BackupStore.SendMessage | src/App_Original_Backup.tsx:1173-1258 | a blank input changes nothing; otherwise the input is cleared, exactly two messages are appended (the question, then the settled placeholder), the status follows the outcome, loading ends false, and the state is the replay of every action dispatched |
| Chatbot.Reduce | law-gpt-frontend/src/LegalChatbot.tsx:318-342 | the `chatReducer` transition; stated by ReduceFrame, UpdateTouchesOnlyLast and ClearRestoresGreeting |
| Chatbot.ClearRestoresGreeting | law-gpt-frontend/src/LegalChatbot.tsx:335-336 | `CLEAR_MESSAGES` leaves exactly `[initialState.messages[0]]` and changes no other field |
| Chatbot.ReduceFrame | law-gpt-frontend/src/LegalChatbot.tsx:318-342 | message actions change only the list; each flag action changes only its flag (`SET_ERROR` also clears loading); an unknown action changes nothing |
| Chatbot.UpdateTouchesOnlyLast | law-gpt-frontend/src/LegalChatbot.tsx:328-334 | `UPDATE_LAST_MESSAGE` keeps the length and changes only the last index |
| Chatbot.ReduceAllSnoc | law-gpt-frontend/src/LegalChatbot.tsx:412-424 | replaying one more dispatched action is one more reducer step |
| Chatbot.ReduceAllAppend | law-gpt-frontend/src/LegalChatbot.tsx:412-451 | replaying two batches of dispatches in turn equals replaying their concatenation |
| Chatbot.KanoonResponse | law-gpt-frontend/src/LegalChatbot.tsx:255-270 | `getKanoonResponse` returns a value exactly when the reply is OK and parses, and that value is the reply's `response`; any other reply throws |
| Chatbot.Fallback | law-gpt-frontend/src/LegalChatbot.tsx:440 | the apology quoting the first 50 characters typed; OutcomeShape states where it is used |
| Chatbot.OutcomeShape | law-gpt-frontend/src/LegalChatbot.tsx:426-449 | the patch always stops loading; on success it carries the returned text with the four fixed sources, otherwise the apology quoting the question and the offline source |
| Chatbot.Submit | law-gpt-frontend/src/LegalChatbot.tsx:403-424 | the user's trimmed message, loading on, then the loading placeholder, as the replay of the dispatches |
| Chatbot.Settle | law-gpt-frontend/src/LegalChatbot.tsx:426-452 | exactly `UPDATE_LAST_MESSAGE` then `SET_LOADING false` are dispatched: the last message is settled, loading stops, the status is untouched |
| Chatbot.SendMessage | law-gpt-frontend/src/LegalChatbot.tsx:402-453 | a blank input changes nothing; otherwise the input is cleared, exactly two messages are appended, the placeholder is settled by the outcome, and loading ends false |
| Chatbot.LoadChat | law-gpt-frontend/src/LegalChatbot.tsx:462-467 | a saved chat replaces the messages only when it has some; otherwise the state is unchanged |
| Chatbot.DeleteChat | law-gpt-frontend/src/LegalChatbot.tsx:469-471 | `filter` on the id; characterised by DeleteFacts and KeepAll |
| Chatbot.DeleteFacts | law-gpt-frontend/src/LegalChatbot.tsx:469-471 | no entry with the id survives, every other entry does, deletion distributes over concatenation (order kept), and a list without the id is unchanged |
| Chatbot.KeepAll | law-gpt-frontend/src/LegalChatbot.tsx:469-471 | deleting an id no entry has returns the list unchanged |
| Chatbot.StarChat | law-gpt-frontend/src/LegalChatbot.tsx:473-477 | the length is kept; entries with the id have `isStarred` flipped and every other entry is unchanged |
| Chatbot.StarTwice | law-gpt-frontend/src/LegalChatbot.tsx:473-477 | starring the same id twice restores the list |
| Chatbot.NewChat | law-gpt-frontend/src/LegalChatbot.tsx:553-560 | with only the greeting showing, or once confirmed, the list becomes the greeting alone; a declined prompt changes nothing |
| EventStream.Payload | law-gpt-frontend/src/App_Simple.tsx:101-103 | a payload exists exactly for lines starting with `data: `, and the line is that prefix followed by the payload |
| EventStream.Consume | law-gpt-frontend/src/App_Simple.tsx:100-123 | the line reader over a run of lines; ConsumeSnoc, ConsumeStopped and ConsumeMatchesTranscript state what it computes |
| EventStream.ConsumeSnoc | law-gpt-frontend/src/App_Simple.tsx:100-123 | reading one more line is one more step of the line reader |
| EventStream.ConsumeStopped | law-gpt-frontend/src/App_Simple.tsx:115-118 | once `done` has been seen, no later line changes anything |
| EventStream.AllLinesSnoc | law-gpt-frontend/src/App_Simple.tsx:97-98 | one more chunk adds its own split lines after the earlier lines |
| EventStream.AllLinesAppend | law-gpt-frontend/src/App_Simple.tsx:93-98 | the lines of two runs of chunks are the lines of each, in order |
| EventStream.SkippedLine | law-gpt-frontend/src/App_Simple.tsx:101-121 | a line without the `data: ` prefix, or whose payload does not parse, leaves the reader as it was |
| EventStream.AcceptedLine | law-gpt-frontend/src/App_Simple.tsx:104-118 | a parsed line before any `done` appends its fragment, pushes the new text to the screen exactly when the fragment is truthy, and then stops the reader if it says `done` |
| EventStream.UpdatesExtend | law-gpt-frontend/src/App_Simple.tsx:104-113 | the screen only grows by extension: each pushed text extends every earlier one, the last pushed is the accumulated text, and nothing pushed means empty text |
| EventStream.TranscriptCons | law-gpt-frontend/src/App_Simple.tsx:100-118 | the front-to-back reading skips a line carrying no event, ends after a `done` line's fragment, and otherwise keeps the fragment and reads on |
| EventStream.ReadOneLine | law-gpt-frontend/src/App_Simple.tsx:100-118 | reading one line moves its contribution from the unread part to the accumulated text |
| EventStream.ConsumeThenTranscript | law-gpt-frontend/src/App_Simple.tsx:93-124 | the front-to-back reading of `xs + ys` is the accumulated text after `xs`, then whatever `ys` still adds unless the reader has stopped |
| EventStream.StoppedIffDone | law-gpt-frontend/src/App_Simple.tsx:115-118 | the reader has stopped exactly when some parsed line says `done` |
| EventStream.ConsumeMatchesTranscript | law-gpt-frontend/src/App_Simple.tsx:93-124 | the accumulated text is the concatenation of the fragments up to the first `done`, and the reader has stopped exactly when a `done` was seen |
| EventStream.StopEarly | law-gpt-frontend/src/App_Simple.tsx:115-118 | a reader stopped part-way through a chunk already holds what reading the whole stream would give |
| EventStream.Ingest | law-gpt-frontend/src/App_Simple.tsx:93-124 | the nested reader loops with their early return leave the same text, screen updates and stop flag as the line reader over all lines of all chunks |
| EventStream.LinesOfLineChunks | law-gpt-frontend/src/App_Simple.tsx:97-98 | chunks without newlines read as those chunks, one line each |
| EventStream.TwoSkipped | law-gpt-frontend/src/App_Simple.tsx:119-121 | two lines carrying no event leave the reader at its start |
| EventStream.SplitLineIsLost | law-gpt-frontend/src/App_Simple.tsx:97-98 | an event line whole in one chunk yields its fragment, but the same line cut after `dat` across two chunks yields nothing |
| EventStream.StreamFailure | law-gpt-frontend/src/App_Simple.tsx:73-80 | reading starts exactly when the reply is OK and has a body; a non-OK status throws `HTTP error! status: N` |
| SimpleApp.CheckConnection | law-gpt-frontend/src/App_Simple.tsx:29-44 | connected on an OK probe, disconnected on any other reply or a failure; nothing else changes |
| SimpleApp.ReplaceLast | law-gpt-frontend/src/App_Simple.tsx:136 | `[...prev.slice(0, -1), m]` keeps the length of a non-empty list and replaces only its last element; an empty list becomes `[m]` |
| SimpleApp.AfterEarlyError | law-gpt-frontend/src/App_Simple.tsx:128-137 | as written, an error before reading starts leaves the earlier messages and the error, so the question just added is gone |
| SimpleApp.AfterEarlyErrorKept | law-gpt-frontend/src/App_Simple.tsx:128-137 | the evident intent: the earlier messages, then the question, then the error |
| SimpleApp.EarlyErrorLosesQuestion | law-gpt-frontend/src/App_Simple.tsx:128-137 | for a status-500 reply, the question is absent from the as-written list and present in the corrected one |
| SimpleApp.SendMessage | law-gpt-frontend/src/App_Simple.tsx:46-139 | blank input or a request in flight changes nothing; otherwise the question is appended and loading set; an early error then replaces the question by the error message, so the list grows by one; otherwise one assistant message is added whose content is the accumulated stream text; loading ends false on every path |
| SimpleApp.SendMessageKept | law-gpt-frontend/src/App_Simple.tsx:128-137 | the corrected handler: as SendMessage, except that an early error keeps the question and puts the error message after it, two messages in all |
| ConnectionTest.CheckBackendConnection | law-gpt-frontend/src/ConnectionTest.tsx:14-32 | connected on an OK probe, disconnected on any other reply or a failure |
| ConnectionTest.TestChat | law-gpt-frontend/src/ConnectionTest.tsx:34-97 | a blank message changes nothing; otherwise the response is reset to empty and loading set; an error shows `Error: ` and the error text; otherwise the response is the accumulated stream text; loading ends false |
| ConnectionTest.StatusErrorShown | law-gpt-frontend/src/ConnectionTest.tsx:92-96 | a status error is shown with the `Error: ` prefix twice |
| DeployedApp.CheckConnection | src/App.tsx:29-44 | connected on an OK probe, disconnected on any other reply or a failure |
| DeployedApp.Settle | src/App.tsx:73-79 | the request yields text exactly when the reply is OK and parses, and the text is `data.response \|\| 'No response received'`; a non-OK status fails with `HTTP error! status: N` |
| DeployedApp.AfterError | src/App.tsx:92-102 | as written, a failure leaves the earlier messages and the error message, so the question is gone |
| DeployedApp.AfterErrorKept | src/App.tsx:92-102 | the evident intent: the earlier messages, then the question, then the error |
| DeployedApp.ErrorLosesQuestion | src/App.tsx:92-102 | for a rejected `fetch`, the question is absent from the as-written list and present in the corrected one |
| DeployedApp.SendMessage | src/App.tsx:46-103 | blank input or a request in flight changes nothing; otherwise the question is appended and loading set; success adds the answer (two messages in all), while failure replaces the question by the error message (net growth one); loading ends false |
| DeployedApp.SendMessageKept | src/App.tsx:92-102 | the corrected handler: as SendMessage, except that a failure keeps the question and puts the error message after it, so every send grows the list by two |
| BackupHistory.RoundDiv | src/App_Original_Backup.tsx:415 | `Math.round(a / b)` is the integer nearest to a / b, halves rounded up |
| BackupHistory.Entry | src/App_Original_Backup.tsx:405-428 | the saved-chat record; its fields are stated by EntryFacts |
| BackupHistory.EntryFacts | src/App_Original_Backup.tsx:405-428 | a fresh entry's id reads back as the save time, which is also its timestamp; its name is the generated chat name and its category and complexity are those of its question and messages; it holds all the messages and their count; it is unpinned, unstarred and unarchived with no rating; its tag is derived from its category; its question preview is cut at 100 characters with `...`; the response preview is the first reply cut at 150 characters, or `No response yet` when there is no reply; its duration is the elapsed minutes, rounded |
| BackupHistory.PrependCapped | src/App_Original_Backup.tsx:430-434 | `unshift` then `slice(0, cap)`: the new entry is first, the length is min(old + 1, cap), and the rest is the old list cut to cap - 1 |
| BackupHistory.SaveHistory | src/App_Original_Backup.tsx:391-438 | with one message or none, or no user message, the list is untouched and the matching notice is returned; otherwise the new entry, holding the messages, goes in front, the rest is the old list cut to 49, the length is min(old + 1, 50), and the notice is `Chat saved as` with the chat's name |
| BackupHistory.NewChat | src/App_Original_Backup.tsx:1319-1362 | with only the greeting it clears at once; declined, nothing changes; confirmed, the chat is saved (when it has a user message, its duration measured from the chat's start time) and then cleared |
| BackupHistory.ClearCurrentChat | src/App_Original_Backup.tsx:700-706 | once confirmed the chat is cleared as `CLEAR_MESSAGES` clears it; otherwise nothing changes |
| BackupHistory.DeleteAllHistory | src/App_Original_Backup.tsx:711-717 | once confirmed the stored list is empty and so are both its views; otherwise it is unchanged |
| BackupHistory.ActiveArchivedPartition | src/App_Original_Backup.tsx:441-450 | the active and archived views split the stored list: every entry is in exactly one of them, according to its flag |
| BackupHistory.LoadLatest | src/App_Original_Backup.tsx:686-695 | the first entry that is not archived, if any, replaces the chat's messages, with the matching notice; otherwise nothing changes |
| BackupHistory.UpdateWhere | src/App_Original_Backup.tsx:453-459 | the length is kept; the entries with the id are transformed and every other entry is unchanged |
| BackupHistory.TogglePin | src/App_Original_Backup.tsx:453-459 | `togglePinChat`; characterised by TogglePinOnlyFlips and ToggleTwice |
| BackupHistory.ToggleStar | src/App_Original_Backup.tsx:462-468 | `toggleStarChat`; characterised by ToggleStarOnlyFlips and ToggleTwice |
| BackupHistory.Rename | src/App_Original_Backup.tsx:471-477 | `renameChat`; characterised by RenameFacts |
| BackupHistory.TogglePinOnlyFlips | src/App_Original_Backup.tsx:453-459 | pinning changes no field but `isPinned`, and flips it exactly on the entries with the id |
| BackupHistory.ToggleStarOnlyFlips | src/App_Original_Backup.tsx:462-468 | starring changes no field but `isStarred`, and flips it exactly on the entries with the id |
| BackupHistory.ToggleTwice | src/App_Original_Backup.tsx:453-468 | pinning twice, or starring twice, restores the list |
| BackupHistory.RenameFacts | src/App_Original_Backup.tsx:471-477 | renaming sets the name of exactly the matching entries, and a second rename overrides the first |
| BackupHistory.RateSatisfaction | src/App_Original_Backup.tsx:586-599 | the rating is recorded on exactly the matching entries, everything else is unchanged, and the notice is `Rated N/5 stars!` |
| BackupHistory.ArchiveOld | src/App_Original_Backup.tsx:1070-1081 | the length is kept; exactly the entries saved more than thirty days before now become archived |
| BackupHistory.ArchiveOldFacts | src/App_Original_Backup.tsx:1070-1081 | archiving is idempotent; afterwards every active entry is recent, and every recent active entry stays active |
| BackupHistory.Duplicate | src/App_Original_Backup.tsx:497-514 | the copy, with a new id and time, a marked name and a `duplicated` tag, goes in front; the list grows by one and is not capped; messages and category are copied |
| BackupHistory.ExportText | src/App_Original_Backup.tsx:480-483 | the exported text; characterised by Blocks, ExportAppend and BlockShape |
| BackupHistory.Blocks | src/App_Original_Backup.tsx:481-483 | one export block per message, in order |
| BackupHistory.ExportAppend | src/App_Original_Backup.tsx:480-483 | an empty chat exports as empty text; one more message adds a newline and its block |
| BackupHistory.RoleLabels | src/App_Original_Backup.tsx:482 | `msg.role.toUpperCase()` gives `USER` and `ASSISTANT` |
| BackupHistory.BlockShape | src/App_Original_Backup.tsx:482 | each block opens with the upper-case role, the content and a newline, and closes with a newline |
| BackupHistory.SanitizeFileName | src/App_Original_Backup.tsx:489 | the length is kept; ASCII letters and digits are kept and every other character becomes `_` |
| BackupHistory.SanitizeFacts | src/App_Original_Backup.tsx:489 | a sanitised name holds only ASCII letters, digits and `_`, and sanitising again changes nothing |
| BackupHistory.Compare | src/App_Original_Backup.tsx:780-787 | the sidebar comparator; CompareIsPreorder and SortedOrder state its order |
| BackupHistory.CompareIsPreorder | src/App_Original_Backup.tsx:780-787 | the comparator is antisymmetric, and its `<= 0` is total and transitive |
| BackupHistory.SortChats | src/App_Original_Backup.tsx:780-787 | the sorted list is in comparator order and is a permutation of the input |
| BackupHistory.SortedOrder | src/App_Original_Backup.tsx:780-787 | in the sorted list pinned entries come first, then starred ones among equals, then newer before older |
| BackupHistory.PoolFacts | src/App_Original_Backup.tsx:771 | the pool holds stored entries only, all archived exactly when the archived view was chosen |
| BackupHistory.Visible | src/App_Original_Backup.tsx:771-789 | the sidebar list; characterised by VisibleFacts |
| BackupHistory.VisibleFacts | src/App_Original_Backup.tsx:771-789 | at most ten entries are shown, all from the chosen pool, all matching the category and search, in comparator order; when ten or fewer match, every match is shown |
| Topics.FirstMatch | src/App_Original_Backup.tsx:92-97 | the category of the first row whose key matches, or `General Legal` when none does |
| Topics.ScanKeywords | src/App_Original_Backup.tsx:90-97 | the `for` loop with its `break` gives the first-match category |
| Topics.NameCategoryIsFirstMatch | src/App_Original_Backup.tsx:89-97 | the naming category is that of the first keyword, in declared order, that the lower-cased message contains; `General Legal` when none |
| Topics.ChatName | src/App_Original_Backup.tsx:99-104 | the chat name; characterised by ChatNameShape and NameCategoryIsFirstMatch |
| Topics.ChatNameShape | src/App_Original_Backup.tsx:99-104 | a name opens with its category and `: `; a message of at most 30 characters follows whole, and a longer one as its first 30 characters and `...` |
| Topics.GenerateChatName | src/App_Original_Backup.tsx:66-105 | the method with its keyword loop builds the name ChatNameShape describes |
| Topics.CategorizeLegalTopic | src/App_Original_Backup.tsx:107-129 | `categorizeLegalTopic`; characterised by TopicIsFirstMatch |
| Topics.TopicIsFirstMatch | src/App_Original_Backup.tsx:107-129 | the topic is the first category, in declared order, with a keyword in the lower-cased content; `General Legal` when none |
| Topics.ClassifyByQuotient | src/App_Original_Backup.tsx:135-138 | the integer bands agree with the real quotient: simple below 100, medium from 100 to below 300, complex from 300 |
| Topics.CalculateComplexity | src/App_Original_Backup.tsx:132-139 | `calculateComplexity`; characterised by ComplexityByAverage and EmptyIsComplex |
| Topics.ComplexityByAverage | src/App_Original_Backup.tsx:132-139 | for a non-empty chat, `calculateComplexity` equals the banding of the real average message length |
| Topics.EmptyIsComplex | src/App_Original_Backup.tsx:132-139 | with no messages (the average is NaN) the result is `complex` |
| Topics.Tag | src/App_Original_Backup.tsx:426 | the tag has the category's length, lower-cased, with only the first space made a hyphen |
| Typing.Pieces | law-gpt-frontend/src/components/TypingAnimation.tsx:33-39 | character mode gives one piece per character, in order (word mode is Split) |
| Typing.CharacterShown | law-gpt-frontend/src/components/TypingAnimation.tsx:53 | in character mode, k ticks show exactly the first k characters |
| Typing.ShownNonEmpty | law-gpt-frontend/src/components/TypingAnimation.tsx:51 | in word mode, once a non-empty first word is shown the display is never empty |
| Typing.WordShown | law-gpt-frontend/src/components/TypingAnimation.tsx:51 | in word mode with a non-empty first word, k ticks show the first k words joined by single spaces |
| Typing.Finished | law-gpt-frontend/src/components/TypingAnimation.tsx:41-56 | once every piece is revealed the whole text shows (in word mode when it is empty or does not start with a space) |
| Typing.LeadingSpaceDropped | law-gpt-frontend/src/components/TypingAnimation.tsx:35-51 | in word mode, ` a` splits into an empty word and `a`, and the finished display is `a`: the leading space is lost |
| Typing.TypingAnimation.constructor | law-gpt-frontend/src/components/TypingAnimation.tsx:18-39 | a fresh component holds the pieces of its text, shows nothing, is at index 0 and has not started |
| Typing.TypingAnimation.Start | law-gpt-frontend/src/components/TypingAnimation.tsx:25-27 | the start delay firing sets `hasStarted` and changes nothing else |
| Typing.TypingAnimation.Tick | law-gpt-frontend/src/components/TypingAnimation.tsx:41-56 | while the cursor shows (started, index below the piece count), one piece is revealed and the index moves on by one; otherwise nothing changes; the index never passes the piece count |
| Typing.TypingAnimation.ChangeText | law-gpt-frontend/src/components/TypingAnimation.tsx:62-66 | a new text recuts the pieces and resets the display to empty, the index to 0 and `hasStarted` to false |
| Typing.TypeOut | law-gpt-frontend/src/components/TypingAnimation.tsx:41-59 | ticking from the start until the cursor goes reveals exactly the text |

## Left out

- JSX rendering, CSS, animation classes, the `<style>` blocks, and the LegalWatermark component (floating-point positioning): these are presentational.
- `fetch`, `getReader`, `TextDecoder` and `JSON.parse` are foreign calls. They enter as the reply value, the chunk sequence (already decoded text) and the abstract `parse` function.
- Errors thrown by `reader.read()` in the middle of a stream are not modelled. The reply carries a finished list of chunks.
- `localStorage`, `alert`, `confirm`, `prompt`, sharing, `exportChatAsPDF`, Blob and object URLs are browser I/O. Stored lists, confirm answers and notices are parameters and results. Sharing and PDF export are left out.
- A stored list that fails to parse as JSON is not modelled. Nor is the fact that `localStorage.removeItem` leaves no key rather than an empty list; later reads see both the same way.
- `Date`, `toLocaleDateString` and `toISOString`: timestamps are integers in milliseconds, and the locale date is a parameter.
  - BackupHistory.ArchiveOld subtracts a fixed thirty days of milliseconds. `setDate(getDate() - 30)` differs from that by an hour across a daylight-saving change.
- The average-rating statistic and `toFixed` in the sidebar are floating-point display code.
- The auto-save effect (`src/App_Original_Backup.tsx:1089-1121`) and `restoreAutoSavedChat` are not modelled. They run on every render and on mount, through the browser's storage. The entry the effect builds differs from Entry: its id is `auto-save`, its name is the chat name followed by ` (Auto-saved)`, and its tags carry an extra `auto-saved`.
- `generateMockHistory` in LegalChatbot.tsx is fixed demonstration data, and is left out.
- `Math.random`, `setTimeout` scheduling, scrolling and focus are not modelled. The typing animation's timers enter only as calls to Start and Tick.
- Typing.TypingAnimation.ChangeText: a change of `typingMode` alone, without a text change, recuts the pieces without resetting the display, and that case is not modelled.
  - The one-render lag before the split lands (when `onComplete` can fire on mount against the empty initial piece list) is not modelled either.
- Typing.TypingAnimation.Tick: the cursor and `onComplete` conditions are the functions ShowsCursor and CompletionDue. They have no contracts of their own beyond their definitions.
- Overlapping sends are not modelled: the interface disables input while a request is in flight, and one send at a time is assumed.
- BackupStore.ReplySources: `web_search_performed` is read as a boolean, where an absent field is false; a count or a `sources` field of some other JSON type (a string count, a non-array list) is not modelled.
- Chatbot.KanoonResponse: a reply whose JSON lacks `response` gives `undefined` content in the source. The model's string payload cannot express that case.
- Text.ToLower: only ASCII letters are case-folded. `toLowerCase` folds all of Unicode, so keyword matching on non-ASCII text is weaker than the source.
- Text.ToUpper: the same ASCII-only limit as Text.ToLower.
  - Lengths count code points, not UTF-16 units, so truncation of text outside the Basic Multilingual Plane differs.
- BackupHistory.SortChats is an insertion sort and so is stable. `Array.prototype.sort` is stable too, but the model does not claim the engine's order among entries that compare equal.
- The test files are not modelled. They exercise UI text and a mocked `axios` that the code does not use.

## Findings

| source | as written | input that shows it | evidently intended | confidence | as-written member | corrected member |
|---|---|---|---|---|---|---|
| law-gpt-frontend/src/App_Simple.tsx:128-137 | The `catch` block replaces the last message with the error message (`prev.slice(0, -1)`). When the error is thrown before the streaming placeholder is added (a non-OK status or no body), the last message is the user's own question, which disappears. | an HTTP 500 reply to `What is bail?` | the question stays and the error message follows it | high (not executed) | SimpleApp.EarlyErrorLosesQuestion | SimpleApp.AfterEarlyErrorKept |
| src/App.tsx:92-102 | This frontend never adds a placeholder, yet its `catch` block also replaces the last message. After any failure, the question just asked is removed. | a rejected `fetch` (`TypeError: Failed to fetch`) for `Explain Article 21` | the question stays and the error message follows it | high (not executed) | DeployedApp.ErrorLosesQuestion | DeployedApp.AfterErrorKept |
