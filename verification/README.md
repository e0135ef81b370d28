# Parler conversation core, modelled in Dafny

Parler is a mobile app for practising spoken French. The user records a phrase. The app transcribes it, asks a chat-completion service for a short reply and a list of grammar mistakes, saves everything to a hosted backend and speaks the reply aloud. This project models the app's own logic around those services:

- **Session store** (`store.dfy`, module `ConversationStore`). This is the single shared record. It holds the conversation id, the user id, the ordered message log, the ordered mistake log, the turn status (`idle | recording | processing | playing`) and the initialized flag. It is modelled as the class `Store`, whose methods are the store's setters. A value type `Session` gives the class's state at one moment. A ghost log `statusLog` records every status ever written, so the order of status changes can be stated.
- **Conversation turn** (`turn.dfy`, module `Turn`; `conversation.dfy`, module `ConversationScreen`). Stopping a recording runs one turn in this order: mark processing, transcribe, save the user message, ask for the reply, save the assistant message, save each mistake in turn, mark playing, speak, mark idle. Any exception sends the status back to idle and rolls nothing back.
  - `StopTurn` states the turn as a function of the session and of what each collaborator answers.
  - The screen's handler methods `StartRecording`, `StopRecording` and `HandleRecordPress` update a `Store` step by step and are proved against those functions. `HandleEndConversation` leaves the store alone; its contract states its calls and whether it navigates.
  - Every collaborator is an outcome the caller supplies (`TurnEnv`): transcription, saving to the backend, the chat HTTP exchange, speech.
  - Each handler also returns the calls it made (`Effects.Call`), in order, and whether it showed the error alert.
- **Dialogue client** (`dialogue.dfy`, module `Dialogue`). This covers how the request's message list is built from the history, the `extractReplyFromContent` rule, the error checks on the HTTP reply, and the rule that unparseable content becomes the reply with no mistakes. `JSON.parse` is a parameter `Parser`, a partial function from text to an `AIResponse`.
- **Screens around the turn**: `home.dfy` (start a conversation), `layout.dfy` (anonymous sign-in bootstrap), `summary.dfy` (load and show the mistakes, start over), `record_button.dfy` (label, style, enabled state and spinner as functions of the status).

A status outside the four values cannot arise: `RecordingStatus` is a datatype with exactly those four constructors.

The model follows the code as written, including these easily missed behaviours:
- `startRecording` does not check for a conversation id. It sets `recording` whenever capture starts.
- `stopRecording` marks `processing` before it stops the recorder. A recorder failure therefore gives the trace processing, idle, with the alert.
- A failure while speaking still leaves the trace processing, playing, idle. Only the alert tells it apart from success.
- `handleEndConversation` has no `catch`. When `endConversation` throws, the screen does not navigate to the summary.

## Model

| member | source | states |
|---|---|---|
| ConversationStore.Store.constructor | src/stores/conversationStore.ts:22-28 | the store starts with no conversation, no user, empty logs, status idle, not initialized |
| ConversationStore.Store.SetUserId | src/stores/conversationStore.ts:30 | only the user id changes; no status is written |
| ConversationStore.Store.SetConversationId | src/stores/conversationStore.ts:32 | only the conversation id changes, to the given value or null |
| ConversationStore.Store.AddMessage | src/stores/conversationStore.ts:34-35 | the message log becomes the old log with the message appended; every other field is unchanged |
| ConversationStore.Store.AddMistake | src/stores/conversationStore.ts:37-38 | the mistake log becomes the old log with the mistake appended; every other field is unchanged |
| ConversationStore.Store.SetMistakes | src/stores/conversationStore.ts:40 | the mistake log is replaced wholesale; every other field is unchanged |
| ConversationStore.Store.SetStatus | src/stores/conversationStore.ts:42 | only the status changes, and the write is recorded in the status log |
| ConversationStore.Store.SetInitialized | src/stores/conversationStore.ts:44 | only the initialized flag changes |
| ConversationStore.Store.Reset | src/stores/conversationStore.ts:46-52 | the store becomes ResetOf of its old value, and the status write idle is recorded |
| ConversationStore.ResetOf | src/stores/conversationStore.ts:46-52 | reset clears the conversation id, both logs and the status, and keeps the user id and the initialized flag |
| ConversationStore.ResetIdempotent | src/stores/conversationStore.ts:46-52 | resetting twice equals resetting once |
| ConversationStore.ResetForgetsConversation | src/stores/conversationStore.ts:46-52 | after a reset nothing of the previous conversation remains: two sessions with the same identity reset to the same value |
| Dialogue.ExtractReply | src/services/openai.ts:71-78 | the result is the content itself or the parsed reply, and non-empty content never yields an empty text |
| Dialogue.ExtractReplyCases | src/services/openai.ts:71-78 | content that fails to parse is kept; a parsed non-empty reply is used; an empty reply falls back to the content |
| Dialogue.HistoryEntry | src/services/openai.ts:27-30 | definition: a history message becomes an entry with its role; user content is kept, assistant content goes through ExtractReply |
| Dialogue.HistoryEntries | src/services/openai.ts:27-30 | one request entry per history message, same length, each with its message's role |
| Dialogue.HistoryEntriesAt | src/services/openai.ts:27-30 | entry i is built from history message i, so the order is preserved |
| Dialogue.BuildRequest | src/services/openai.ts:25-32 | the request holds history + 2 entries: the system prompt first and the user's utterance last |
| Dialogue.BuildRequestKeepsHistory | src/services/openai.ts:27-30 | entry i+1 carries history message i: user content verbatim, assistant content through ExtractReply |
| Dialogue.InterpretReply | src/services/openai.ts:48-68 | it succeeds exactly when the response is ok with non-empty content; a non-ok response throws "OpenAI API error: " plus the body; missing or empty content throws "No response from OpenAI" |
| Dialogue.UnparseableContentFallsBack | src/services/openai.ts:63-68 | content that does not parse yields reply = content and no mistakes, and is not an error |
| Dialogue.ParsedContentPassesThrough | src/services/openai.ts:60-62 | parsed content is returned as is, with the mistakes in the service's order |
| Turn.SaveMistakes | src/app/conversation.tsx:120-129 | the loop makes one call per attempted mistake; it saves all of them unless one throws, and it never attempts more than returned |
| Turn.SaveMistakesInOrder | src/app/conversation.tsx:120-129 | saved mistake i comes from returned mistake i, carries its save's id and is linked to the user message; the save that stops the loop is the first that threw |
| Turn.SaveMistakesStops | src/app/conversation.tsx:120-129 | once a save throws, no later mistake is attempted |
| Turn.StopTurnNoRollback | src/app/conversation.tsx:83-139 | on every path the turn ends idle and keeps the conversation id, user id and flag. It only appends, at most two messages, and adds mistakes only after both messages. Its status trace starts with processing and ends with idle |
| Turn.StopTurnAppendsInOrder | src/app/conversation.tsx:105-129 | the first appended message is the saved transcript (role user); the second is the saved reply (role assistant); the appended mistakes are the reply's, in order, linked to the user message's id |
| Turn.ReplyTurnAppends | src/app/conversation.tsx:112-129 | after the reply is known the turn ends idle and keeps the ids; it appends the assistant message and then the saved mistakes, mistake j from returned mistake j with save j's id, or nothing when saving the reply throws |
| Turn.StopTurnSendsPriorHistory | src/app/conversation.tsx:109 | the dialogue request is built from the message log as it was before this turn's user message, with the transcript as the last entry |
| Turn.StopTurnCompletes | src/app/conversation.tsx:85-134 | a turn where every collaborator answers adds exactly two messages (user, then assistant) and exactly N mistakes in the returned order. Its statuses are processing, playing, idle. Its calls are, in order: transcribe, save user, dialogue, save assistant, N mistake saves, speak |
| Turn.StopTurnReachesReply | src/app/conversation.tsx:85-117 | once the reply is usable, the turn has written processing, appended the user message and made the transcribe, save and dialogue calls; the rest is the reply stage |
| Turn.ReplyTurnCompletes | src/app/conversation.tsx:112-134 | when every save succeeds the reply stage appends the reply, then each mistake in order; it writes playing then idle, and its calls are the reply save, one save per mistake and the speech |
| Turn.StopTurnWithoutRecordingOrConversation | src/app/conversation.tsx:95-98 | with no recording uri or no conversation id the turn goes processing then idle, adds nothing, calls no collaborator and shows no alert |
| Turn.StopTurnFailureAlerts | src/app/conversation.tsx:101-139 | if transcription or saving the user message throws, the alert is shown, nothing is added and the status is idle |
| Turn.StopTurnUnparseableReply | src/app/conversation.tsx:109-117 | a reply that is not JSON is saved verbatim as the assistant message and spoken as it is, and no mistakes are added |
| Turn.StopTurnKeepsUserMessage | src/app/conversation.tsx:104-139 | once the user message is saved and added, it stays first among the turn's additions whatever fails later; if the dialogue exchange throws, the turn ends idle with exactly that message added |
| Turn.ReplyTurnStops | src/app/conversation.tsx:112-139 | the reply stage writes playing and calls speech exactly when the reply and every mistake are saved; a failed reply save is its last call, and a failed mistake save is its last call, for the first unsaved mistake |
| Turn.StopTurnPlaysOnlyWhenComplete | src/app/conversation.tsx:83-139 | playing is written, and the reply spoken, exactly when every step of the turn succeeds |
| Turn.StopTurnStopsAtFailure | src/app/conversation.tsx:93-139 | a failing step is the turn's last call: one call after a failed transcription, two after a failed user save, three after a failed dialogue exchange, four after a failed reply save; no call without a recording and a conversation |
| Turn.StopTurnAlertIff | src/app/conversation.tsx:83-139 | the alert shows exactly when some step throws: the recorder, or, past the uri and conversation check, transcription, the user save, the dialogue exchange, the reply save, a mistake save, or speech |
| Turn.StopTurn | src/app/conversation.tsx:83-140 | definition: the turn as a function of the session and each collaborator's answer; its properties are the StopTurn lemmas in this table |
| Turn.ReplyTurn | src/app/conversation.tsx:112-134 | definition: the turn from the reply save on; its properties are ReplyTurnAppends and ReplyTurnCompletes |
| Turn.StartTurn | src/app/conversation.tsx:67-81 | definition: status recording with no alert when capture starts, otherwise the session unchanged and the alert; ConversationScreen.StartRecording is proved against it |
| Turn.Press | src/app/conversation.tsx:142-148 | definition: StopTurn when recording, StartTurn when idle, no effect otherwise; ConversationScreen.HandleRecordPress is proved against it |
| Turn.Presses | src/app/conversation.tsx:142-148 | definition: presses run one after another; its property is PressesKeepHistory |
| Turn.Dispatch | src/app/conversation.tsx:142-148 | a press starts a recording exactly when idle; it does nothing exactly when processing or playing; otherwise (recording) it stops |
| Turn.PressesKeepHistory | src/app/conversation.tsx:142-148 | over any sequence of presses run one after another, the status stays idle or recording, the conversation and identity stay, and both logs only grow |
| ConversationScreen.StartRecording | src/app/conversation.tsx:67-81 | the status becomes recording only when capture starts; on failure nothing changes and the alert is shown |
| ConversationScreen.SaveReplyMistakes | src/app/conversation.tsx:120-129 | the loop appends to the store exactly the mistakes SaveMistakes saves, makes its calls, and reports whether a save threw |
| ConversationScreen.FinishTurn | src/app/conversation.tsx:112-134 | saving the reply, the mistakes and speaking leave the store, statuses, calls and alert as ReplyTurn says |
| ConversationScreen.StopRecording | src/app/conversation.tsx:83-140 | the store, the status writes, the calls and the alert are exactly those of StopTurn |
| ConversationScreen.HandleRecordPress | src/app/conversation.tsx:142-148 | the press has exactly the effect of Press: stop when recording, start when idle, nothing otherwise |
| ConversationScreen.HandleEndConversation | src/app/conversation.tsx:150-155 | the end call is made only when a conversation id exists, and navigation happens unless that call throws; the store is not touched |
| Summary.LoadMistakes | src/app/summary.tsx:24-38 | with a conversation id and a successful fetch, the store and the screen both hold the fetched list. Otherwise the store is unchanged and the screen shows the store's list. Either way the screen shows what the store holds, and loading ends |
| Summary.HandleStartNew | src/app/summary.tsx:43-46 | starting over performs the store reset and then always navigates home |
| Summary.View | src/app/summary.tsx:62-74 | the congratulations state shows exactly when the list is empty; otherwise the list is shown as it is, under the subtitle for its length |
| Summary.Subtitle | src/app/summary.tsx:74 | definition: the count, " mistake", an "s" when the count is above one, " detected"; its properties are SubtitlePlural and SubtitleExamples |
| Summary.Decimal | src/app/summary.tsx:74 | the count is rendered as a non-empty string of decimal digits, with no leading zero |
| Summary.DecimalValue | src/app/summary.tsx:74 | for every count, the rendered digits denote that count |
| Summary.EffectRun | src/app/summary.tsx:24-38 | one run of the loading effect keeps the conversation id; it changes its dependencies, by giving the store's list a new identity, exactly when it has a conversation id and the fetch succeeds |
| Summary.EffectRuns | src/app/summary.tsx:23-41 | the effect is run again while a watched dependency changed, and makes at most one fetch per fetch answer |
| Summary.EffectRunsAsWritten | src/app/summary.tsx:23-41 | the loading effect as written watches the store's list: it makes at most one fetch per answer and none without a conversation id |
| Summary.EffectRefetchesWithoutEnd | src/app/summary.tsx:23-41 | with a conversation id and a backend that answers, n answers mean n fetches, for every n |
| Summary.EffectRunsIntended | src/app/summary.tsx:23-41 | with the conversation id as the only watched dependency the effect fetches at most once, exactly when there is a conversation id; this is the first run of the effect as written |
| Summary.SubtitlePlural | src/app/summary.tsx:74 | the subtitle reads "mistakes" exactly when the count is above one |
| Summary.SubtitleExamples | src/app/summary.tsx:74 | the subtitles for 1, 3 and 12 mistakes |
| Home.AfterStart | src/app/index.tsx:16-30 | definition: no change without a user id; otherwise reset, then the created conversation's id or null; its properties are the two lemmas below |
| Home.AfterStartOutcome | src/app/index.tsx:16-30 | with no user id nothing changes. With one, the logs are cleared and the status is idle, and the conversation id is the created one or null when creation fails. The identity is kept |
| Home.AfterStartForgetsOldConversation | src/app/index.tsx:22-25 | the session after starting depends only on the user and the creation outcome, not on the previous conversation |
| Home.HandleStartConversation | src/app/index.tsx:16-30 | the store ends as AfterStart says. createConversation is called only with a user id, after the reset. Navigation happens only on success |
| Layout.AfterAuth | src/app/_layout.tsx:11-22 | definition: the user id when sign-in returns a user, then initialized in every case; its property is AfterAuthOutcome |
| Layout.AfterAuthOutcome | src/app/_layout.tsx:11-22 | initialized is always set; the user id is set only when sign-in returns a user; no other field changes |
| Layout.InitAuth | src/app/_layout.tsx:11-22 | the store ends as AfterAuth says; no status is written |
| RecordButton.Style | src/components/RecordButton.tsx:22-26 | definition: the recording style while recording, the processing style while processing or playing, the idle style otherwise; see the lemmas below |
| RecordButton.StatusText | src/components/RecordButton.tsx:28-39 | definition: one label per status, "Tap to speak" when idle; see LabelsDistinct and EnabledIffPressActs |
| RecordButton.Disabled | src/components/RecordButton.tsx:46 | definition: disabled by the prop or while processing or playing; see EnabledIffPressActs |
| RecordButton.Content | src/components/RecordButton.tsx:49-55 | definition: a spinner while processing or playing, otherwise the circle, with the indicator while recording; see BusyIsConsistent and IndicatorOnlyWhileRecording |
| RecordButton.BusyIsConsistent | src/components/RecordButton.tsx:22-55 | the spinner shows exactly when processing or playing, which is exactly when the grey style is used and the label is "Processing..." or "Playing...", and the button is then disabled |
| RecordButton.IndicatorOnlyWhileRecording | src/components/RecordButton.tsx:49-55 | the recording indicator shows exactly while recording, together with the red style |
| RecordButton.EnabledIffPressActs | src/components/RecordButton.tsx:46 | without the prop the button is enabled exactly when a press has an effect; "Tap to speak" shows exactly when a press would start recording |
| RecordButton.LabelsDistinct | src/components/RecordButton.tsx:28-39 | every status has its own label |

## Findings

| source | as written | input that shows it | evidently intended | confidence | as-written member | corrected member |
|---|---|---|---|---|---|---|
| src/app/summary.tsx:23-41 | the loading effect lists the store's mistake list among its dependencies, and on success it stores a freshly fetched list with `setMistakes`; the new list is a new array, so the effect runs again and fetches again | any conversation id and a backend whose fetches succeed: every answer gives the store's list a new identity, which triggers the next fetch | one fetch when the screen opens for a conversation | medium, not executed (follows from React comparing dependencies by identity) | Summary.EffectRunsAsWritten, Summary.EffectRefetchesWithoutEnd | Summary.EffectRunsIntended, Summary.LoadMistakes |

## Left out

- Real asynchrony. A second press while `startRecording` is awaiting is not guarded: the status stays idle until capture starts, so the app starts capture again. Record-button presses during a turn are ignored once `processing` is written. The End Conversation button has no such guard: pressed mid-turn, it opens the summary while the turn keeps appending to the store, and a "New Conversation" reset there can be followed by the old turn's late appends. The model runs each handler to completion and captures none of these interleavings.
- Microphone permission, audio-mode changes and the recorder. They are folded into two outcomes: `prepare` (start capture) and `capture` (stop capture, giving the recorded uri or throwing).
- Speech synthesis (src/services/tts.ts) is one outcome that succeeds or throws. The sound-handle replacement, the 30-second timeout race against playback completion, base64 encoding and `stopSpeaking` on leaving the screen are not modelled.
- Transcription (src/services/whisper.ts) and the backend wrappers (src/services/supabase.ts) are outcomes only. Their HTTP and SQL bodies, the session storage and `getMessagesForConversation`, which no core handler calls, are not modelled.
- The HTTP body, headers, model name, temperature and token limit of the chat request are I/O. Only the `messages` list is modelled.
- The service's reply is read at the `AIResponse` shape. A parse result of another shape (null, a number, an object without `reply` or `mistakes`) is outside the model. For `extractReplyFromContent`, an absent `reply` behaves like an empty one, so the empty string stands for both.
- Dialogue.ExtractReply: the model's parser may accept the empty string, which `JSON.parse` never does. The contract therefore states only that non-empty content never yields an empty text, not the converse.
- Alerts, console logging and router navigation are kept only as a boolean result (alert shown, navigated). Their text and targets are not modelled. The same goes for the `lastTranscript` display, the ScrollView auto-scroll, the loading spinner screens, MistakeCard and every style sheet.
- Summary.LoadMistakes: it models one run of the loading effect, the run the effect is evidently meant to make. The effect as written re-runs after every successful fetch (see Findings); that loop is modelled separately by `Summary.EffectRunsAsWritten`, not by this method.
- What the backend returns for an inserted row is only partly modelled. The backend assigns each saved row a fresh id and a creation time (`Types.Stamp`). The model assumes the rest of the returned row is the fields that were inserted. This is what lets the model state, for example, that the assistant message saved is exactly the reply text.
- The `endedAt` timestamp that `endConversation` writes on the backend. It is recorded only as the call `EndConversation(id)`.
