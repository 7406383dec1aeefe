# Realtime voice assistant: session controller model

This project models the browser-side controller of a realtime voice
assistant, the `RealtimeVoiceAssistant` class of `static/script.js`. The
controller opens a WebSocket to the backend, sets up microphone capture and
streams encoded audio frames while recording. It keeps a chat transcript of
the user's recognised speech, the assistant's streamed text answer and the
backend's errors, and starts playback of audio fragments as they arrive.

The model has two parts.

- **Session flags as a state machine** (`Session`, `SessionProperties`). The
  state is the object's fields: `isConnected`, `isRecording`, which socket
  `websocket` holds, whether an audio context exists, the status line (as an
  enumeration, not text), the chat history and a log of the calls the page
  makes into the browser (`Effect`: open or close a socket, create or close
  an audio context, send an `audio_data` frame, start a playback). The
  browser callbacks are abstract inputs: the button click, socket open,
  close, error and message, the end of `setupAudio`, and a microphone frame.
  Because `setupAudio` awaits the microphone, its end is a separate input.
  The state counts the started setups that have not ended yet
  (`pendingSetups`).
- **Event demultiplexer and chat transcript** (`Events`, `Chat`). An inbound
  message is classified by its `type` string into one variant per `case`
  label, plus `Unrecognized`. The history is a sequence of `(sender, text)`
  records. `AppendToLastMessage` extends the most recent message *of the same
  sender*, even when messages of other senders follow it. It starts a new
  message only when that sender has none.

`Assistant.RealtimeVoiceAssistant` is the class itself. Its fields are
updated in place, one method per handler, and every method's contract says
that its new state is what the matching `Session` function gives for the
old state. The properties are proved about those functions in
`SessionProperties` and `Chat`.

One behaviour of the code that the model makes explicit is
`SessionProperties.StaleSetupAfterDisconnect`. Suppose the user clicks
"stop" while the microphone permission prompt is still open, and the socket
then closes. A late grant still creates an audio context and turns
recording on. From then on, frames are sent on the socket the page itself
asked to close.

A few more facts about the code that the model keeps:
- The code has no FIFO playback queue: each audio fragment is started at once.
- A click while a socket is still connecting creates another socket. The
  field is replaced and the first socket is not closed.
- The close handler does not clear `isRecording`.
- There are only the flags: no `Failed` or `Closing` session state.

## Model

| member | source | states |
|---|---|---|
| Chat.AddMessage | static/script.js:177-183 | one message more, earlier messages unchanged, the new last message is (sender, text) and is now that sender's most recent one |
| Chat.AppendToLastMessage | static/script.js:185-194 | every existing message keeps its sender; the length grows by one exactly when the sender had no message; afterwards the sender has a message |
| Chat.MessagesOf | static/script.js:186 | every position in the query result holds a message of the sender, and the positions strictly increase (document order) |
| Chat.MessagesOfComplete | static/script.js:186 | every message of the sender is in the query result |
| Chat.LastOf | static/script.js:186-188 | the result is a message of the sender with no later message of that sender; it is absent exactly when the sender has no message |
| Chat.LastOfUnique | static/script.js:186-188 | any message of the sender with no later one of the same sender is the one picked |
| Chat.LastSelectedIsLastOf | static/script.js:186-188 | the query is non-empty exactly when the sender has a most recent message, and its last element is that message |
| Chat.AppendExtendsLatest | static/script.js:187-189 | with an existing message of the sender: the length is kept, that sender's most recent message gets the text appended, every other message is unchanged |
| Chat.AppendStartsMessage | static/script.js:190-191 | with no message of the sender: exactly one new message (sender, text) is added at the end |
| Chat.AppendExtendsTranscript | static/script.js:185-192 | in every case the sender's concatenated transcript grows by exactly the text, and every other sender's transcript is unchanged |
| Chat.AppendsCompose | static/script.js:185-192 | two appends for one sender equal one append of the concatenated text |
| Chat.AppendSkipsOtherSenders | static/script.js:186-189 | a message of another sender added after the sender's latest one does not redirect the next append |
| Events.Parse | static/script.js:145-163 | the variant keeps the message's type string, and is `Unrecognized` exactly when the type matches none of the five labels |
| Events.ParseUnparse | static/script.js:145-163 | every event the dispatch can produce survives serialising and dispatching again |
| Session.Init | static/script.js:3-9 | the constructor's state satisfies the invariant: nothing connected, recording, created or logged, empty history |
| Session.Step | static/script.js:27-65 | the handler wiring: the effect log only grows; only a server message changes the history; only a granted setup turns recording on; only a socket open marks the session connected |
| Session.CleanupAudio | static/script.js:204-209 | afterwards there is no audio context; with none before, nothing changes; only the context flag and one close call are affected |
| Session.Connect | static/script.js:36-71 | a created socket becomes the current one, with a fresh id and one open call; if construction throws, only the status changes; flags and history are untouched |
| Session.Disconnect | static/script.js:196-202 | recording off, no audio context, a close call for the current socket; `isConnected`, the socket and the history are unchanged |
| Session.OnClick | static/script.js:27-33 | when not connected: only an open request is made (if the socket is created) and the recording and audio flags are kept; when connected: recording off, no audio context, still marked connected, and the current socket is asked to close |
| Session.OnSocketOpen | static/script.js:44-49 | connected becomes true and one audio setup is started; recording, the audio context, the socket and the history are unchanged |
| Session.OnSocketClose | static/script.js:55-60 | connected becomes false and the audio context is cleared; recording and the history are as they were |
| Session.OnSocketError | static/script.js:62-65 | only the status changes |
| Session.OnAudioSetup | static/script.js:73-118 | recording is on afterwards iff the setup was granted or recording was already on; an audio context exists unless the microphone was refused before it was made |
| Session.OnAudioProcess | static/script.js:90-104 | without recording nothing changes; with recording and a socket exactly one `audio_data` send on the current socket is logged; nothing but the log changes |
| Session.PlayAudioFragment | static/script.js:165-175 | a playback of the fragment is started at once iff there is an audio context; nothing else changes |
| Session.HandleRealtimeEvent | static/script.js:145-163 | no server event touches a flag, the socket or the audio context |
| SessionProperties.StepPreservesValid | static/script.js:42-112 | every callback keeps the invariant: the socket field holds the newest socket, and no flag is set before a socket exists |
| SessionProperties.RunValid | static/script.js:3-19 | every state reachable from the constructor satisfies the invariant |
| SessionProperties.NoRecordingWithoutGrant | static/script.js:112 | recording that is off stays off over any callbacks without a granted setup |
| SessionProperties.RecordingOnlyAfterGrant | static/script.js:112-116 | whenever recording is on, a granted audio setup happened before |
| SessionProperties.DisconnectStopsRecording | static/script.js:28-31 | after a click that disconnects, recording stays off until a later granted setup |
| SessionProperties.FrameSentIffRecording | static/script.js:90-103 | on a reachable state a frame makes exactly one `send` call of an `audio_data` message, on the current socket, iff recording is on (whether the socket accepts it is not modelled) |
| SessionProperties.CleanupIdempotent | static/script.js:204-209 | a second cleanup is a no-op |
| SessionProperties.DisconnectTwice | static/script.js:196-202 | a second disconnect changes no flag and only asks the socket to close again |
| SessionProperties.CloseKeepsRecording | static/script.js:55-60 | a close leaves recording on when it was on |
| SessionProperties.DisconnectedDuringSetup | static/script.js:27-60 | click, open, click, close leaves the page disconnected and not recording, with one audio setup still pending and socket 0 opened then asked to close |
| SessionProperties.StaleSetupAfterDisconnect | static/script.js:73-112 | the concrete sequence click, open, click, close, grant ends disconnected but recording, with a live audio context, and the next frame is sent on the closed socket |
| SessionProperties.UnrecognizedEventIgnored | static/script.js:145-163 | a message whose type matches no label changes nothing |
| SessionProperties.TranscriptionAddsUserMessage | static/script.js:147-148 | the history grows by one, the new last message is (user, transcript), earlier messages are unchanged |
| SessionProperties.TextDeltaExtendsLatestAi | static/script.js:150-151 | with an AI message present: same length, only the latest AI message changes, to its old text followed by the delta |
| SessionProperties.TextDeltaStartsAiMessage | static/script.js:150-151 | with no AI message: exactly one (ai, delta) message is appended |
| SessionProperties.TextDeltaGrowsAiTranscript | static/script.js:150-151 | the AI transcript grows by the delta; the user and error transcripts are unchanged |
| SessionProperties.TextDeltasConcatenate | static/script.js:150-151 | two deltas in a row equal one delta of their concatenation |
| SessionProperties.TranscriptDoesNotSplitAnswer | static/script.js:147-151 | a user transcript arriving mid-answer and the following delta commute: the delta goes to the AI message above it |
| SessionProperties.ErrorEventAddsErrorMessage | static/script.js:159-160 | an error event appends (error, "Error: " + message) |
| SessionProperties.AudioAndDoneKeepHistory | static/script.js:153-158 | audio fragments and response end leave the history unchanged; the end only sets the status; a fragment starts playing iff an audio context exists |
| Assistant.RealtimeVoiceAssistant.constructor | static/script.js:3-19 | the fields start as the initial state: nothing connected, recording or created |
| Assistant.RealtimeVoiceAssistant.OnStartClick | static/script.js:27-33 | the new fields are those of `Session.OnClick` |
| Assistant.RealtimeVoiceAssistant.Connect | static/script.js:36-71 | the new fields are those of `Session.Connect` |
| Assistant.RealtimeVoiceAssistant.OnSocketOpen | static/script.js:44-49 | the new fields are those of `Session.OnSocketOpen` |
| Assistant.RealtimeVoiceAssistant.FinishSetupAudio | static/script.js:83-117 | the new fields are those of `Session.OnAudioSetup` |
| Assistant.RealtimeVoiceAssistant.OnSocketClose | static/script.js:55-60 | the new fields are those of `Session.OnSocketClose` |
| Assistant.RealtimeVoiceAssistant.OnSocketError | static/script.js:62-65 | the new fields are those of `Session.OnSocketError` |
| Assistant.RealtimeVoiceAssistant.OnAudioProcess | static/script.js:90-104 | the new fields are those of `Session.OnAudioProcess` |
| Assistant.RealtimeVoiceAssistant.OnSocketMessage | static/script.js:51-53 | the message is dispatched by type and handled as `Session.HandleRealtimeEvent` says |
| Assistant.RealtimeVoiceAssistant.HandleRealtimeEvent | static/script.js:145-163 | the new fields are those of `Session.HandleRealtimeEvent` |
| Assistant.RealtimeVoiceAssistant.PlayAudio | static/script.js:165-175 | the new fields are those of `Session.PlayAudioFragment` |
| Assistant.RealtimeVoiceAssistant.AddMessage | static/script.js:177-183 | only the history changes, by appending (sender, text) |
| Assistant.RealtimeVoiceAssistant.AppendToLastMessage | static/script.js:185-194 | only the history changes, to `Chat.AppendToLastMessage` of the old one, found through the document-order query |
| Assistant.RealtimeVoiceAssistant.Disconnect | static/script.js:196-202 | the new fields are those of `Session.Disconnect` |
| Assistant.RealtimeVoiceAssistant.CleanupAudio | static/script.js:204-209 | the new fields are those of `Session.CleanupAudio` |

## Left out

- The backend (`app.py`): it serves the page and forwards audio and text to hosted speech, chat and synthesis services. These are foreign calls with no logic of their own. The `/ws` endpoint the page connects to is not part of this model.
- Browser plumbing: `WebSocket` construction, `getUserMedia`, `AudioContext`, the script processor and the analyser are opaque. Their callbacks are the inputs of `Session.Step`, and their `async`/`await` interleavings are reduced to the ordering of those inputs.
- Socket `readyState`: a `send` call is logged whatever state the current socket is in. The browser drops a send on a closing or closed socket, and throws on one that is still connecting (reachable: click, open, close, click, then a late grant and a frame). The model does not say whether a logged `SendAudio` reaches the network or throws.
- Which socket fires a callback: every socket the page created runs the same handlers on the same object, so the inputs carry no socket id.
- Float to 16-bit PCM conversion (`static/script.js:93-97`), a float multiply followed by a truncating, wrapping store with no clamp, and its base64 encoding. A frame is given to `OnAudioProcess` already encoded.
- `base64ToBlob`, `decodeAudioData` and their decoding failures: a fragment is started as soon as `playAudio` runs. The model checks the audio context at the event, not after `playAudio`'s internal await.
- JSON parsing of inbound messages and messages that lack a field (`event.error` missing, an undefined transcript): messages arrive already parsed into `Events.WireEvent`.
- `audioQueue` and `isPlaying` are declared but never used by the code, so they are not modelled.
- UI rendering: `visualizeAudio`, `setupCanvas`, scrolling and the start button's label. The status line is kept only as an enumeration of its texts.
- `Session.OnAudioSetup`: does not model the old audio context being replaced without being closed when a second setup succeeds. The model keeps only whether some context exists, and logs every creation.
