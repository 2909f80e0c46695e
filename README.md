# Live voice playback scheduler and chat request rules, in Dafny

This project models the stateful core of a small voice-and-chat front end for a hosted
generative-AI service.

- **The live voice session** (`components/LiveVoiceInterface.tsx`) receives audio chunks
  streamed by a remote live session and plays them back with no gap and no overlap. It
  keeps a playback cursor (`nextStartTime`), a set of active buffer sources, the
  `isSpeaking` / `isConnected` / `error` flags and a 40-byte visualiser buffer.
  `VoiceSession` in `live_voice.dfy` models it as a class: one method per handler
  (`onopen`, `onclose`, `onerror`, `setupAudioInput`, the capture callback, the three
  branches of `handleMessage`, `stopAudio`, `disconnect`). Every handler is one atomic
  step that takes the output context's clock reading as a parameter. Each buffer source
  is a `PlaybackHandle` object.
- **The scheduling rule** is in `playback.dfy`: a chunk starts at
  `max(cursor, clock)`, and the cursor then moves to the chunk's end. The module also
  defines the timeline a run of chunks produces (`Starts`, `CursorAfter`) and proves the
  rule's guarantees about it: no chunk starts in the past, chunks never overlap,
  promptly arriving chunks play back to back, and the cursor equals the prefix sums of
  the durations. The class keeps a ghost `epoch`, the chunks scheduled since the last
  interruption. Its invariant `Valid` ties the cursor to `CursorAfter(0, epoch)`. It also
  says that active handles end by the cursor and never overlap, and that the model is
  speaking only while some handle is active.
- **The chat panel** (`components/ChatInterface.tsx`) is modelled in `chat_interface.dfy`
  as the class `ChatPanel`. It covers the send guard (a blank input after `trim`, or a
  request in flight), the model choice, the history sent, and the appends of the user
  message and of the reply or error message. It also covers the grounding-source filter,
  the `playTTS` guard and playing flag, and the loop that copies the decoded speech
  string into a `Uint8Array`. `handleSend` is split at its `await`: `BeginSend` runs up to
  the remote call and `FinishSend` runs once the reply settles.
- **The request configuration** (`services/geminiService.ts`) is in
  `gemini_service.dfy`. It is pure. The search tool is in the tools list exactly when
  search is requested, and an empty list is passed as `undefined`. The thinking budget
  of 32768 is set exactly when thinking is requested and the model name contains
  "gemini-3". The history is copied entry for entry. `ChatRequestFollowsToggles` shows
  that both model names the panel can pick contain "gemini-3", so thinking follows the
  toggle exactly.

Time is exact `real` seconds of the audio clock (`Seconds`, never negative). The base64
and PCM decoders are represented by what they return: the raw bytes of a chunk and the
duration of its decoded buffer (`AudioChunk`). The remote services' replies are
parameters (`Reply`, `SpeechReply`, `MicAccess`).

The model follows the code, including where it departs from what a gapless scheduler
with clean teardown would be expected to do:

- **Interruption resets the cursor to 0, not to the current clock.** Because the clock
  is never negative, `max(0, clock) = clock`, so the next chunk still starts at the
  then-current clock (`BargeInScenario`). Within one atomic handler, the reset has no
  visible effect. It does have one when a chunk's decoding spans an interruption (see
  the `await` line under "Left out").
- **Teardown does not clear the active handles or the cursor.** `stopAudio` marks the
  component silent and disconnected and leaves the set alone. A torn-down session can
  therefore show "not speaking" while handles remain in the set
  (`TeardownKeepsHandlesScenario`). The invariant kept is only "speaking implies some
  handle is active", not an equivalence.
- **The cursor survives a reconnect.** A new output context's clock starts again at 0,
  so the first chunk of a new session waits until the new clock reaches the old
  cursor. The silence lasts for the old cursor's value. That value is the old clock's
  reading when the last chunk scheduled since the last interruption ends. If no chunk
  was scheduled after the last interruption, there is no silence
  (`ReconnectScenario`).
- **Teardown is not idempotent.** Each `disconnect` stops the tracks again, closes both
  contexts again and asks the session to close again (`DisconnectTwiceScenario`).
- **The visualiser is not always 40 bytes.** It shows the first `min(40, n)` bytes of a
  chunk, so a chunk shorter than 40 bytes leaves a shorter buffer. `Valid` keeps only
  `|visualizer| <= 40`.
- **A failed send leaves a "system" message in later histories.** Its role name
  "system" is sent with the next request (`FailedReplyScenario`).

## Model

| member | source | states |
|---|---|---|
| Playback.StartAt | components/LiveVoiceInterface.tsx:124 | the start is at or after both the cursor and the clock, and equals one of them (it is their maximum) |
| Playback.Advance | components/LiveVoiceInterface.tsx:124-138 | the cursor after a chunk is the larger of cursor + duration and clock + duration, i.e. the chunk's start plus its duration |
| Playback.Starts | components/LiveVoiceInterface.tsx:124-138 | one start time per scheduled chunk |
| Playback.ScheduleOneMore | components/LiveVoiceInterface.tsx:124-139 | scheduling one more chunk appends exactly its start, max(cursor so far, clock), and moves the cursor to that start plus its duration |
| Playback.CursorNeverDecreases | components/LiveVoiceInterface.tsx:124-138 | without an interruption the cursor never moves backwards |
| Playback.EndsBeforeCursor | components/LiveVoiceInterface.tsx:137-138 | every scheduled chunk ends no later than the final cursor |
| Playback.NeverInThePast | components/LiveVoiceInterface.tsx:124-137 | every chunk starts at or after the clock reading taken when it was handled, and at or after the starting cursor |
| Playback.NoOverlap | components/LiveVoiceInterface.tsx:124-138 | for any earlier chunk i and later chunk j, chunk j starts no earlier than chunk i ends |
| Playback.BackToBack | components/LiveVoiceInterface.tsx:124-138 | a chunk handled before its predecessor ends starts exactly at the predecessor's end (no gap) |
| Playback.PromptChunksPlayBackToBack | components/LiveVoiceInterface.tsx:124-138 | when every chunk arrives in time, chunk i starts at the cursor plus the durations before it, and the final cursor is the cursor plus the total duration |
| LiveVoice.SilentVisualizer | components/LiveVoiceInterface.tsx:25 | the initial visualiser holds 40 bytes, all 128 |
| LiveVoice.VisualizerSlice | components/LiveVoiceInterface.tsx:121 | the visualiser shows a prefix of the bytes, of length min(40, n) |
| LiveVoice.ConnectErrorText | components/LiveVoiceInterface.tsx:71-74 | a failed connect shows the error's message when it has one, otherwise "Failed to connect" |
| LiveVoice.PlaybackHandle.Stop | components/LiveVoiceInterface.tsx:144 | stopping a buffer source marks it stopped |
| LiveVoice.VoiceSession.constructor | components/LiveVoiceInterface.tsx:11-25 | the component starts disconnected, silent, with no error, the cursor at 0, no active handle and a silent visualiser |
| LiveVoice.VoiceSession.Connect | components/LiveVoiceInterface.tsx:27-74 | clears the error and creates both audio contexts; with the microphone it stores the stream and opens the session; on a denial it shows the error text and keeps the old references; it does not mark the component connected nor touch the scheduler |
| LiveVoice.VoiceSession.SetupAudioInput | components/LiveVoiceInterface.tsx:77-101 | wires one capture tap when the input context, the stream and the session are all present, and otherwise changes nothing |
| LiveVoice.VoiceSession.OnOpen | components/LiveVoiceInterface.tsx:51-55 | marks the component connected, then sets up the input under the same three-way guard |
| LiveVoice.VoiceSession.OnAudioProcess | components/LiveVoiceInterface.tsx:83-97 | a sampled frame replaces the visualiser with its leading bytes; the frame is sent when a session is present; nothing else changes |
| LiveVoice.VoiceSession.ScheduleChunk | components/LiveVoiceInterface.tsx:115-140 | adds exactly one fresh, unstopped handle starting at max(cursor, clock); the cursor becomes its end; speaking is set; the visualiser becomes the chunk's first min(40, n) bytes; the invariant (active handles disjoint and ending by the cursor) is kept |
| LiveVoice.VoiceSession.OnEnded | components/LiveVoiceInterface.tsx:132-135 | removes only that handle (nothing if it is already gone); speaking is cleared exactly when the set becomes empty, otherwise unchanged |
| LiveVoice.VoiceSession.Interrupt | components/LiveVoiceInterface.tsx:143-148 | stops every active handle, empties the set, resets the cursor to 0 and clears speaking |
| LiveVoice.VoiceSession.HandleMessage | components/LiveVoiceInterface.tsx:103-149 | audio is scheduled (when an output context exists) before the interruption flag is handled; a message with both ends with an empty set, the new handle stopped and speaking false; a message with neither leaves the scheduler and visualiser unchanged |
| LiveVoice.VoiceSession.StopAudio | components/LiveVoiceInterface.tsx:151-160 | marks the component disconnected and silent, releases the stream and contexts that are present, and leaves the cursor and the active set untouched |
| LiveVoice.VoiceSession.Disconnect | components/LiveVoiceInterface.tsx:162-167 | asks the session to close when there is one, then tears down as StopAudio does |
| LiveVoice.VoiceSession.OnClose | components/LiveVoiceInterface.tsx:57-61 | marks the component disconnected and tears down; the cursor and active set are untouched |
| LiveVoice.VoiceSession.OnError | components/LiveVoiceInterface.tsx:62-67 | shows "Connection Error", marks the component disconnected and tears down; the cursor and active set are untouched |
| LiveVoice.BackToBackScenario | components/LiveVoiceInterface.tsx:115-140 | chunks of 0.5 s, 0.3 s and 0.2 s arriving while the previous one sounds start at t0, t0+0.5 and t0+0.8, and the cursor ends at t0+1.0 |
| LiveVoice.BargeInScenario | components/LiveVoiceInterface.tsx:115-148 | an interruption during the second chunk stops every handle, leaves none active and the model silent, and the next chunk starts at the then-current clock |
| LiveVoice.TeardownKeepsHandlesScenario | components/LiveVoiceInterface.tsx:151-167 | after a disconnect mid-chunk the component is not speaking, yet the handle is still in the set and the cursor is unchanged |
| LiveVoice.DisconnectTwiceScenario | components/LiveVoiceInterface.tsx:151-167 | two disconnects release the tracks twice, the two contexts twice each and the session twice; the component ends disconnected |
| LiveVoice.DeniedMicrophoneScenario | components/LiveVoiceInterface.tsx:71-74 | a denied microphone shows the denial's message and leaves the component disconnected |
| LiveVoice.ReconnectScenario | components/LiveVoiceInterface.tsx:21-33 | the cursor survives teardown and reconnect, so a new session's first chunk, handled at the new clock's 0, starts at the old cursor's value (10 s after a 10 s chunk) |
| GeminiService.IncludesIffOccurs | services/geminiService.ts:28 | the `includes` check on the model name succeeds exactly when the fragment occurs at some position |
| GeminiService.ToolsFor | services/geminiService.ts:21-24 | the tools list holds the search tool exactly when search is requested, and nothing else |
| GeminiService.PassedTools | services/geminiService.ts:41 | the tools are passed as undefined exactly when the list is empty, otherwise unchanged |
| GeminiService.ThinkingFor | services/geminiService.ts:27-30 | a thinking configuration is present exactly when thinking is requested and the model name contains "gemini-3", and its budget is 32768 |
| GeminiService.CopyHistory | services/geminiService.ts:44-47 | the history passed on equals the history given: same length, order, roles and parts |
| GeminiService.BuildChatConfig | services/geminiService.ts:18-48 | the chat configuration keeps the model, instruction and history, carries the search tool iff search is on, and carries the 32768 budget iff thinking is on and the model is a "gemini-3" one |
| GeminiService.GenerateChatRequest | services/geminiService.ts:13-50 | the request sends the prompt unchanged, with the given model and history, the search tool iff search is requested, and the 32768 thinking budget iff thinking is requested and the model name contains "gemini-3" |
| ChatInterface.RoleName | types.ts:9 | each role has its own distinct name: "user", "model" or "system" |
| ChatInterface.TrimStart | components/ChatInterface.tsx:33 | removes leading white space and nothing else: the result is a suffix of the input, every removed character is trimmable, and the result does not start with a trimmable character |
| ChatInterface.TrimEnd | components/ChatInterface.tsx:33 | removes trailing white space and nothing else: the result is a prefix of the input, every removed character is trimmable, and the result does not end with a trimmable character |
| ChatInterface.TrimEmptyIffBlank | components/ChatInterface.tsx:33 | `Trim` (`input.trim()`, TrimEnd after TrimStart) yields the empty string exactly when every character of the input is white space or a line terminator |
| ChatInterface.MaySend | components/ChatInterface.tsx:33 | a send goes ahead exactly when the input is not blank and no request is in flight |
| ChatInterface.SelectModel | components/ChatInterface.tsx:57-60 | the model is gemini-3-flash-preview exactly when search is on and thinking is off, and gemini-3-pro-preview otherwise |
| ChatInterface.HistoryOf | components/ChatInterface.tsx:47-50 | the history has one entry per message, in order, with the message's role name and its content as the single text part |
| ChatInterface.OptionsFor | components/ChatInterface.tsx:62-67 | the options name the flash model exactly when search is on and thinking is off (pro otherwise), carry the fixed instruction, enable thinking exactly when the thinking toggle is on and pass the search tool exactly when the search toggle is on |
| ChatInterface.ChatRequestFollowsToggles | components/ChatInterface.tsx:57-67 | for either model the panel picks, the request asks for thinking with budget 32768 exactly when the thinking toggle is on, and offers search exactly when the search toggle is on |
| ChatInterface.SourcesOf | components/ChatInterface.tsx:72-75 | the sources are no more than the chunks, every source has a non-empty uri, and every chunk with a truthy uri contributes its source |
| ChatInterface.SourcesOfAppend | components/ChatInterface.tsx:72-75 | the filter distributes over concatenation, so kept sources stay in their chunks' order |
| ChatInterface.SourcesOfSingle | components/ChatInterface.tsx:72-75 | one chunk contributes its source exactly when its uri is truthy |
| ChatInterface.ReplyMessage | components/ChatInterface.tsx:77-96 | a successful reply becomes a model message with the reply text, the filtered sources (absent when there are no grounding chunks) and isThinking equal to the toggle; a failure becomes the fixed system error message |
| ChatInterface.ToUint8 | components/ChatInterface.tsx:116 | a character code below 256 is stored unchanged |
| ChatInterface.CopyCharCodes | components/ChatInterface.tsx:112-117 | the byte array has the string's length, and byte i is the character code at i (exactly so when all codes are below 256, as they are after `atob`) |
| ChatInterface.ChatPanel.constructor | components/ChatInterface.tsx:8-20 | the panel starts with the greeting as its only message, an empty input, and every flag off |
| ChatInterface.ChatPanel.SetInput | components/ChatInterface.tsx:229 | typing replaces the input and changes nothing else |
| ChatInterface.ChatPanel.ToggleSearch | components/ChatInterface.tsx:144 | flips the search toggle only |
| ChatInterface.ChatPanel.ToggleThinking | components/ChatInterface.tsx:151 | flips the thinking toggle only |
| ChatInterface.ChatPanel.BeginSend | components/ChatInterface.tsx:32-67 | a no-op exactly when the input is blank or a request is in flight; otherwise it appends exactly one user message with the untrimmed input, keeps earlier messages, clears the input, sets loading, and sends the history of the messages before the append with the selected model |
| ChatInterface.ChatPanel.FinishSend | components/ChatInterface.tsx:69-99 | appends exactly one message, the reply (isThinking equal to the toggle at send time) or the fixed error message, and always clears loading |
| ChatInterface.ChatPanel.PlayTts | components/ChatInterface.tsx:102-134 | a no-op while audio plays; otherwise the playing flag stays set exactly when there is an audio payload, whose decoded string is copied byte for byte, and is cleared when there is no payload or an error |
| ChatInterface.ChatPanel.TtsEnded | components/ChatInterface.tsx:123-126 | the end of speech playback clears the playing flag |
| ChatInterface.FailedReplyScenario | components/ChatInterface.tsx:32-99 | blank sends and sends while a request is in flight do nothing, and a failed send's error message is sent, with role "system", in the next request's history |

## Left out

- The base64 decoder, the PCM encoder and the PCM decoder (`decodeBase64`,
  `createPcmBlob`, `decodeAudioData`) are not part of this model. A chunk is given by its
  raw bytes and its decoded duration. No claim is made about PCM round trips or clamping.
- A decoding failure inside `handleMessage` is not modelled. In the code it would leave
  `isSpeaking` set with no handle added, which breaks "speaking implies some handle is
  active".
- The `await` between reading the clock and starting the chunk is not modelled, nor are
  messages interleaving at that `await`. Each handler is one atomic step, so a start that
  slips past its scheduled time while decoding is not captured.
- An interruption handled while a chunk is still decoding is not captured. In the code
  the cursor is reread after the `await`, so that chunk is started at time 0 (at once).
  The interruption does not stop it, because the chunk joins the set only afterwards.
  The cursor is left at the chunk's duration, well in the past. The next chunk then
  starts at the current clock and overlaps the one still playing. A reset to the current
  clock would have scheduled the late chunk at that clock and moved the cursor to its
  end, with no overlap.
- Promise plumbing (`sessionPromise.then(...)` for sends and closes) is not modelled;
  sends and close requests are counted when they are issued.
- `connect` is modelled with the microphone request as its only failure.
  `ai.live.connect` is taken not to throw synchronously.
- The float-to-byte mapping of microphone samples (`inputData[i] * 127 + 128`) is not
  modelled: the capture callback receives the mapped bytes. The `Math.random()`
  decimation becomes a boolean parameter.
- The audio devices, the contexts and `AudioBufferSourceNode` playback are not modelled.
  Contexts and the stream are presence flags. Closing a context does not clear its
  reference (as in the code), and its effect on playing sources is not modelled.
- The clock is one parameter per handler. A new output context restarting its clock
  at 0 shows only through the values passed in.
- Transcription display and the model-turn text branch are not modelled: both change
  nothing in the code.
- Message ids and timestamps (`Date.now()`), rendering, scrolling, the dashboard,
  `App.tsx` mode switching and `ArcReactor.tsx` drawing are left out as presentation.
- The remote calls (`chat.sendMessage`, `generateSpeech`, `generateFastResponse`,
  `getUserMedia`, `atob`) are outside the model. Their results are parameters.
- `generateFastResponse` is not modelled: it forwards a prompt with fixed settings and
  has no logic.
- JavaScript strings are UTF-16 code units; here they are Dafny strings of Unicode
  scalar values. `trim` is modelled by the characters it removes, as listed in the
  ECMAScript definitions of white space and line terminators.
