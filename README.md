# Voice-session controller

A Dafny model of the real-time voice conversation controller inside the
`Conversation` component (`src/components/Conversation.tsx`). The controller
runs one duplex channel to a conversational agent and does four things:

- it sends the user's microphone audio on the channel as base64 16-bit PCM;
- it dispatches the agent's inbound messages: metadata, transcripts, agent
  text, pings, audio chunks and interruptions;
- it plays the agent's audio chunks through a FIFO queue drained by a single
  loop, one buffer at a time;
- it drives the four-state turn machine (`ready`, `listening`, `processing`,
  `speaking`) with the recording controls, a resettable silence window and a
  resume after playback.

The project has five modules:

- `Pcm` (`pcm.dfy`) covers the sample framing:
  - capture quantisation, with ECMAScript `ToInt16` written out;
  - the little-endian `Int16Array`/`Uint8Array` views;
  - the binary strings that `String.fromCharCode` builds and `charCodeAt`
    reads;
  - the decoding of one inbound chunk. It carries the copy and quantisation
    loops as methods over arrays.
- `Protocol` (`protocol.dfy`) covers the message vocabulary:
  - the fields of an inbound message that the dispatcher reads, and
    JavaScript truthiness;
  - the classification done by the `switch`, and the outbound messages;
  - `String.prototype.trim` over the ECMAScript white-space set.
- `Turn` (`turn.dfy`) is the controller as a pure state machine:
  - a `Session` record holds every piece of React state and every ref the
    controller touches, with a log of sent messages and a log of started
    buffers;
  - there is one transition function per event, and `Run` applies a sequence
    of events;
  - the invariant `Inv` is preserved by every event, and `Reachable` states
    what holds in every session reachable from the initial one.
- `TurnProperties` (`turn_properties.dfy`) states the controller's promises
  as lemmas over these functions: dispatch, the silence timer, the drain
  loop, the recording controls, outbound traffic and whole-turn scenarios.
- `Controller` (`controller.dfy`) is the in-place form:
  - class `Conversation` has fields for the chat, the microphone, the sound
    output, the drain loop's refs and the pending timers;
  - it has one method per handler, and the drain loop is a `while` loop;
  - every method is proved to perform exactly the `Turn` transition of the
    same name, and every public handler keeps `Valid()`.

Asynchrony is made explicit:

- A `setTimeout` callback is a pending `Timer` in a multiset, fired as its
  own event (`FireTimer`). The pending timers are the settle delay, the
  silence window, the silence re-check and the resume delay.
- The `onended` of the buffer being played is the `BufferEnded` event. It
  resumes the drain loop where its `await` suspended it.
- The microphone permission prompt settles with a `MicOutcome` given to the
  event that starts recording.
- The browser's base64 pair (`btoa`, `atob`) is a `Base64` parameter. `atob`
  may fail, which is modelled as `None`.

Where the code and its design description differ, the model follows the code:

- **Processing does not last.** `user_transcript` writes `processing` (line
  374), and then `pauseRecording` writes `ready` (line 211) in the same
  handler. Between events the state is therefore never Processing, and
  `Turn.Reachable` proves it.
- **Muted audio is skipped, when the mute flag is read as it currently
  stands.** `playAudioBuffer` returns without starting a buffer while
  `isMuted` is set (lines 89-91), and the drain loop then dequeues and drops
  that buffer. The model reads `isMuted` at its current value (see
  "## Left out" on stale closures). The `playAudioBuffer` that the channel's
  handlers reach is the one from the first render, whose `isMuted` is
  `false`, so in the browser a muted buffer is still started. It plays
  through the current gain: 0 when mute was set after the gain node existed
  (line 108), but 1 when mute was set before initAudio created the node
  (lines 107 and 51), in which case it plays audibly.
  - Under the current-value reading, if the loop was idle, the session is
    muted and the microphone is paused, the loop ends straight away. It then
    writes `ready` and schedules the resume, even for an audio message
    (`TurnProperties.AudioTakesTheFloor`).
- **The capture callback checks the channel and the live recording flag,
  not the turn state** (lines 158-165). The microphone is also not paused
  while the agent speaks.
- **Only the 2 s window is cleared and re-armed** (lines 419-424). The 1 s
  re-checks it schedules are never cleared. So at most one silence window is
  pending, but several re-checks can be.

The audio case of `ws.onmessage` calls `handleAudioChunk` without awaiting it.
The model runs the handler's own writes (agent speaking, `speaking`, the
silence window) before the drain loop:

- An audible first buffer is started before those writes in the browser, but
  it touches none of the fields they write.
- A muted first buffer makes the loop continue in a microtask, which runs
  after the handler returns.

The order of the model is therefore the browser's order.

## Model

| member | source | states |
|---|---|---|
| Pcm.Truncate | src/components/Conversation.tsx:173 | truncation toward zero: the result has the sign of the input and lies within 1 of it, on the side of zero |
| Pcm.ToInt16 | src/components/Conversation.tsx:173 | the Int16Array store: the result is congruent to the truncated value modulo 2^16, and equals it when it fits in 16 bits |
| Pcm.Clamp | src/components/Conversation.tsx:172 | the result lies in [-1, 1]; inputs beyond either end saturate to it, and inputs inside are kept |
| Pcm.Quantize | src/components/Conversation.tsx:172-173 | a sample at or below -1 becomes -32768, and one at or above 1 becomes 32767 |
| Pcm.QuantizeNoWrap | src/components/Conversation.tsx:172-173 | the scaled value always fits in 16 bits, so the Int16Array store only truncates toward zero and never wraps |
| Pcm.QuantizeMonotonic | src/components/Conversation.tsx:172-173 | quantisation preserves order |
| Pcm.QuantizeAll | src/components/Conversation.tsx:170-174 | one Int16 sample per input sample |
| Pcm.QuantizeFrame | src/components/Conversation.tsx:170-174 | the for loop fills a fresh Int16 array whose element i is the quantised input i |
| Pcm.FromLittleEndian | src/components/Conversation.tsx:298 | two bytes read little-endian give a sample that is negative exactly when the high byte's top bit is set, and whose low and high bytes are the ones read |
| Pcm.SampleRoundTrip | src/components/Conversation.tsx:177 | reading back the two bytes of any Int16 sample gives that sample |
| Pcm.SamplesToBytes | src/components/Conversation.tsx:177 | the Uint8Array view has two bytes per sample, the low byte of sample i at 2i and its high byte at 2i+1 |
| Pcm.BytesToSamples | src/components/Conversation.tsx:298 | the Int16Array view exists exactly when the byte count is even (otherwise a RangeError), with half as many samples |
| Pcm.FramingRoundTrip | src/components/Conversation.tsx:298 | the byte view of a sample buffer, viewed again as samples, is the buffer |
| Pcm.BytesRoundTrip | src/components/Conversation.tsx:177 | an even byte string viewed as samples and back as bytes is unchanged |
| Pcm.BinaryString | src/components/Conversation.tsx:177 | String.fromCharCode gives one char per byte; the result is a binary string (every char below 256) |
| Pcm.CharCodesOf | src/components/Conversation.tsx:291-294 | one byte per char; on a binary string each byte is the char code itself |
| Pcm.CharCodes | src/components/Conversation.tsx:291-294 | the copy loop stores char code i modulo 256 at byte i |
| Pcm.BinaryStringRoundTrip | src/components/Conversation.tsx:290-294 | the char codes of the binary string of some bytes are those bytes |
| Pcm.DecodeChunk | src/components/Conversation.tsx:288-308 | a chunk yields a buffer exactly when atob succeeds with a non-empty, even-length result, and then it has half as many samples; otherwise the frame is dropped (the catch, or createBuffer refusing length 0) |
| Pcm.DecodeChunkAt | src/components/Conversation.tsx:290-298 | sample i of a decoded chunk is the signed little-endian value of char codes 2i and 2i+1 |
| Pcm.WireRoundTrip | src/components/Conversation.tsx:167-177 | the binary string a non-empty captured frame is sent as decodes, on the receiving path, to the same samples |
| Protocol.Truthy | src/components/Conversation.tsx:358 | JavaScript truthiness as the `?.` guards test it: absent, null, false, 0 and the empty string are falsy, everything else truthy |
| Protocol.Classify | src/components/Conversation.tsx:356-453 | both directions: an unknown type is ignored; a known type whose guard holds (a truthy id, a non-empty text or audio payload) yields its own event with that payload, and each event comes only from its own type with its guard holding |
| Protocol.PingAnsweredIffTruthyId | src/components/Conversation.tsx:400-408 | a ping is answered if and only if its event id is truthy, and the answer carries that id |
| Protocol.LeadingSpace | src/components/Conversation.tsx:485 | the leading run is all white space and is followed by a non-space |
| Protocol.TrailingSpace | src/components/Conversation.tsx:485 | the trailing run is all white space and is preceded by a non-space |
| Protocol.Trim | src/components/Conversation.tsx:485 | neither end of the result is white space, and it is empty exactly when the text is all white space |
| Protocol.TrimRemovesOnlySpace | src/components/Conversation.tsx:485-492 | the text is the trimmed text with a white-space run on either side |
| Protocol.TrimIdempotent | src/components/Conversation.tsx:485-501 | trimming twice is trimming once |
| Turn.InitAudio | src/components/Conversation.tsx:48-54 | creates the playback context once with a unit gain (no contract of its own; StartWithoutStream and StepInv state its effect) |
| Turn.StartRecording | src/components/Conversation.tsx:113-204 | startRecording with the settled prompt outcome; its properties are StartWhileRecordingIsNoop, StartWithOpenStream, StartWithoutStream and StartRecordingInv |
| Turn.PauseRecording | src/components/Conversation.tsx:207-212 | pauseRecording; stated by PauseIdempotent |
| Turn.StopRecording | src/components/Conversation.tsx:215-236 | stopRecording; stated by StopIdempotent and OnlyStopReleases |
| Turn.ToggleRecording | src/components/Conversation.tsx:239-245 | toggleRecording; stated by ToggleRecordingBranches |
| Turn.ToggleMute | src/components/Conversation.tsx:105-110 | toggleMute; stated by MuteKeepsPlayback |
| Turn.FinishPlayback | src/components/Conversation.tsx:263-276 | the drain loop's epilogue; stated by LastEnded, MutedLoopSkipsAll and AudioTakesTheFloor |
| Turn.ResumeLoop | src/components/Conversation.tsx:256-277 | the drain loop from the top of an iteration to its next await; stated by LoopTakesFront, MutedLoopSkipsAll, PlaysQueueInOrder and ResumeLoopInv |
| Turn.Shift | src/components/Conversation.tsx:257 | queue.shift(), with the removed buffer recorded in the history; stated by ResumeLoopInv and LoopTakesFront |
| Turn.StartBuffer | src/components/Conversation.tsx:93-101 | playAudioBuffer past its guard; stated by LoopTakesFront and NextEnded |
| Turn.ProcessQueue | src/components/Conversation.tsx:248-254 | processAudioQueue; stated by ProcessQueueBusyOrEmpty and ProcessQueueInv |
| Turn.BufferEnded | src/components/Conversation.tsx:97-99 | the onended of the buffer in flight; stated by PlaysQueueInOrder, LastEnded, NextEnded and BufferEndedInv |
| Turn.EnqueueChunk | src/components/Conversation.tsx:315 | the push of a decoded chunk; stated by AudioTakesTheFloor |
| Turn.OnMetadata | src/components/Conversation.tsx:357-362 | the metadata case; stated by MetadataRecordsId |
| Turn.OnUserTranscript | src/components/Conversation.tsx:364-378 | the transcript case; stated by TranscriptPausesRecording |
| Turn.OnAgentResponse | src/components/Conversation.tsx:380-392 | the agent-response case; stated by AgentResponseLogged |
| Turn.OnTentativeResponse | src/components/Conversation.tsx:394-398 | the tentative-response case; stated by TentativeResponseSpeaks |
| Turn.OnPing | src/components/Conversation.tsx:400-408 | the ping case; stated by PingAnswered |
| Turn.OnAudio | src/components/Conversation.tsx:410-442 | the audio case with handleAudioChunk; stated by AudioTakesTheFloor, AudioDispatched and OnAudioInv |
| Turn.TakeFloor | src/components/Conversation.tsx:412-424 | the audio case's own writes, including the clearTimeout of the pending silence window at lines 419-421 and its re-arming; stated by AudioTakesTheFloor |
| Turn.OnInterruption | src/components/Conversation.tsx:444-449 | the interruption case; stated by InterruptionClearsQueue |
| Turn.Dispatch | src/components/Conversation.tsx:350-457 | ws.onmessage; stated by the dispatch lemmas of TurnProperties and DispatchInv |
| Turn.OnOpen | src/components/Conversation.tsx:328-348 | ws.onopen; stated by OpenSendsInitiation |
| Turn.OnClose | src/components/Conversation.tsx:459-467 | ws.onerror and ws.onclose mark the channel closed |
| Turn.Capture | src/components/Conversation.tsx:157-183 | the capture callback; stated by CaptureGuard and CapturedFrameDecodes |
| Turn.SetInputText | src/components/Conversation.tsx:17 | the text-box setter taken as an event |
| Turn.SendMessage | src/components/Conversation.tsx:484-507 | sendMessage; stated by SendTypedText |
| Turn.ClearTimer | src/components/Conversation.tsx:424-441 | the bookkeeping of a firing timer: its callback leaves the table of pending timers when it runs; stated by RemoveTimerInv |
| Turn.FireTimer | src/components/Conversation.tsx:424-441 | the four setTimeout callbacks (also lines 271-274 and 344-347); stated by SilenceWindowSchedulesRecheck, SilenceRecheckResumes, OpenThenListen and FireTimerInv |
| Turn.Step | src/components/Conversation.tsx:105-507 | one input, the enable-audio button included (line 531); the inputs include some the component never produces (see "## Left out"); stated by StepInv and OnlyStopReleases |
| Turn.Run | src/components/Conversation.tsx:105-507 | events one at a time in arrival order; stated by RunInv, Reachable and NoStopKeepsStream |
| Turn.InitialInv | src/components/Conversation.tsx:16-37 | the initial state and refs satisfy the session invariant |
| Turn.ResumeLoopInv | src/components/Conversation.tsx:255-277 | the drain loop, from any iteration, keeps the invariant and the FIFO history |
| Turn.ProcessQueueInv | src/components/Conversation.tsx:248-277 | processAudioQueue keeps the invariant |
| Turn.StartRecordingInv | src/components/Conversation.tsx:113-204 | startRecording keeps the invariant for either prompt outcome |
| Turn.OnAudioInv | src/components/Conversation.tsx:410-442 | the audio case (decode, push, timers, drain) keeps the invariant |
| Turn.DispatchInv | src/components/Conversation.tsx:350-457 | every inbound frame keeps the invariant |
| Turn.RemoveTimerInv | src/components/Conversation.tsx:433-436 | a timer leaving the table keeps the invariant, and so does writing ready while not recording |
| Turn.FireTimerInv | src/components/Conversation.tsx:424-441 | every timer callback (settle delay, silence window, re-check, resume delay) keeps the invariant |
| Turn.BufferEndedInv | src/components/Conversation.tsx:97-99 | the end of the buffer in flight keeps the invariant |
| Turn.StepInv | src/components/Conversation.tsx:350-457 | every enabled event keeps the invariant |
| Turn.RunInv | src/components/Conversation.tsx:113-507 | every event sequence keeps the invariant |
| Turn.Reachable | src/components/Conversation.tsx:113-507 | in every reachable session: the state is never processing between events; at most one silence window is pending; the live flag agrees with isRecording and implies an open stream; listening implies recording; the queue is non-empty only while the loop runs; removed buffers followed by the queue equal all pushed buffers |
| TurnProperties.PingAnswered | src/components/Conversation.tsx:400-408 | a ping with a truthy id adds exactly one pong with that id at the end of the outbox and changes nothing else; without one it changes nothing |
| TurnProperties.UnrecognisedIgnored | src/components/Conversation.tsx:451-456 | an unrecognised type or an unparseable frame leaves the whole session unchanged |
| TurnProperties.FailedGuardIgnored | src/components/Conversation.tsx:357-416 | a known type whose payload guard fails leaves the whole session unchanged |
| TurnProperties.AudioDispatched | src/components/Conversation.tsx:410-412 | an audio message with a payload is handled by the audio case on that payload |
| TurnProperties.MetadataRecordsId | src/components/Conversation.tsx:357-362 | the metadata message records the conversation id and changes nothing else |
| TurnProperties.InterruptionClearsQueue | src/components/Conversation.tsx:444-449 | interruption empties the queue and clears agent-speaking, and leaves the state, transcript, recording flags, timers, outbox and the buffer in flight alone |
| TurnProperties.TranscriptPausesRecording | src/components/Conversation.tsx:364-378 | a transcript appends exactly one user utterance at the end, clears both recording flags, leaves the state ready and keeps the stream |
| TurnProperties.AgentResponseLogged | src/components/Conversation.tsx:380-392 | agent text appends one agent utterance and clears agent-speaking, without changing the turn state |
| TurnProperties.TentativeResponseSpeaks | src/components/Conversation.tsx:394-398 | the tentative response gives the agent the floor (speaking) and leaves recording alone |
| TurnProperties.AudioTakesTheFloor | src/components/Conversation.tsx:410-442 | an audio message sets agent-speaking and leaves exactly one silence window. The state is speaking unless the loop was idle, muted and not recording (then ready plus the resume delay). A chunk that does not decode leaves the queue alone; a decoded one is pushed at the end, or started at once when the loop was idle and audible |
| TurnProperties.SilenceWindowSchedulesRecheck | src/components/Conversation.tsx:424-441 | the 2 s window only replaces itself with the 1 s re-check |
| TurnProperties.SilenceRecheckResumes | src/components/Conversation.tsx:433-439 | the re-check resumes listening exactly when not recording and not playing (or records the refusal); otherwise it changes nothing |
| TurnProperties.ProcessQueueBusyOrEmpty | src/components/Conversation.tsx:248-251 | processAudioQueue returns at once if already playing or the queue is empty |
| TurnProperties.LoopTakesFront | src/components/Conversation.tsx:256-261 | an audible iteration starts the buffer at the front of the queue, and only it |
| TurnProperties.MutedLoopSkipsAll | src/components/Conversation.tsx:256-276 | muted, the loop dequeues every buffer, starts none and runs its epilogue with the queue empty |
| TurnProperties.PlaysQueueInOrder | src/components/Conversation.tsx:256-264 | audible, after the buffer in flight and every queued buffer end, the queue was played one at a time in enqueue order and the loop has stopped with the queue empty |
| TurnProperties.LastEnded | src/components/Conversation.tsx:263-276 | the end of the last buffer stops the loop with nothing more played |
| TurnProperties.NextEnded | src/components/Conversation.tsx:256-261 | the end of an intermediate buffer starts the next one, in queue order |
| TurnProperties.MuteKeepsPlayback | src/components/Conversation.tsx:105-110 | toggling mute flips the flag and sets the gain to 0 or 1 when the node exists, and changes nothing else |
| TurnProperties.StartWhileRecordingIsNoop | src/components/Conversation.tsx:120-123 | startRecording while recording does nothing |
| TurnProperties.StartWithOpenStream | src/components/Conversation.tsx:125-132 | with an open stream, starting sets both flags and listening and keeps the permission |
| TurnProperties.StartWithoutStream | src/components/Conversation.tsx:135-204 | without a stream, a granted prompt opens it, sets both flags, listening and granted, and creates the playback context; a refusal leaves things not recording, ready and denied |
| TurnProperties.PauseIdempotent | src/components/Conversation.tsx:207-212 | pausing is idempotent, ends with both flags down and ready, and keeps the stream |
| TurnProperties.StopIdempotent | src/components/Conversation.tsx:215-236 | stopping is idempotent, ends with both flags down and ready, and releases the stream |
| TurnProperties.ResumeLoopKeepsStream | src/components/Conversation.tsx:248-277 | the drain loop never opens or closes the microphone stream |
| TurnProperties.OnlyStopReleases | src/components/Conversation.tsx:215-236 | every enabled event other than stop keeps an open stream open |
| TurnProperties.NoStopKeepsStream | src/components/Conversation.tsx:215-236 | along any event sequence without a stop, an open stream stays open |
| TurnProperties.ToggleRecordingBranches | src/components/Conversation.tsx:239-245 | toggling pauses while recording and starts otherwise |
| TurnProperties.OpenSendsInitiation | src/components/Conversation.tsx:328-348 | opening the channel sends exactly the English initiation message and schedules the settle delay |
| TurnProperties.CaptureGuard | src/components/Conversation.tsx:157-183 | a captured frame adds exactly one audio chunk when the channel is open and the live flag is set, and otherwise changes nothing |
| TurnProperties.CapturedFrameDecodes | src/components/Conversation.tsx:167-183 | when the base64 pair round-trips on binary strings (the only strings btoa accepts), the chunk sent for a non-empty frame decodes to the quantised samples |
| TurnProperties.SendTypedText | src/components/Conversation.tsx:484-507 | text that is not all white space, on an open channel, is sent trimmed and logged as a user utterance; the box is cleared and the agent marked speaking. Otherwise nothing changes |
| TurnProperties.OpenThenListen | src/components/Conversation.tsx:328-348 | from mount, opening the channel and the settle delay lead to listening with the stream open, playback ready and no timer pending |
| TurnProperties.TranscriptThenAudio | src/components/Conversation.tsx:364-442 | from listening: a transcript leaves the state ready and the microphone paused; an audio chunk is started at once under speaking; its end leaves the state ready with the silence window and the resume delay pending |
| TurnProperties.SilenceThenListen | src/components/Conversation.tsx:424-441 | once playback has stopped and the stream is open, the silence window and its re-check resume listening |
| TurnProperties.LittleEndianChunk | src/components/Conversation.tsx:298 | the binary string "AB" decodes to the single sample 0x4241 |
| Controller.DecodeAudio | src/components/Conversation.tsx:288-308 | the decoding path of handleAudioChunk gives exactly DecodeChunk of atob's result |
| Controller.EncodeFrame | src/components/Conversation.tsx:167-177 | the encoding path of the capture callback gives btoa of the binary string of the quantised frame's bytes |
| Controller.Conversation.constructor | src/components/Conversation.tsx:16-37 | the object starts in the initial session, which is valid |
| Controller.Conversation.InitAudio | src/components/Conversation.tsx:48-54 | the playback context and a unit gain node are created once, and a valid state stays valid |
| Controller.Conversation.StartRecording | src/components/Conversation.tsx:113-204 | the new state is Turn.StartRecording of the old one, and stays valid |
| Controller.Conversation.PauseRecording | src/components/Conversation.tsx:207-212 | the new state is Turn.PauseRecording of the old one, and a valid state stays valid |
| Controller.Conversation.StopRecording | src/components/Conversation.tsx:215-236 | the new state is Turn.StopRecording of the old one, and stays valid |
| Controller.Conversation.ToggleRecording | src/components/Conversation.tsx:239-245 | the new state is Turn.ToggleRecording of the old one, and stays valid |
| Controller.Conversation.ToggleMute | src/components/Conversation.tsx:105-110 | the new state is Turn.ToggleMute of the old one, and stays valid |
| Controller.Conversation.ProcessAudioQueue | src/components/Conversation.tsx:248-277 | the new state is Turn.ProcessQueue of the old one |
| Controller.Conversation.Resume | src/components/Conversation.tsx:256-277 | the while loop reaches Turn.ResumeLoop of the old state: it stops at the first audible buffer, or after the epilogue |
| Controller.Conversation.ShiftQueue | src/components/Conversation.tsx:257 | returns the front buffer and removes it from the queue |
| Controller.Conversation.StartBuffer | src/components/Conversation.tsx:93-101 | the buffer is started on the output and is the one in flight |
| Controller.Conversation.FinishPlayback | src/components/Conversation.tsx:263-276 | the loop's epilogue: the flag is cleared, and when not recording the state is ready and the resume delay is scheduled |
| Controller.Conversation.BufferEnded | src/components/Conversation.tsx:97-99 | the new state is Turn.BufferEnded of the old one, and stays valid |
| Controller.Conversation.OnAudio | src/components/Conversation.tsx:410-442 | the new state is Turn.OnAudio of the old one, and stays valid |
| Controller.Conversation.EnqueueChunk | src/components/Conversation.tsx:315 | a decoded chunk is pushed at the end of the queue |
| Controller.Conversation.TakeFloor | src/components/Conversation.tsx:412-424 | agent-speaking, speaking, and the silence window cleared and set again |
| Controller.Conversation.OnMessage | src/components/Conversation.tsx:350-457 | the new state is Turn.Dispatch of the old one, and stays valid |
| Controller.Conversation.OnMetadata | src/components/Conversation.tsx:357-362 | the new state is Turn.OnMetadata of the old one |
| Controller.Conversation.OnUserTranscript | src/components/Conversation.tsx:364-378 | the new state is Turn.OnUserTranscript of the old one |
| Controller.Conversation.OnAgentResponse | src/components/Conversation.tsx:380-392 | the new state is Turn.OnAgentResponse of the old one |
| Controller.Conversation.OnTentativeResponse | src/components/Conversation.tsx:394-398 | the new state is Turn.OnTentativeResponse of the old one |
| Controller.Conversation.OnPing | src/components/Conversation.tsx:400-408 | the new state is Turn.OnPing of the old one |
| Controller.Conversation.OnInterruption | src/components/Conversation.tsx:444-449 | the new state is Turn.OnInterruption of the old one |
| Controller.Conversation.OnOpen | src/components/Conversation.tsx:328-348 | the new state is Turn.OnOpen of the old one, and stays valid |
| Controller.Conversation.OnClose | src/components/Conversation.tsx:459-467 | onerror and onclose mark the channel closed, and the state stays valid |
| Controller.Conversation.OnAudioProcess | src/components/Conversation.tsx:157-183 | the new state is Turn.Capture of the old one, and stays valid |
| Controller.Conversation.SetInputText | src/components/Conversation.tsx:17 | the text box holds the given text, and the state stays valid |
| Controller.Conversation.SendMessage | src/components/Conversation.tsx:484-507 | the new state is Turn.SendMessage of the old one, and stays valid |
| Controller.Conversation.FireTimer | src/components/Conversation.tsx:424-441 | the new state is Turn.FireTimer of the old one, and stays valid (this also covers the timeouts at lines 271-274 and 344-347) |

## Left out

- The JSX rendering and the styles table are UI.
- Typed text cannot reach `sendMessage` in the component as written. No element calls `setInputText`, and `handleKeyPress` (lines 509-514), which would call `sendMessage` on Enter, is attached to no element either. The model keeps the path as the events `Typed` (the setter at line 17) and `Send`, so `SetInputText` and `SendMessage` describe code that nothing in the rendered component invokes.
- Browser objects are represented by flags and logs, not modelled:
  - the WebSocket is `channelOpen` plus the `outbox` log;
  - the playback AudioContext and its gain node are `audioReady` plus `gain`;
  - the recording AudioContext, ScriptProcessor and MediaStream are `micOpen`.
- Resuming a suspended playback context, in initAudio, has no effect on the modelled state.
- Disconnecting and closing the recording nodes on stop is one write, `micOpen := false`.
- `getUserMedia` is taken as atomic: its outcome is given with the event that starts recording. Two start calls overlapping during the prompt are not modelled.
- A failure of `new AudioContext` after the stream was granted (lines 148-204) is not modelled. The catch would then leave an open stream behind a "denied" permission.
- The `alert` in the catch is not modelled.
- The permissions query at mount (lines 62-75) is not modelled: it only sets the displayed permission.
- The unmount cleanup (lines 77-84 and 475-481) is not modelled: it closes the playback context, stops the microphone tracks, closes the channel and resets the queue.
- The model's inputs are wider than the events the component produces:
  - `Start`, `Pause` and `Stop` are inputs of their own, but nothing in the component calls `stopRecording` (it is defined at line 215 and referenced nowhere else);
  - `startRecording` is called only by `toggleRecording` (line 243) and the three timers (lines 273, 346 and 437);
  - `pauseRecording` is called only by `toggleRecording` (line 241) and the transcript case (line 376);
  - an opened microphone stream is therefore released only by the unmount cleanup, which is not modelled. TurnProperties.StopIdempotent, TurnProperties.OnlyStopReleases and TurnProperties.NoStopKeepsStream are about the `Stop` input, which the component as written never produces;
  - `Toggle` is always enabled in the model, while the record button is disabled unless the channel is connected (line 649).

  Every property proved over `Run` still holds of the component's narrower set of event sequences.
- Float arithmetic is approximate:
  - capture quantisation is modelled on exact reals, so float rounding is not captured;
  - the `/ 32768.0` normalisation into the AudioBuffer (lines 310-313) is not modelled, and queue elements are kept as Int16 samples.
- Base64 (`btoa`, `atob`) is an uninterpreted `Base64` parameter. `btoa` throwing on a char above 255 cannot happen, because every char comes from a byte.
- Time is not modelled:
  - timers fire as events, in any order the environment chooses;
  - delays are names, not durations;
  - `lastAudioChunkTimeRef` and the message ids and timestamps taken from the clock are not modelled.
- Stale React closures are not modelled. `isRecording`, `isMuted` and `conversationState` are read from render closures in `playAudioBuffer`, the loop epilogue, the toggles and the timer callbacks, and the model reads the current value of each.
  - The channel handlers and the settle-delay timer are created by the effect at lines 322-482, which re-runs only when `agentId` changes (line 482). So the `playAudioBuffer`, the loop epilogue (line 269) and the re-check (line 434) that they reach read the first render's `isMuted` and `isRecording`, both `false`.
  - In the browser, a muted buffer is therefore started and plays through the current gain. That gain is 0 when mute was set after the gain node existed, and 1 when it was set before initAudio created the node (lines 107 and 51).
  - The epilogue always writes `ready` and schedules the resume, and the re-check tests only `isPlayingRef`.
  - The three timers (the resume delay at line 273, the settle delay at 346 and the re-check at 437) call the first render's `startRecording`, whose `isRecording` is `false`. So its guard at line 121 never fires from a timer. A resume delay that fires while recording, with the stream open, writes `listening` again (for example over `speaking`), where the model leaves the session unchanged.
  - TurnProperties.MutedLoopSkipsAll and the muted "hand back" case of TurnProperties.AudioTakesTheFloor hold only under the current-value reading. So do the `isRecording` tests of FinishPlayback and of the silence re-check (TurnProperties.SilenceRecheckResumes), and TurnProperties.StartWhileRecordingIsNoop for starts driven by a timer.
- React batching is not modelled: each state write takes effect at once. Within one handler the last write wins, as after batching.
- JSON numbers are integers here (`Value.Num`). A fractional number, such as a truthy `event_id` of 0.5, cannot be represented.
- JSON text is not modelled. `JSON.parse` either succeeds (modelled as `Parsed`) or throws (`Unparseable`). Only the fields the dispatcher reads are kept, and a non-string text payload is not modelled.
- Console logging is not modelled.
- The `Int16Array`/`Uint8Array` views use the platform's byte order. The model fixes it to little-endian, the order of every common browser platform and the order the channel's PCM format expects.
- `wsRef.current.readyState !== OPEN` is modelled by the flag that onopen sets and onerror/onclose clear.
- The other files of the repository are not part of this model: `src/services/api.ts`, `src/components/Login.tsx`, `src/utils/storage.ts`, `src/components/BalanceWarning.tsx`, `src/pages/Dashboard.tsx`, `src/App.tsx`, `src/components/ConversationStart.tsx` and `src/types/index.ts`.
- Controller.Conversation.PauseRecording: promises `old(Valid()) ==> Valid()` rather than requiring `Valid()`. That is because the transcript handler calls it right after writing processing, which the invariant excludes.
