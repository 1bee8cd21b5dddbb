/** The voice session controller as a pure state machine.

    `Session` holds every piece of state the controller reads or writes: the
    React state (transcript, flags, conversation state), the refs (live
    recording flag, playback queue, is-playing flag, pending timers) and the
    effects on foreign objects (messages sent on the channel, buffers started on
    the audio output). Each event the controller reacts to is one function from
    the old session to the new one; the class in module Controller performs the
    same updates in place and is proved against these functions.

    Asynchrony is made explicit: a `setTimeout` callback is a pending `Timer`
    that fires as its own event, the `onended` of the buffer being played is
    the `BufferEnded` event, and the microphone permission prompt is resolved
    by an outcome given with the event that starts recording. */
module Turn {
  import opened Pcm
  import opened Protocol

  datatype ConvState = Listening | Processing | Speaking | Ready

  datatype Permission = Prompt | Granted | Denied

  /** How getUserMedia settles: a stream, or a rejection (denied or no device). */
  datatype MicOutcome = Allowed | Refused

  /** The setTimeout callbacks the controller schedules. */
  datatype Timer =
    | SettleDelay     // 1500 ms after the channel opens: start recording
    | SilenceWindow   // 2000 ms after the latest audio chunk (the cleared one)
    | SilenceRecheck  // 1000 ms after the silence window: resume if idle
    | ResumeDelay     // 1000 ms after playback drained: start recording

  datatype Speaker = User | Agent

  /** A transcript entry; its id and timestamp come from the clock and are not
      modelled. */
  datatype Utterance = Utterance(speaker: Speaker, text: string)

  /** One decoded playback buffer: its Int16 samples. */
  type Buffer = seq<Int16>

  /** The browser's base64 pair (btoa, atob); atob may throw. */
  datatype Base64 = Base64(encode: string -> string, decode: string -> Option<string>)

  /** The transcript, the text box and the channel. */
  datatype Chat = Chat(
    messages: seq<Utterance>,      // transcript shown to the user
    inputText: string,             // the text box
    channelOpen: bool,             // the WebSocket is OPEN
    conversationId: Value,
    agentSpeaking: bool,
    outbox: seq<OutMsg>)           // messages sent on the channel, in order

  /** The microphone and the conversation state. */
  datatype Mic = Mic(
    isRecording: bool,             // React state
    liveRecording: bool,           // isRecordingRef, read by the capture callback
    permission: Permission,
    state: ConvState,
    micOpen: bool)                 // micStreamRef holds a stream

  /** The playback context with its gain node, and what was played on it. */
  datatype Sound = Sound(
    audioReady: bool,              // playback AudioContext and gain node exist
    muted: bool,
    gain: int,                     // value of the shared gain node
    output: seq<Buffer>)           // buffers started on the output, in order

  /** The drain loop's refs. */
  datatype Playback = Playback(
    queue: seq<Buffer>,            // audioQueueRef
    isPlaying: bool,               // isPlayingRef
    current: Option<Buffer>)       // buffer whose onended the loop awaits

  /** Every buffer ever pushed, and every buffer shifted or cleared. */
  datatype History = History(enqueued: seq<Buffer>, removed: seq<Buffer>)

  datatype Session = Session(
    chat: Chat,
    mic: Mic,
    sound: Sound,
    play: Playback,
    timers: multiset<Timer>,       // pending setTimeout callbacks
    history: History)

  const Initial: Session := Session(
    Chat([], "", false, Null, false, []),
    Mic(false, false, Prompt, Ready, false),
    Sound(false, false, 1, []),
    Playback([], false, None),
    multiset{},
    History([], []))

  // ---------------------------------------------------------------------------
  // Invariant
  // ---------------------------------------------------------------------------

  /** Recording flags and conversation state agree. */
  predicate MicInv(m: Mic)
  {
    && m.isRecording == m.liveRecording
    && (m.liveRecording ==> m.micOpen)
    && m.state != Processing
    && (m.state == Listening ==> m.isRecording)
    && (m.isRecording ==> m.state != Ready)
  }

  /** At most one silence window is outstanding. */
  predicate TimerInv(s: Session)
  {
    s.timers[SilenceWindow] <= 1
  }

  /** The queue is FIFO, is only non-empty while the drain loop runs, and a
      buffer is in flight exactly while the loop runs. */
  predicate QueueInv(s: Session)
  {
    && (!s.play.isPlaying ==> s.play.queue == [])
    && (s.play.isPlaying ==> s.sound.audioReady)
    && (s.play.isPlaying <==> s.play.current.Some?)
    && s.history.removed + s.play.queue == s.history.enqueued
  }

  /** The gain is 1, or 0 while muted; a node not yet created counts as 1. */
  predicate SoundInv(o: Sound)
  {
    && (o.gain == 0 || o.gain == 1)
    && (o.gain == 0 ==> o.muted)
    && (!o.audioReady ==> o.gain == 1)
  }

  predicate Inv(s: Session)
  {
    && MicInv(s.mic)
    && TimerInv(s)
    && QueueInv(s)
    && SoundInv(s.sound)
  }

  lemma InitialInv()
    ensures Inv(Initial)
  {
  }

  // ---------------------------------------------------------------------------
  // Recording controls
  // ---------------------------------------------------------------------------

  /** initAudio: create the playback context once; a new gain node has gain 1. */
  function InitAudio(s: Session): Session
  {
    if s.sound.audioReady then s else s.(sound := s.sound.(audioReady := true, gain := 1))
  }

  function StartRecording(s: Session, outcome: MicOutcome): Session
  {
    if s.mic.isRecording then s
    else if s.mic.micOpen then
      s.(mic := s.mic.(isRecording := true, liveRecording := true, state := Listening))
    else match outcome
      case Refused => s.(mic := s.mic.(permission := Denied, state := Ready))
      case Allowed => InitAudio(s.(mic := Mic(true, true, Granted, Listening, true)))
  }

  function PauseRecording(s: Session): Session
  {
    s.(mic := s.mic.(isRecording := false, liveRecording := false, state := Ready))
  }

  function StopRecording(s: Session): Session
  {
    s.(mic := s.mic.(isRecording := false, liveRecording := false, state := Ready,
                     micOpen := false))
  }

  function ToggleRecording(s: Session, outcome: MicOutcome): Session
  {
    if s.mic.isRecording then PauseRecording(s) else StartRecording(s, outcome)
  }

  function ToggleMute(s: Session): Session
  {
    var m := !s.sound.muted;
    s.(sound := s.sound.(muted := m,
                         gain := if s.sound.audioReady then (if m then 0 else 1) else s.sound.gain))
  }

  // ---------------------------------------------------------------------------
  // Playback
  // ---------------------------------------------------------------------------

  /** playAudioBuffer starts the buffer (and awaits its end) only when the
      context and gain node exist and the session is not muted. */
  predicate Audible(s: Session) { s.sound.audioReady && !s.sound.muted }

  /** After the drain loop: clear the flag; if not recording, go to Ready and
      schedule the resume. */
  function FinishPlayback(s: Session): Session
  {
    var t := s.(play := s.play.(isPlaying := false));
    if !s.mic.isRecording then
      t.(mic := t.mic.(state := Ready), timers := s.timers + multiset{ResumeDelay})
    else t
  }

  /** The drain loop from the top of an iteration: shift one buffer; an audible
      one is started and the loop suspends until it ends, a muted one is
      skipped and the loop goes on; an empty queue ends the loop. */
  function ResumeLoop(s: Session): Session
    decreases |s.play.queue|
  {
    if |s.play.queue| == 0 then FinishPlayback(s)
    else
      var t := Shift(s);
      if Audible(t) then StartBuffer(t, s.play.queue[0])
      else ResumeLoop(t)
  }

  /** queue.shift(): the front buffer leaves the queue. */
  function Shift(s: Session): Session
    requires s.play.queue != []
  {
    s.(play := s.play.(queue := s.play.queue[1..]),
       history := s.history.(removed := s.history.removed + [s.play.queue[0]]))
  }

  /** playAudioBuffer past its guard: the buffer is started on the output and
      the loop awaits its end. */
  function StartBuffer(s: Session, b: Buffer): Session
  {
    s.(sound := s.sound.(output := s.sound.output + [b]), play := s.play.(current := Some(b)))
  }

  /** processAudioQueue: returns at once if already playing or nothing queued. */
  function ProcessQueue(s: Session): Session
  {
    if s.play.isPlaying || |s.play.queue| == 0 then s
    else ResumeLoop(s.(play := s.play.(isPlaying := true)))
  }

  /** The onended of the buffer being played resumes the drain loop. */
  function BufferEnded(s: Session): Session
    requires s.play.current.Some?
  {
    ResumeLoop(s.(play := s.play.(current := None)))
  }

  /** handleAudioChunk up to the push (the drain is started by the caller). */
  function EnqueueChunk(s: Session, chunk: Option<Buffer>): Session
  {
    match chunk
    case None => s
    case Some(pcm) =>
      s.(play := s.play.(queue := s.play.queue + [pcm]),
         history := s.history.(enqueued := s.history.enqueued + [pcm]))
  }

  // ---------------------------------------------------------------------------
  // Inbound messages
  // ---------------------------------------------------------------------------

  function OnMetadata(s: Session, id: Value): Session
  {
    s.(chat := s.chat.(conversationId := id))
  }

  /** The state is written Processing, then pauseRecording writes Ready. */
  function OnUserTranscript(s: Session, text: string): Session
  {
    PauseRecording(s.(chat := s.chat.(messages := s.chat.messages + [Utterance(User, text)]),
                      mic := s.mic.(state := Processing)))
  }

  function OnAgentResponse(s: Session, text: string): Session
  {
    s.(chat := s.chat.(messages := s.chat.messages + [Utterance(Agent, text)],
                       agentSpeaking := false))
  }

  function OnTentativeResponse(s: Session): Session
  {
    s.(chat := s.chat.(agentSpeaking := true), mic := s.mic.(state := Speaking))
  }

  function OnPing(s: Session, id: Value): Session
  {
    s.(chat := s.chat.(outbox := s.chat.outbox + [Pong(id)]))
  }

  /** The audio case: decode and push the chunk, mark the agent speaking,
      replace the silence window; the drain loop then runs (its part after the
      first await is a continuation that runs after this handler returns). */
  function OnAudio(s: Session, base64: string, codec: Base64): Session
  {
    var chunk := DecodeChunk(codec.decode(base64));
    var s2 := TakeFloor(EnqueueChunk(InitAudio(s), chunk));
    if chunk.Some? then ProcessQueue(s2) else s2
  }

  /** The audio case's own writes: agent speaking, state Speaking, and the
      silence window cleared and scheduled again. */
  function TakeFloor(s: Session): Session
  {
    s.(chat := s.chat.(agentSpeaking := true), mic := s.mic.(state := Speaking),
       timers := s.timers[SilenceWindow := 0] + multiset{SilenceWindow})
  }

  /** Pending audio is dropped; a buffer already started keeps playing. */
  function OnInterruption(s: Session): Session
  {
    s.(chat := s.chat.(agentSpeaking := false), play := s.play.(queue := []),
       history := s.history.(removed := s.history.removed + s.play.queue))
  }

  /** ws.onmessage */
  function Dispatch(s: Session, frame: Frame, codec: Base64): Session
  {
    match frame
    case Unparseable => s
    case Parsed(m) =>
      match Classify(m)
      case ConversationMetadata(id) => OnMetadata(s, id)
      case UserTranscript(text) => OnUserTranscript(s, text)
      case AgentResponse(text) => OnAgentResponse(s, text)
      case TentativeAgentResponse => OnTentativeResponse(s)
      case Ping(id) => OnPing(s, id)
      case AudioChunk(data) => OnAudio(s, data, codec)
      case Interruption => OnInterruption(s)
      case Ignored => s
  }

  // ---------------------------------------------------------------------------
  // Channel, capture, typed input, timers
  // ---------------------------------------------------------------------------

  /** ws.onopen: send the initiation message, schedule the settle delay. */
  function OnOpen(s: Session): Session
  {
    s.(chat := s.chat.(channelOpen := true, outbox := s.chat.outbox + [Initiation]),
       timers := s.timers + multiset{SettleDelay})
  }

  /** ws.onerror / ws.onclose */
  function OnClose(s: Session): Session
  {
    s.(chat := s.chat.(channelOpen := false))
  }

  /** The capture callback: send the frame only while the channel is open and
      the live recording flag is set. */
  function Capture(s: Session, samples: seq<real>, codec: Base64): Session
  {
    if !s.chat.channelOpen || !s.mic.liveRecording then s
    else
      var wire := BinaryString(SamplesToBytes(QuantizeAll(samples)));
      s.(chat := s.chat.(outbox := s.chat.outbox + [UserAudioChunk(codec.encode(wire))]))
  }

  function SetInputText(s: Session, text: string): Session
  {
    s.(chat := s.chat.(inputText := text))
  }

  /** sendMessage: typed text, trimmed, sent and logged. */
  function SendMessage(s: Session): Session
  {
    var text := Trim(s.chat.inputText);
    if text == "" || !s.chat.channelOpen then s
    else s.(chat := s.chat.(outbox := s.chat.outbox + [UserMessage(text)],
                            messages := s.chat.messages + [Utterance(User, text)],
                            inputText := "", agentSpeaking := true))
  }

  /** A timer leaves the table when its callback runs. */
  function ClearTimer(s: Session, t: Timer): Session
  {
    s.(timers := s.timers - multiset{t})
  }

  /** A pending timer's callback runs. */
  function FireTimer(s: Session, t: Timer, outcome: MicOutcome): Session
    requires t in s.timers
  {
    var s1 := ClearTimer(s, t);
    match t
    case SettleDelay => StartRecording(s1, outcome)
    case ResumeDelay => StartRecording(s1, outcome)
    case SilenceWindow => s1.(timers := s1.timers + multiset{SilenceRecheck})
    case SilenceRecheck =>
      if !s1.mic.isRecording && !s1.play.isPlaying then
        StartRecording(s1.(mic := s1.mic.(state := Ready)), outcome)
      else s1
  }

  // ---------------------------------------------------------------------------
  // Event sequences
  // ---------------------------------------------------------------------------

  datatype Input =
    | ChannelOpened
    | ChannelClosed
    | Received(frame: Frame)
    | Captured(samples: seq<real>)
    | Start(outcome: MicOutcome)
    | Pause
    | Stop
    | Toggle(outcome: MicOutcome)
    | MuteToggled
    | AudioEnabled
    | PlaybackEnded
    | TimerFired(timer: Timer, outcome: MicOutcome)
    | Typed(text: string)
    | Send

  /** An onended event needs a buffer in flight; a timer needs to be pending. */
  predicate Enabled(s: Session, i: Input)
  {
    match i
    case PlaybackEnded => s.play.current.Some?
    case TimerFired(t, _) => t in s.timers
    case _ => true
  }

  function Step(s: Session, i: Input, codec: Base64): Session
    requires Enabled(s, i)
  {
    match i
    case ChannelOpened => OnOpen(s)
    case ChannelClosed => OnClose(s)
    case Received(frame) => Dispatch(s, frame, codec)
    case Captured(samples) => Capture(s, samples, codec)
    case Start(o) => StartRecording(s, o)
    case Pause => PauseRecording(s)
    case Stop => StopRecording(s)
    case Toggle(o) => ToggleRecording(s, o)
    case MuteToggled => ToggleMute(s)
    case AudioEnabled => InitAudio(s)
    case PlaybackEnded => BufferEnded(s)
    case TimerFired(t, o) => FireTimer(s, t, o)
    case Typed(text) => SetInputText(s, text)
    case Send => SendMessage(s)
  }

  /** Events delivered one at a time in arrival order; an event that cannot
      occur in the current session is dropped. */
  function Run(s: Session, inputs: seq<Input>, codec: Base64): Session
    decreases |inputs|
  {
    if inputs == [] then s
    else if Enabled(s, inputs[0]) then Run(Step(s, inputs[0], codec), inputs[1..], codec)
    else Run(s, inputs[1..], codec)
  }

  // ---------------------------------------------------------------------------
  // The invariant is kept
  // ---------------------------------------------------------------------------

  lemma {:induction false} ResumeLoopInv(s: Session)
    requires MicInv(s.mic) && TimerInv(s) && SoundInv(s.sound)
    requires s.play.isPlaying && s.play.current.None? && s.sound.audioReady
    requires s.history.removed + s.play.queue == s.history.enqueued
    ensures Inv(ResumeLoop(s))
    decreases |s.play.queue|
  {
    if |s.play.queue| > 0 {
      var b := s.play.queue[0];
      var t := Shift(s);
      assert t.history.removed + t.play.queue == s.history.enqueued by {
        assert s.play.queue == [b] + s.play.queue[1..];
      }
      if !Audible(t) {
        ResumeLoopInv(t);
      }
    }
  }

  lemma ProcessQueueInv(s: Session)
    requires MicInv(s.mic) && TimerInv(s) && SoundInv(s.sound)
    requires s.play.isPlaying <==> s.play.current.Some?
    requires s.play.isPlaying || |s.play.queue| > 0
    requires s.sound.audioReady && s.history.removed + s.play.queue == s.history.enqueued
    ensures Inv(ProcessQueue(s))
  {
    if !s.play.isPlaying {
      ResumeLoopInv(s.(play := s.play.(isPlaying := true)));
    }
  }

  lemma StartRecordingInv(s: Session, o: MicOutcome)
    requires Inv(s)
    ensures Inv(StartRecording(s, o))
  {
  }

  lemma OnAudioInv(s: Session, base64: string, codec: Base64)
    requires Inv(s)
    ensures Inv(OnAudio(s, base64, codec))
  {
    var chunk := DecodeChunk(codec.decode(base64));
    var s2 := TakeFloor(EnqueueChunk(InitAudio(s), chunk));
    if chunk.Some? {
      assert s2.history.removed + s2.play.queue == s2.history.enqueued by {
        assert s.history.removed + (s.play.queue + [chunk.value])
            == (s.history.removed + s.play.queue) + [chunk.value];
      }
      ProcessQueueInv(s2);
    }
  }

  lemma DispatchInv(s: Session, frame: Frame, codec: Base64)
    requires Inv(s)
    ensures Inv(Dispatch(s, frame, codec))
  {
    match frame
    case Unparseable =>
    case Parsed(m) =>
      match Classify(m)
      case ConversationMetadata(id) => assert Inv(OnMetadata(s, id));
      case UserTranscript(text) => assert Inv(OnUserTranscript(s, text));
      case AgentResponse(text) => assert Inv(OnAgentResponse(s, text));
      case TentativeAgentResponse => assert Inv(OnTentativeResponse(s));
      case Ping(id) => assert Inv(OnPing(s, id));
      case AudioChunk(data) => OnAudioInv(s, data, codec);
      case Interruption => assert Inv(OnInterruption(s));
      case Ignored =>
  }

  /** Taking a timer off the table keeps the invariant; so does writing Ready
      while not recording. */
  lemma RemoveTimerInv(s: Session, t: Timer)
    requires Inv(s)
    ensures Inv(ClearTimer(s, t))
    ensures !s.mic.isRecording ==> Inv(ClearTimer(s, t).(mic := s.mic.(state := Ready)))
  {
  }

  lemma FireTimerInv(s: Session, t: Timer, o: MicOutcome)
    requires Inv(s) && t in s.timers
    ensures Inv(FireTimer(s, t, o))
  {
    var s1 := ClearTimer(s, t);
    RemoveTimerInv(s, t);
    match t
    case SettleDelay => StartRecordingInv(s1, o);
    case ResumeDelay => StartRecordingInv(s1, o);
    case SilenceWindow =>
    case SilenceRecheck =>
      if !s1.mic.isRecording && !s1.play.isPlaying {
        StartRecordingInv(s1.(mic := s1.mic.(state := Ready)), o);
      }
  }

  lemma BufferEndedInv(s: Session)
    requires Inv(s) && s.play.current.Some?
    ensures Inv(BufferEnded(s))
  {
    ResumeLoopInv(s.(play := s.play.(current := None)));
  }

  lemma StepInv(s: Session, i: Input, codec: Base64)
    requires Inv(s) && Enabled(s, i)
    ensures Inv(Step(s, i, codec))
  {
    match i
    case Received(frame) => DispatchInv(s, frame, codec);
    case Start(o) => StartRecordingInv(s, o);
    case Toggle(o) => StartRecordingInv(s, o);
    case PlaybackEnded => BufferEndedInv(s);
    case TimerFired(t, o) => FireTimerInv(s, t, o);
    case _ =>
  }

  /** Every event sequence keeps the invariant. */
  lemma {:induction false} RunInv(s: Session, inputs: seq<Input>, codec: Base64)
    requires Inv(s)
    ensures Inv(Run(s, inputs, codec))
    decreases |inputs|
  {
    if inputs != [] {
      if Enabled(s, inputs[0]) {
        StepInv(s, inputs[0], codec);
        RunInv(Step(s, inputs[0], codec), inputs[1..], codec);
      } else {
        RunInv(s, inputs[1..], codec);
      }
    }
  }

  /** In every session reachable from the initial one: Processing is never
      the state between events, at most one silence window is pending, the
      live flag implies an open microphone stream and agrees with the React
      flag, and the queue is non-empty only while the drain loop runs. */
  lemma {:induction false} Reachable(inputs: seq<Input>, codec: Base64)
    ensures var s := Run(Initial, inputs, codec);
      && s.mic.state != Processing
      && s.timers[SilenceWindow] <= 1
      && (s.mic.liveRecording ==> s.mic.micOpen)
      && s.mic.isRecording == s.mic.liveRecording
      && (s.mic.state == Listening ==> s.mic.isRecording)
      && (s.play.queue != [] ==> s.play.isPlaying)
      && s.history.removed + s.play.queue == s.history.enqueued
  {
    InitialInv();
    RunInv(Initial, inputs, codec);
  }
}
