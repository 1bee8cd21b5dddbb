/** What the controller promises, stated over the pure session model. */
module TurnProperties {
  import opened Pcm
  import opened Protocol
  import opened Turn

  // ---------------------------------------------------------------------------
  // Message dispatch
  // ---------------------------------------------------------------------------

  /** A ping with a truthy event id adds exactly one pong echoing that id and
      changes nothing else; a ping without one changes nothing. */
  lemma PingAnswered(s: Session, m: Inbound, codec: Base64)
    requires m.kind == Str(PingType)
    ensures Truthy(m.pingEventId) ==>
      Dispatch(s, Parsed(m), codec) == s.(chat := s.chat.(outbox := s.chat.outbox + [Pong(m.pingEventId)]))
    ensures !Truthy(m.pingEventId) ==> Dispatch(s, Parsed(m), codec) == s
  {
  }

  /** An unrecognised type, a known type whose payload guard fails, and an
      unparseable frame all leave the session as it was. */
  lemma UnrecognisedIgnored(s: Session, m: Inbound, codec: Base64)
    requires !KnownType(m.kind)
    ensures Dispatch(s, Parsed(m), codec) == s
    ensures Dispatch(s, Unparseable, codec) == s
  {
  }

  lemma FailedGuardIgnored(s: Session, m: Inbound, codec: Base64)
    requires || (m.kind == Str(MetadataType) && !Truthy(m.conversationId))
             || (m.kind == Str(UserTranscriptType) && !HasText(m.userTranscript))
             || (m.kind == Str(AgentResponseType) && !HasText(m.agentResponse))
             || (m.kind == Str(AudioType) && !HasText(m.audioBase64))
    ensures Dispatch(s, Parsed(m), codec) == s
  {
  }

  /** An audio message with a payload is handled by the audio case, on that
      payload. */
  lemma AudioDispatched(s: Session, m: Inbound, codec: Base64)
    requires m.kind == Str(AudioType) && HasText(m.audioBase64)
    ensures Dispatch(s, Parsed(m), codec) == OnAudio(s, m.audioBase64.s, codec)
  {
  }

  /** The metadata message records the conversation id. */
  lemma MetadataRecordsId(s: Session, m: Inbound, codec: Base64)
    requires m.kind == Str(MetadataType) && Truthy(m.conversationId)
    ensures Dispatch(s, Parsed(m), codec) == s.(chat := s.chat.(conversationId := m.conversationId))
  {
  }

  /** interruption empties the queue and clears the agent-speaking flag; the
      conversation state, transcript, recording flags and the buffer already
      playing are untouched. */
  lemma InterruptionClearsQueue(s: Session, m: Inbound, codec: Base64)
    requires m.kind == Str(InterruptionType)
    ensures var w := Dispatch(s, Parsed(m), codec);
      && w.play.queue == [] && !w.chat.agentSpeaking
      && w.mic.state == s.mic.state && w.chat.messages == s.chat.messages
      && w.mic.isRecording == s.mic.isRecording && w.mic.liveRecording == s.mic.liveRecording
      && w.play.current == s.play.current && w.play.isPlaying == s.play.isPlaying
      && w.sound.output == s.sound.output && w.chat.outbox == s.chat.outbox && w.timers == s.timers
      && w.history.removed == s.history.removed + s.play.queue
  {
  }

  /** user_transcript appends one user utterance at the end, pauses recording
      and leaves the state Ready (pauseRecording's write follows Processing);
      the microphone stream stays open. */
  lemma TranscriptPausesRecording(s: Session, m: Inbound, codec: Base64)
    requires m.kind == Str(UserTranscriptType) && HasText(m.userTranscript)
    ensures var w := Dispatch(s, Parsed(m), codec);
      && w.chat.messages == s.chat.messages + [Utterance(User, m.userTranscript.s)]
      && !w.mic.isRecording && !w.mic.liveRecording && w.mic.state == Ready
      && w.mic.micOpen == s.mic.micOpen && w.play.queue == s.play.queue && w.chat.outbox == s.chat.outbox
  {
  }

  /** agent_response appends one agent utterance and clears agent-speaking;
      the conversation state is not changed. */
  lemma AgentResponseLogged(s: Session, m: Inbound, codec: Base64)
    requires m.kind == Str(AgentResponseType) && HasText(m.agentResponse)
    ensures var w := Dispatch(s, Parsed(m), codec);
      && w.chat.messages == s.chat.messages + [Utterance(Agent, m.agentResponse.s)]
      && !w.chat.agentSpeaking && w.mic.state == s.mic.state && w.mic.isRecording == s.mic.isRecording
  {
  }

  /** internal_tentative_agent_response gives the agent the floor without
      touching the microphone. */
  lemma TentativeResponseSpeaks(s: Session, m: Inbound, codec: Base64)
    requires m.kind == Str(TentativeType)
    ensures var w := Dispatch(s, Parsed(m), codec);
      w.mic.state == Speaking && w.chat.agentSpeaking && w.mic.isRecording == s.mic.isRecording
  {
  }

  // ---------------------------------------------------------------------------
  // Audio chunks and the silence timer
  // ---------------------------------------------------------------------------

  /** An audio message marks the agent speaking and leaves exactly one silence
      window pending. The state is Speaking, except when the decoded chunk
      finds the loop idle, the session muted and the microphone paused: the
      muted buffer is skipped, the loop ends at once and its epilogue writes
      Ready and schedules the resume. A chunk that fails to decode leaves the
      queue as it was. */
  lemma {:induction false} AudioTakesTheFloor(s: Session, base64: string, codec: Base64)
    requires Inv(s)
    ensures var w := OnAudio(s, base64, codec);
      var chunk := DecodeChunk(codec.decode(base64));
      var handBack := chunk.Some? && !s.play.isPlaying && s.sound.muted && !s.mic.isRecording;
      && w.chat.agentSpeaking
      && w.timers[SilenceWindow] == 1
      && w.timers == s.timers[SilenceWindow := 1] + (if handBack then multiset{ResumeDelay} else multiset{})
      && (w.mic.state == Speaking <==> !handBack)
      && (handBack ==> w.mic.state == Ready)
      && (chunk.None? ==> w.play.queue == s.play.queue && w.history.enqueued == s.history.enqueued)
      && (chunk.Some? ==> w.history.enqueued == s.history.enqueued + [chunk.value])
      && (chunk.Some? && s.play.isPlaying ==> w.play.queue == s.play.queue + [chunk.value] && w.play.current == s.play.current)
      && (chunk.Some? && !s.play.isPlaying && !s.sound.muted ==>
            w.play.current == Some(chunk.value) && w.sound.output == s.sound.output + [chunk.value] && w.play.queue == [])
      && w.mic.isRecording == s.mic.isRecording
  {
    var chunk := DecodeChunk(codec.decode(base64));
    var s2 := TakeFloor(EnqueueChunk(InitAudio(s), chunk));
    assert s2.timers == s.timers[SilenceWindow := 1];
    if chunk.Some? && !s.play.isPlaying {
      assert s2.play.queue == [chunk.value];
      var s3 := s2.(play := s2.play.(isPlaying := true));
      assert ProcessQueue(s2) == ResumeLoop(s3);
      if s.sound.muted {
        assert ResumeLoop(s3) == ResumeLoop(Shift(s3)) == FinishPlayback(Shift(s3));
      }
    }
  }

  /** The 2 s silence window only schedules the 1 s re-check. */
  lemma SilenceWindowSchedulesRecheck(s: Session, o: MicOutcome)
    requires SilenceWindow in s.timers
    ensures FireTimer(s, SilenceWindow, o)
         == s.(timers := s.timers - multiset{SilenceWindow} + multiset{SilenceRecheck})
  {
  }

  /** The re-check resumes recording only when not recording and nothing is
      playing: then the state is Listening with the microphone live, or Ready
      if a new stream was refused. Otherwise it only leaves the timer table. */
  lemma SilenceRecheckResumes(s: Session, o: MicOutcome)
    requires Inv(s) && SilenceRecheck in s.timers
    ensures var w := FireTimer(s, SilenceRecheck, o);
      && (!s.mic.isRecording && !s.play.isPlaying ==>
            if s.mic.micOpen || o == Allowed
            then w.mic.state == Listening && w.mic.isRecording && w.mic.liveRecording && w.mic.micOpen
            else w.mic.state == Ready && !w.mic.isRecording && w.mic.permission == Denied)
      && (s.mic.isRecording || s.play.isPlaying ==> w == s.(timers := s.timers - multiset{SilenceRecheck}))
  {
  }

  // ---------------------------------------------------------------------------
  // The playback loop
  // ---------------------------------------------------------------------------

  /** processAudioQueue returns immediately if already playing or the queue
      is empty. */
  lemma ProcessQueueBusyOrEmpty(s: Session)
    requires s.play.isPlaying || s.play.queue == []
    ensures ProcessQueue(s) == s
  {
  }

  /** A loop iteration takes the buffer at the front of the queue. */
  lemma {:induction false} LoopTakesFront(s: Session)
    requires s.play.queue != [] && Audible(s)
    ensures var w := ResumeLoop(s);
      w.play.current == Some(s.play.queue[0]) && w.play.queue == s.play.queue[1..]
      && w.sound.output == s.sound.output + [s.play.queue[0]] && w.history.removed == s.history.removed + [s.play.queue[0]]
  {
  }

  /** Muted, the loop dequeues and skips every buffer: nothing is started
      and the loop ends with the queue empty. */
  lemma {:induction false} MutedLoopSkipsAll(s: Session)
    requires !Audible(s)
    ensures ResumeLoop(s) == FinishPlayback(s.(play := s.play.(queue := []), history := s.history.(removed := s.history.removed + s.play.queue)))
    decreases |s.play.queue|
  {
    if s.play.queue != [] {
      var b := s.play.queue[0];
      var t := Shift(s);
      MutedLoopSkipsAll(t);
      assert t.history.removed + t.play.queue == s.history.removed + s.play.queue by {
        assert s.play.queue == [b] + s.play.queue[1..];
      }
    }
  }

  /** n onended events in a row, with nothing else happening. */
  function EndedTimes(s: Session, n: nat): Session
    decreases n
  {
    if n == 0 || s.play.current.None? then s else EndedTimes(BufferEnded(s), n - 1)
  }

  /** While audible and with no other event, the buffer in flight and then the
      queue are played one at a time in enqueue order; after |queue| + 1
      endings the loop has stopped with the queue empty. */
  lemma {:induction false} PlaysQueueInOrder(s: Session)
    requires s.play.current.Some? && Audible(s)
    ensures var w := EndedTimes(s, |s.play.queue| + 1);
      && !w.play.isPlaying && w.play.queue == [] && w.play.current.None?
      && w.sound.output == s.sound.output + s.play.queue
      && w.history.removed == s.history.removed + s.play.queue
    decreases |s.play.queue|
  {
    if s.play.queue == [] {
      LastEnded(s);
    } else {
      var u := NextEnded(s);
      PlaysQueueInOrder(u);
    }
  }

  /** The last buffer ending stops the loop. */
  lemma LastEnded(s: Session)
    requires s.play.current.Some? && s.play.queue == []
    ensures var w := EndedTimes(s, 1);
      && !w.play.isPlaying && w.play.queue == [] && w.play.current.None?
      && w.sound.output == s.sound.output && w.history.removed == s.history.removed
  {
    assert EndedTimes(s, 1) == BufferEnded(s);
  }

  /** An intermediate buffer ending starts the next one, still audible. */
  lemma NextEnded(s: Session) returns (u: Session)
    requires s.play.current.Some? && Audible(s) && s.play.queue != []
    ensures u == BufferEnded(s)
    ensures u.play.current.Some? && Audible(u) && |u.play.queue| == |s.play.queue| - 1
    ensures EndedTimes(s, |s.play.queue| + 1) == EndedTimes(u, |u.play.queue| + 1)
    ensures u.sound.output + u.play.queue == s.sound.output + s.play.queue
    ensures u.history.removed + u.play.queue == s.history.removed + s.play.queue
  {
    var s0 := s.(play := s.play.(current := None));
    var b := s.play.queue[0];
    u := StartBuffer(Shift(s0), b);
    assert BufferEnded(s) == ResumeLoop(s0) == u;
    var rest := s.play.queue[1..];
    assert s.play.queue == [b] + rest;
    assert u.sound.output + u.play.queue == s.sound.output + ([b] + rest);
    assert u.history.removed + u.play.queue == s.history.removed + ([b] + rest);
  }

  /** Toggling mute touches neither the queue nor the buffer in flight; it
      flips the flag and sets the shared gain when the node exists. */
  lemma MuteKeepsPlayback(s: Session)
    ensures var w := ToggleMute(s);
      && w.play.queue == s.play.queue && w.play.current == s.play.current && w.play.isPlaying == s.play.isPlaying
      && w.sound.output == s.sound.output && w.sound.muted == !s.sound.muted
      && (s.sound.audioReady ==> w.sound.gain == if w.sound.muted then 0 else 1)
      && w == s.(sound := s.sound.(muted := w.sound.muted, gain := w.sound.gain))
  {
  }

  // ---------------------------------------------------------------------------
  // Recording controls
  // ---------------------------------------------------------------------------

  lemma StartWhileRecordingIsNoop(s: Session, o: MicOutcome)
    requires s.mic.isRecording
    ensures StartRecording(s, o) == s
  {
  }

  /** With an open stream, starting sets both flags and Listening. */
  lemma StartWithOpenStream(s: Session, o: MicOutcome)
    requires !s.mic.isRecording && s.mic.micOpen
    ensures var w := StartRecording(s, o);
      w.mic.isRecording && w.mic.liveRecording && w.mic.state == Listening && w.mic.micOpen
      && w.mic.permission == s.mic.permission
  {
  }

  /** Without a stream the permission prompt decides: a granted stream starts
      recording and the playback context; a refusal leaves the session Ready
      and records the denial. */
  lemma StartWithoutStream(s: Session, o: MicOutcome)
    requires Inv(s) && !s.mic.isRecording && !s.mic.micOpen
    ensures var w := StartRecording(s, o);
      && (o == Allowed ==> w.mic.isRecording && w.mic.liveRecording && w.mic.micOpen
                           && w.mic.state == Listening && w.mic.permission == Granted && w.sound.audioReady)
      && (o == Refused ==> !w.mic.isRecording && !w.mic.liveRecording && !w.mic.micOpen
                           && w.mic.state == Ready && w.mic.permission == Denied)
  {
  }

  /** Pausing is idempotent, ends with both flags down and Ready, and keeps
      the stream. */
  lemma PauseIdempotent(s: Session)
    ensures var w := PauseRecording(s);
      && PauseRecording(w) == w
      && !w.mic.isRecording && !w.mic.liveRecording && w.mic.state == Ready && w.mic.micOpen == s.mic.micOpen
  {
  }

  /** Stopping is idempotent, ends with both flags down and Ready, and
      releases the stream. */
  lemma StopIdempotent(s: Session)
    ensures var w := StopRecording(s);
      && StopRecording(w) == w
      && !w.mic.isRecording && !w.mic.liveRecording && w.mic.state == Ready && !w.mic.micOpen
  {
  }

  /** The drain loop never touches the microphone stream. */
  lemma {:induction false} ResumeLoopKeepsStream(s: Session)
    ensures ResumeLoop(s).mic.micOpen == s.mic.micOpen
    decreases |s.play.queue|
  {
    if |s.play.queue| > 0 && !Audible(Shift(s)) {
      ResumeLoopKeepsStream(Shift(s));
    }
  }

  /** Only stop releases the stream: every other event keeps an open one. */
  lemma OnlyStopReleases(s: Session, i: Input, codec: Base64)
    requires Enabled(s, i) && s.mic.micOpen && !i.Stop?
    ensures Step(s, i, codec).mic.micOpen
  {
    match i
    case Received(Parsed(m)) =>
      if Classify(m).AudioChunk? {
        var data := Classify(m).base64;
        var chunk := DecodeChunk(codec.decode(data));
        var s2 := TakeFloor(EnqueueChunk(InitAudio(s), chunk));
        if chunk.Some? && !s2.play.isPlaying && |s2.play.queue| > 0 {
          ResumeLoopKeepsStream(s2.(play := s2.play.(isPlaying := true)));
        }
      }
    case PlaybackEnded => ResumeLoopKeepsStream(s.(play := s.play.(current := None)));
    case _ =>
  }

  /** Along any run without a stop event, an open stream stays open. */
  lemma {:induction false} NoStopKeepsStream(s: Session, inputs: seq<Input>, codec: Base64)
    requires s.mic.micOpen && forall k :: 0 <= k < |inputs| ==> !inputs[k].Stop?
    ensures Run(s, inputs, codec).mic.micOpen
    decreases |inputs|
  {
    if inputs != [] {
      assert forall k :: 0 <= k < |inputs| - 1 ==> inputs[1..][k] == inputs[k + 1];
      if Enabled(s, inputs[0]) {
        OnlyStopReleases(s, inputs[0], codec);
        NoStopKeepsStream(Step(s, inputs[0], codec), inputs[1..], codec);
      } else {
        NoStopKeepsStream(s, inputs[1..], codec);
      }
    }
  }

  lemma ToggleRecordingBranches(s: Session, o: MicOutcome)
    ensures s.mic.isRecording ==> ToggleRecording(s, o) == PauseRecording(s)
    ensures !s.mic.isRecording ==> ToggleRecording(s, o) == StartRecording(s, o)
  {
  }

  // ---------------------------------------------------------------------------
  // Outbound traffic
  // ---------------------------------------------------------------------------

  /** Opening the channel sends exactly the initiation message and schedules
      the settle delay. */
  lemma OpenSendsInitiation(s: Session)
    ensures var w := OnOpen(s);
      w.chat.outbox == s.chat.outbox + [ClientInitiation("en")] && w.chat.channelOpen
      && w.timers == s.timers + multiset{SettleDelay}
  {
  }

  /** A captured frame is sent only while the channel is open and the live
      flag is set, as one audio chunk. */
  lemma CaptureGuard(s: Session, samples: seq<real>, codec: Base64)
    ensures var w := Capture(s, samples, codec);
      && (s.chat.channelOpen && s.mic.liveRecording ==>
            |w.chat.outbox| == |s.chat.outbox| + 1 && w.chat.outbox[..|s.chat.outbox|] == s.chat.outbox
            && w.chat.outbox[|s.chat.outbox|].UserAudioChunk?)
      && (!s.chat.channelOpen || !s.mic.liveRecording ==> w == s)
  {
  }

  /** End to end: with a base64 pair that round-trips on binary strings, the
      chunk a capture sends decodes, on the receiving path, to the quantised
      samples. */
  lemma {:induction false} CapturedFrameDecodes(s: Session, samples: seq<real>, codec: Base64)
    requires forall x :: Latin1(x) ==> codec.decode(codec.encode(x)) == Some(x)
    requires s.chat.channelOpen && s.mic.liveRecording && samples != []
    ensures var w := Capture(s, samples, codec);
      && |w.chat.outbox| == |s.chat.outbox| + 1
      && w.chat.outbox[|s.chat.outbox|].UserAudioChunk?
      && DecodeChunk(codec.decode(w.chat.outbox[|s.chat.outbox|].audio)) == Some(QuantizeAll(samples))
  {
    var pcm := QuantizeAll(samples);
    var wire := BinaryString(SamplesToBytes(pcm));
    assert codec.decode(codec.encode(wire)) == Some(wire);
    WireRoundTrip(pcm);
  }

  /** Typed text is sent trimmed, logged as a user utterance and the box is
      cleared; text that is all whitespace, or a closed channel, sends
      nothing. */
  lemma SendTypedText(s: Session)
    ensures var w := SendMessage(s); var t := Trim(s.chat.inputText);
      && (!AllSpace(s.chat.inputText) && s.chat.channelOpen ==>
            && w.chat.outbox == s.chat.outbox + [UserMessage(t)]
            && w.chat.messages == s.chat.messages + [Utterance(User, t)]
            && w.chat.inputText == "" && w.chat.agentSpeaking)
      && (AllSpace(s.chat.inputText) || !s.chat.channelOpen ==> w == s)
  {
  }

  // ---------------------------------------------------------------------------
  // A whole turn
  // ---------------------------------------------------------------------------

  /** The channel opens and, after the settle delay, recording starts. */
  lemma OpenThenListen()
    ensures var s2 := FireTimer(OnOpen(Initial), SettleDelay, Allowed);
      && OnOpen(Initial).chat.outbox == [Initiation]
      && s2.mic.state == Listening && s2.mic.isRecording && s2.mic.liveRecording && s2.mic.micOpen
      && s2.sound.audioReady && !s2.sound.muted && !s2.play.isPlaying && s2.play.queue == [] && s2.chat.messages == []
      && s2.timers == multiset{}
  {
  }

  /** From Listening with an idle loop: the transcript pauses the microphone,
      an audio chunk starts playing at once, and its end hands the turn back
      with the resume delay and the silence window pending. */
  lemma TranscriptThenAudio(s2: Session, text: string, base64: string, codec: Base64)
    requires Inv(s2) && s2.mic.state == Listening && s2.mic.micOpen && text != ""
    requires Audible(s2) && !s2.play.isPlaying && s2.timers == multiset{}
    requires base64 != "" && DecodeChunk(codec.decode(base64)).Some?
    ensures var transcript := Inbound(Str(UserTranscriptType), Absent, Text(text), NoText, Absent, NoText);
      var audio := Inbound(Str(AudioType), Absent, NoText, NoText, Absent, Text(base64));
      var s3 := Dispatch(s2, Parsed(transcript), codec);
      var s4 := Dispatch(s3, Parsed(audio), codec);
      && s3.mic.state == Ready && !s3.mic.liveRecording && s3.chat.messages == s2.chat.messages + [Utterance(User, text)]
      && s4.mic.state == Speaking && s4.play.current == DecodeChunk(codec.decode(base64))
      && s4.sound.output == s2.sound.output + [DecodeChunk(codec.decode(base64)).value]
      && var s5 := BufferEnded(s4);
      && s5.mic.state == Ready && !s5.play.isPlaying && s5.mic.micOpen && !s5.mic.isRecording
      && s5.timers == multiset{SilenceWindow, ResumeDelay}
  {
    var transcript := Inbound(Str(UserTranscriptType), Absent, Text(text), NoText, Absent, NoText);
    var s3 := Dispatch(s2, Parsed(transcript), codec);
    TranscriptPausesRecording(s2, transcript, codec);
    DispatchInv(s2, Parsed(transcript), codec);
    assert s3.timers == multiset{} && Audible(s3) && !s3.play.isPlaying;
    AudioTakesTheFloor(s3, base64, codec);
    var s4 := OnAudio(s3, base64, codec);
    assert s4.play.queue == [] && s4.play.current.Some? && s4.timers == multiset{SilenceWindow};
  }

  /** Once the loop has stopped with the microphone paused but open, the
      silence window and its re-check resume Listening. */
  lemma SilenceThenListen(s5: Session)
    requires Inv(s5) && !s5.play.isPlaying && !s5.mic.isRecording && s5.mic.micOpen
    requires SilenceWindow in s5.timers
    ensures var s6 := FireTimer(s5, SilenceWindow, Refused);
      && SilenceRecheck in s6.timers
      && var s7 := FireTimer(s6, SilenceRecheck, Refused);
      && s7.mic.state == Listening && s7.mic.isRecording && s7.mic.liveRecording && s7.mic.micOpen
  {
  }

  /** Byte order on the receiving path: with a pass-through decoder the
      binary string "AB" is the one sample 0x4241 (low byte first). */
  lemma {:induction false} LittleEndianChunk()
    ensures var codec := Base64(x => x, x => Some(x));
      DecodeChunk(codec.decode("AB")) == Some([0x4241])
  {
    DecodeChunkAt("AB", 0);
    var r := DecodeChunk(Some("AB")).value;
    assert |r| == 1;
    assert r[0] == FromLittleEndian(0x41, 0x42) == 0x4241;
    assert r == [0x4241];
  }
}
