/** The voice session controller as an object updated in place.

    `Conversation` holds the controller's React state and refs, grouped as in
    module Turn: the transcript and channel, the microphone, the sound output,
    the drain loop's refs, the pending timers and a ghost history of the
    queue. The channel and the audio output are the logs `chat.outbox` and
    `sound.output` it appends to. Every handler is proved to perform exactly
    the transition of the same name in module Turn, so everything proved
    there about sessions holds of this object, and every public handler keeps
    the session invariant. */
module Controller {
  import opened Pcm
  import opened Protocol
  import Turn

  /** The inbound decoding path of handleAudioChunk: atob, the char-code copy
      loop into a byte array, the Int16Array view and the createBuffer length
      check. */
  method DecodeAudio(base64: string, codec: Turn.Base64) returns (chunk: Option<Turn.Buffer>)
    ensures chunk == DecodeChunk(codec.decode(base64))
    ensures chunk.Some? ==>
      codec.decode(base64).Some? && 2 * |chunk.value| == |codec.decode(base64).value|
  {
    var decoded := codec.decode(base64);
    if decoded.None? {
      return None;
    }
    var bytes := CharCodes(decoded.value);
    var pcm := BytesToSamples(bytes);
    if pcm.None? || |pcm.value| == 0 {
      return None;
    }
    chunk := pcm;
  }

  /** The outbound encoding path of the capture callback: the quantisation
      loop, the byte view, String.fromCharCode and btoa. */
  method EncodeFrame(input: seq<real>, codec: Turn.Base64) returns (audio: string)
    ensures audio == codec.encode(BinaryString(SamplesToBytes(QuantizeAll(input))))
  {
    var pcm := QuantizeFrame(input);
    audio := codec.encode(BinaryString(SamplesToBytes(pcm)));
  }

  class Conversation {
    var chat: Turn.Chat
    var mic: Turn.Mic
    var sound: Turn.Sound
    var play: Turn.Playback
    var timers: multiset<Turn.Timer>
    ghost var history: Turn.History

    /** The session this object is in. */
    ghost function View(): Turn.Session
      reads this
    {
      Turn.Session(chat, mic, sound, play, timers, history)
    }

    ghost predicate Valid()
      reads this
    {
      Turn.Inv(View())
    }

    /** The component mounts with its initial state. */
    constructor ()
      ensures View() == Turn.Initial
      ensures Valid()
    {
      chat := Turn.Chat([], "", false, Null, false, []);
      mic := Turn.Mic(false, false, Turn.Prompt, Turn.Ready, false);
      sound := Turn.Sound(false, false, 1, []);
      play := Turn.Playback([], false, None);
      timers := multiset{};
      history := Turn.History([], []);
      Turn.InitialInv();
    }

    // -------------------------------------------------------------------------
    // Recording controls
    // -------------------------------------------------------------------------

    /** initAudio (also the enable-audio button): the playback context and a
        gain node at 1, created once. */
    method InitAudio()
      modifies this
      ensures View() == Turn.InitAudio(old(View()))
      ensures old(Valid()) ==> Valid()
    {
      if !sound.audioReady {
        sound := sound.(audioReady := true, gain := 1);
      }
    }

    /** startRecording, with the settled outcome of the permission prompt. */
    method StartRecording(outcome: Turn.MicOutcome)
      requires Valid()
      modifies this
      ensures View() == Turn.StartRecording(old(View()), outcome)
      ensures Valid()
    {
      Turn.StartRecordingInv(View(), outcome);
      if mic.isRecording {
        return;
      }
      if mic.micOpen {
        mic := mic.(isRecording := true, liveRecording := true, state := Turn.Listening);
        return;
      }
      match outcome
      case Refused =>
        mic := mic.(permission := Turn.Denied, state := Turn.Ready);
      case Allowed =>
        mic := Turn.Mic(true, true, Turn.Granted, Turn.Listening, true);
        InitAudio();
    }

    /** pauseRecording: the stream stays open. Callable from any state (the
        transcript handler calls it right after writing Processing). */
    method PauseRecording()
      modifies this
      ensures View() == Turn.PauseRecording(old(View()))
      ensures old(Valid()) ==> Valid()
    {
      mic := mic.(isRecording := false, liveRecording := false, state := Turn.Ready);
    }

    /** stopRecording: the stream is released. */
    method StopRecording()
      requires Valid()
      modifies this
      ensures View() == Turn.StopRecording(old(View()))
      ensures Valid()
    {
      mic := mic.(isRecording := false, liveRecording := false, state := Turn.Ready,
                  micOpen := false);
    }

    method ToggleRecording(outcome: Turn.MicOutcome)
      requires Valid()
      modifies this
      ensures View() == Turn.ToggleRecording(old(View()), outcome)
      ensures Valid()
    {
      if mic.isRecording {
        PauseRecording();
      } else {
        StartRecording(outcome);
      }
    }

    /** toggleMute: flip the flag; set the shared gain if the node exists. */
    method ToggleMute()
      requires Valid()
      modifies this
      ensures View() == Turn.ToggleMute(old(View()))
      ensures Valid()
    {
      var m := !sound.muted;
      sound := sound.(muted := m);
      if sound.audioReady {
        sound := sound.(gain := if m then 0 else 1);
      }
    }

    // -------------------------------------------------------------------------
    // Playback
    // -------------------------------------------------------------------------

    /** processAudioQueue */
    method ProcessAudioQueue()
      modifies this
      ensures View() == Turn.ProcessQueue(old(View()))
    {
      if play.isPlaying || |play.queue| == 0 {
        return;
      }
      play := play.(isPlaying := true);
      Resume();
    }

    /** The drain loop from the top of an iteration, up to its next await:
        it stops once an audible buffer has been started (the loop then awaits
        that buffer's end) or, the queue drained, after the loop's epilogue. */
    method Resume()
      modifies this
      ensures View() == Turn.ResumeLoop(old(View()))
    {
      ghost var start := View();
      var started := false;
      while |play.queue| > 0 && !started
        invariant started ==> View() == Turn.ResumeLoop(start)
        invariant !started ==> Turn.ResumeLoop(View()) == Turn.ResumeLoop(start)
        decreases |play.queue|, if started then 0 else 1
      {
        var b := ShiftQueue();
        if sound.audioReady && !sound.muted {
          StartBuffer(b);
          started := true;
        }
      }
      if !started {
        FinishPlayback();
      }
    }

    /** queue.shift() */
    method ShiftQueue() returns (b: Turn.Buffer)
      requires play.queue != []
      modifies this
      ensures b == old(play.queue[0])
      ensures View() == Turn.Shift(old(View()))
    {
      b := play.queue[0];
      play := play.(queue := play.queue[1..]);
      history := history.(removed := history.removed + [b]);
    }

    /** playAudioBuffer past its guard: a buffer source is started. */
    method StartBuffer(b: Turn.Buffer)
      modifies this
      ensures View() == Turn.StartBuffer(old(View()), b)
    {
      sound := sound.(output := sound.output + [b]);
      play := play.(current := Some(b));
    }

    /** The epilogue of processAudioQueue. */
    method FinishPlayback()
      modifies this
      ensures View() == Turn.FinishPlayback(old(View()))
    {
      play := play.(isPlaying := false);
      if !mic.isRecording {
        mic := mic.(state := Turn.Ready);
        timers := timers + multiset{Turn.ResumeDelay};
      }
    }

    /** The onended event of the buffer being played resumes the loop. */
    method BufferEnded()
      requires Valid() && play.current.Some?
      modifies this
      ensures View() == Turn.BufferEnded(old(View()))
      ensures Valid()
    {
      Turn.BufferEndedInv(View());
      play := play.(current := None);
      Resume();
    }

    // -------------------------------------------------------------------------
    // Inbound messages
    // -------------------------------------------------------------------------

    /** The audio case: decode and push the chunk, mark the agent speaking and
        replace the silence window, then run the drain loop. The handler's
        writes come before the loop here: an audible first buffer is started
        before them in the browser but touches none of the fields they write,
        and a muted loop only goes on in a microtask after the handler. */
    method OnAudio(base64: string, codec: Turn.Base64)
      requires Valid()
      modifies this
      ensures View() == Turn.OnAudio(old(View()), base64, codec)
      ensures Valid()
    {
      Turn.OnAudioInv(View(), base64, codec);
      InitAudio();
      var chunk := DecodeAudio(base64, codec);
      EnqueueChunk(chunk);
      TakeFloor();
      if chunk.Some? {
        ProcessAudioQueue();
      }
    }

    /** audioQueueRef.current.push, for a chunk that decoded. */
    method EnqueueChunk(chunk: Option<Turn.Buffer>)
      modifies this
      ensures View() == Turn.EnqueueChunk(old(View()), chunk)
    {
      if chunk.Some? {
        play := play.(queue := play.queue + [chunk.value]);
        history := history.(enqueued := history.enqueued + [chunk.value]);
      }
    }

    /** The audio case's own writes, the silence window replaced. */
    method TakeFloor()
      modifies this
      ensures View() == Turn.TakeFloor(old(View()))
    {
      chat := chat.(agentSpeaking := true);
      mic := mic.(state := Turn.Speaking);
      timers := timers[Turn.SilenceWindow := 0] + multiset{Turn.SilenceWindow};
    }

    /** ws.onmessage */
    method OnMessage(frame: Frame, codec: Turn.Base64)
      requires Valid()
      modifies this
      ensures View() == Turn.Dispatch(old(View()), frame, codec)
      ensures Valid()
    {
      Turn.DispatchInv(View(), frame, codec);
      match frame
      case Unparseable =>
      case Parsed(m) =>
        match Classify(m)
        case ConversationMetadata(id) => OnMetadata(id);
        case UserTranscript(text) => OnUserTranscript(text);
        case AgentResponse(text) => OnAgentResponse(text);
        case TentativeAgentResponse => OnTentativeResponse();
        case Ping(id) => OnPing(id);
        case AudioChunk(data) => OnAudio(data, codec);
        case Interruption => OnInterruption();
        case Ignored =>
    }

    method OnMetadata(id: Value)
      modifies this
      ensures View() == Turn.OnMetadata(old(View()), id)
    {
      chat := chat.(conversationId := id);
    }

    /** Log the utterance, write Processing, then pause recording. */
    method OnUserTranscript(text: string)
      modifies this
      ensures View() == Turn.OnUserTranscript(old(View()), text)
    {
      chat := chat.(messages := chat.messages + [Turn.Utterance(Turn.User, text)]);
      mic := mic.(state := Turn.Processing);
      PauseRecording();
    }

    method OnAgentResponse(text: string)
      modifies this
      ensures View() == Turn.OnAgentResponse(old(View()), text)
    {
      chat := chat.(messages := chat.messages + [Turn.Utterance(Turn.Agent, text)],
                    agentSpeaking := false);
    }

    method OnTentativeResponse()
      modifies this
      ensures View() == Turn.OnTentativeResponse(old(View()))
    {
      chat := chat.(agentSpeaking := true);
      mic := mic.(state := Turn.Speaking);
    }

    /** Answer a ping with a pong echoing its event id. */
    method OnPing(id: Value)
      modifies this
      ensures View() == Turn.OnPing(old(View()), id)
    {
      chat := chat.(outbox := chat.outbox + [Pong(id)]);
    }

    /** Drop the pending audio; the buffer playing is not stopped. */
    method OnInterruption()
      modifies this
      ensures View() == Turn.OnInterruption(old(View()))
    {
      chat := chat.(agentSpeaking := false);
      history := history.(removed := history.removed + play.queue);
      play := play.(queue := []);
    }

    // -------------------------------------------------------------------------
    // Channel, capture, typed input, timers
    // -------------------------------------------------------------------------

    /** ws.onopen */
    method OnOpen()
      requires Valid()
      modifies this
      ensures View() == Turn.OnOpen(old(View()))
      ensures Valid()
    {
      chat := chat.(channelOpen := true, outbox := chat.outbox + [Initiation]);
      timers := timers + multiset{Turn.SettleDelay};
    }

    /** ws.onerror and ws.onclose */
    method OnClose()
      requires Valid()
      modifies this
      ensures View() == Turn.OnClose(old(View()))
      ensures Valid()
    {
      chat := chat.(channelOpen := false);
    }

    /** processor.onaudioprocess */
    method OnAudioProcess(input: seq<real>, codec: Turn.Base64)
      requires Valid()
      modifies this
      ensures View() == Turn.Capture(old(View()), input, codec)
      ensures Valid()
    {
      if !chat.channelOpen || !mic.liveRecording {
        return;
      }
      var audio := EncodeFrame(input, codec);
      chat := chat.(outbox := chat.outbox + [UserAudioChunk(audio)]);
    }

    /** The `inputText` state setter, taken as an event. */
    method SetInputText(text: string)
      requires Valid()
      modifies this
      ensures View() == Turn.SetInputText(old(View()), text)
      ensures Valid()
    {
      chat := chat.(inputText := text);
    }

    /** sendMessage */
    method SendMessage()
      requires Valid()
      modifies this
      ensures View() == Turn.SendMessage(old(View()))
      ensures Valid()
    {
      var text := Trim(chat.inputText);
      if text == "" || !chat.channelOpen {
        return;
      }
      chat := chat.(outbox := chat.outbox + [UserMessage(text)],
                    messages := chat.messages + [Turn.Utterance(Turn.User, text)],
                    inputText := "", agentSpeaking := true);
    }

    /** A pending setTimeout callback runs. */
    method FireTimer(t: Turn.Timer, outcome: Turn.MicOutcome)
      requires Valid() && t in timers
      modifies this
      ensures View() == Turn.FireTimer(old(View()), t, outcome)
      ensures Valid()
    {
      Turn.FireTimerInv(View(), t, outcome);
      Turn.RemoveTimerInv(View(), t);
      timers := timers - multiset{t};
      match t
      case SettleDelay =>
        StartRecording(outcome);
      case ResumeDelay =>
        StartRecording(outcome);
      case SilenceWindow =>
        timers := timers + multiset{Turn.SilenceRecheck};
      case SilenceRecheck =>
        if !mic.isRecording && !play.isPlaying {
          mic := mic.(state := Turn.Ready);
          StartRecording(outcome);
        }
    }
  }
}
