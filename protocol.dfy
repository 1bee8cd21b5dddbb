/** The duplex channel's message vocabulary: what an inbound JSON message
    carries (only the fields the dispatcher reads), how the dispatcher
    classifies it, and the outbound messages the session sends. JSON text
    itself (JSON.parse / JSON.stringify) is not modelled. */
module Protocol {

  /** A JSON value as the dispatcher sees it. Numbers are integers here. */
  datatype Value = Absent | Null | Bool(b: bool) | Num(n: int) | Str(s: string) | Composite

  /** JavaScript truthiness, which the `if (data.x?.y)` guards test. */
  predicate Truthy(v: Value)
  {
    match v
    case Absent => false
    case Null => false
    case Bool(b) => b
    case Num(n) => n != 0
    case Str(s) => s != ""
    case Composite => true
  }

  /** A text field: present (as a string) or not. */
  datatype Text = NoText | Text(s: string)

  predicate HasText(t: Text) { t.Text? && t.s != "" }

  /** The fields of one parsed inbound message that the dispatcher reads:
      data.type, ...metadata_event.conversation_id,
      ...user_transcription_event.user_transcript,
      ...agent_response_event.agent_response, ping_event.event_id and
      audio_event.audio_base_64. A missing parent object reads as Absent. */
  datatype Inbound = Inbound(
    kind: Value,
    conversationId: Value,
    userTranscript: Text,
    agentResponse: Text,
    pingEventId: Value,
    audioBase64: Text)

  /** One frame off the channel: JSON.parse succeeded, or it threw (the
      handler's catch swallows it). */
  datatype Frame = Parsed(msg: Inbound) | Unparseable

  /** The dispatcher's decision for one message. `Ignored` covers both the
      default branch and a known type whose guard failed. */
  datatype Event =
    | ConversationMetadata(id: Value)
    | UserTranscript(text: string)
    | AgentResponse(text: string)
    | TentativeAgentResponse
    | Ping(eventId: Value)
    | AudioChunk(base64: string)
    | Interruption
    | Ignored

  const MetadataType := "conversation_initiation_metadata"
  const UserTranscriptType := "user_transcript"
  const AgentResponseType := "agent_response"
  const TentativeType := "internal_tentative_agent_response"
  const PingType := "ping"
  const AudioType := "audio"
  const InterruptionType := "interruption"

  predicate KnownType(kind: Value)
  {
    kind in {Str(MetadataType), Str(UserTranscriptType), Str(AgentResponseType),
             Str(TentativeType), Str(PingType), Str(AudioType), Str(InterruptionType)}
  }

  /** The switch on data.type with each case's guard. */
  function Classify(m: Inbound): (e: Event)
    ensures !KnownType(m.kind) ==> e == Ignored
    ensures e.Ping? ==> m.kind == Str(PingType) && Truthy(e.eventId) && e.eventId == m.pingEventId
    ensures e.ConversationMetadata? ==> Truthy(e.id)
    ensures e.UserTranscript? ==> e.text != "" && m.userTranscript == Text(e.text)
    ensures e.AgentResponse? ==> e.text != "" && m.agentResponse == Text(e.text)
    ensures e.AudioChunk? ==> e.base64 != "" && m.audioBase64 == Text(e.base64)
    // Each event comes from its own type ...
    ensures e.ConversationMetadata? ==> m.kind == Str(MetadataType) && e.id == m.conversationId
    ensures e.UserTranscript? ==> m.kind == Str(UserTranscriptType)
    ensures e.AgentResponse? ==> m.kind == Str(AgentResponseType)
    ensures e.AudioChunk? ==> m.kind == Str(AudioType)
    ensures e.TentativeAgentResponse? <==> m.kind == Str(TentativeType)
    ensures e.Interruption? <==> m.kind == Str(InterruptionType)
    // ... and a known type whose guard holds yields its event.
    ensures m.kind == Str(MetadataType) && Truthy(m.conversationId) ==>
      e == ConversationMetadata(m.conversationId)
    ensures m.kind == Str(UserTranscriptType) && HasText(m.userTranscript) ==>
      e == UserTranscript(m.userTranscript.s)
    ensures m.kind == Str(AgentResponseType) && HasText(m.agentResponse) ==>
      e == AgentResponse(m.agentResponse.s)
    ensures m.kind == Str(PingType) && Truthy(m.pingEventId) ==> e == Ping(m.pingEventId)
    ensures m.kind == Str(AudioType) && HasText(m.audioBase64) ==> e == AudioChunk(m.audioBase64.s)
  {
    if m.kind == Str(MetadataType) then
      if Truthy(m.conversationId) then ConversationMetadata(m.conversationId) else Ignored
    else if m.kind == Str(UserTranscriptType) then
      if HasText(m.userTranscript) then UserTranscript(m.userTranscript.s) else Ignored
    else if m.kind == Str(AgentResponseType) then
      if HasText(m.agentResponse) then AgentResponse(m.agentResponse.s) else Ignored
    else if m.kind == Str(TentativeType) then
      TentativeAgentResponse
    else if m.kind == Str(PingType) then
      if Truthy(m.pingEventId) then Ping(m.pingEventId) else Ignored
    else if m.kind == Str(AudioType) then
      if HasText(m.audioBase64) then AudioChunk(m.audioBase64.s) else Ignored
    else if m.kind == Str(InterruptionType) then
      Interruption
    else
      Ignored
  }

  /** A ping is answered exactly when its event id is truthy; so a ping whose
      id is 0 or "" gets no pong. */
  lemma PingAnsweredIffTruthyId(m: Inbound)
    requires m.kind == Str(PingType)
    ensures Classify(m).Ping? <==> Truthy(m.pingEventId)
    ensures Classify(m).Ping? ==> Classify(m).eventId == m.pingEventId
  {
  }

  /** Outbound messages (client to server). */
  datatype OutMsg =
    | ClientInitiation(language: string)
    | UserAudioChunk(audio: string)
    | Pong(eventId: Value)
    | UserMessage(text: string)

  /** The initiation message sent once the channel opens. */
  const Initiation: OutMsg := ClientInitiation("en")

  // ---------------------------------------------------------------------------
  // String.prototype.trim
  // ---------------------------------------------------------------------------

  /** ECMAScript WhiteSpace and LineTerminator code points. */
  predicate IsJsSpace(c: char)
  {
    || ('\U{9}' <= c <= '\U{D}')
    || c == ' ' || c == '\U{A0}' || c == '\U{1680}'
    || ('\U{2000}' <= c <= '\U{200A}')
    || c == '\U{2028}' || c == '\U{2029}' || c == '\U{202F}' || c == '\U{205F}'
    || c == '\U{3000}' || c == '\U{FEFF}'
  }

  predicate AllSpace(s: string)
  {
    forall i :: 0 <= i < |s| ==> IsJsSpace(s[i])
  }

  lemma AllSpaceConcat(a: string, b: string)
    requires AllSpace(a) && AllSpace(b)
    ensures AllSpace(a + b)
  {
  }

  /** The length of the whitespace run at the front. */
  function LeadingSpace(s: string): (n: nat)
    ensures n <= |s| && AllSpace(s[..n])
    ensures n < |s| ==> !IsJsSpace(s[n])
  {
    if s != [] && IsJsSpace(s[0]) then
      var m := LeadingSpace(s[1..]);
      assert s[..m + 1] == [s[0]] + s[1..][..m];
      AllSpaceConcat([s[0]], s[1..][..m]);
      m + 1
    else 0
  }

  /** The length of the whitespace run at the back. */
  function TrailingSpace(s: string): (n: nat)
    ensures n <= |s| && AllSpace(s[|s| - n..])
    ensures n < |s| ==> !IsJsSpace(s[|s| - n - 1])
  {
    if s != [] && IsJsSpace(s[|s| - 1]) then
      var t := s[..|s| - 1];
      var m := TrailingSpace(t);
      assert s[|s| - (m + 1)..] == t[|t| - m..] + [s[|s| - 1]];
      AllSpaceConcat(t[|t| - m..], [s[|s| - 1]]);
      m + 1
    else 0
  }

  /** s.trim(): neither end of the result is whitespace, and it is empty
      exactly when s is all whitespace. */
  function Trim(s: string): (r: string)
    ensures |r| <= |s|
    ensures r == [] || (!IsJsSpace(r[0]) && !IsJsSpace(r[|r| - 1]))
    ensures r == [] <==> AllSpace(s)
  {
    var i := LeadingSpace(s);
    if i == |s| then
      assert s[..i] == s;
      []
    else
      var n := TrailingSpace(s);
      s[i..|s| - n]
  }

  /** trim removes whitespace and nothing else: s is the result with a
      whitespace run on either side. */
  lemma {:induction false} TrimRemovesOnlySpace(s: string)
    ensures var r := Trim(s);
      exists i :: 0 <= i <= |s| - |r| && s == s[..i] + r + s[i + |r|..]
                  && AllSpace(s[..i]) && AllSpace(s[i + |r|..])
  {
    var r := Trim(s);
    var i := LeadingSpace(s);
    if i == |s| {
      assert s == s[..i] + r + s[i + |r|..];
    } else {
      var n := TrailingSpace(s);
      assert r == s[i..|s| - n];
      assert s[i + |r|..] == s[|s| - n..];
      assert s == s[..i] + s[i..|s| - n] + s[|s| - n..];
    }
  }

  /** Trimming twice is trimming once. */
  lemma {:induction false} TrimIdempotent(s: string)
    ensures Trim(Trim(s)) == Trim(s)
  {
    var r := Trim(s);
    if r != [] {
      assert LeadingSpace(r) == 0;
      assert TrailingSpace(r) == 0;
      assert r[0..|r|] == r;
    }
  }
}
