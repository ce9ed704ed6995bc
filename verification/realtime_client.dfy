/** `RealtimeClient` (src/realtime_client.py): the events it sends over
    the WebSocket and the classification of received events into at most
    one callback each. The socket is abstract; whether a send or a connect
    succeeds is an input. */
module RealtimeClient {
  import opened Wrappers
  import opened Pcm16
  import Base64

  // ---------------------------------------------------------------------
  // Received events

  const AudioDeltaType := "response.audio.delta"
  const SpeechStartedType := "input_audio_buffer.speech_started"
  const UserTranscriptType := "conversation.item.input_audio_transcription.completed"
  const AgentTranscriptType := "response.audio_transcript.done"
  const ResponseCreatedType := "response.created"
  const ResponseDoneType := "response.done"
  const ErrorType := "error"
  const CancelNotActiveCode := "response_cancel_not_active"

  /** The event types `receive_loop` acts on. */
  const KnownTypes: set<string> := {AudioDeltaType, SpeechStartedType, UserTranscriptType,
                                    AgentTranscriptType, ResponseCreatedType, ResponseDoneType, ErrorType}

  /** The `error` member of an event: absent (read as `{}`), an object with
      an optional `code`, or some other JSON value. */
  datatype ErrorField = Absent | ErrorObject(code: Option<string>) | NotAnObject

  /** A received WebSocket message after `json.loads`: either not a JSON
      object, or an object with the members the loop reads. */
  datatype Incoming =
    | Malformed
    | Event(eventType: Option<string>, delta: Option<string>, transcript: Option<string>, error: ErrorField)

  /** Which callbacks were registered (the others are `None`). */
  datatype Handlers = Handlers(
    audioDelta: bool, userTranscript: bool, agentTranscript: bool,
    speechStarted: bool, responseDone: bool, responseCreated: bool)

  /** A callback invocation with its argument. */
  datatype Callback =
    | AudioDelta(audio: seq<byte>)
    | UserTranscript(text: Option<string>)
    | AgentTranscript(text: Option<string>)
    | SpeechStarted
    | ResponseCreated
    | ResponseDone

  /** What the loop does with an event that invokes no callback. */
  datatype Note = Ignored | CancelNotActiveInfo | ApiError

  /** The outcome of one received message. `Abort` is an exception that
      ends `receive_loop`. */
  datatype Dispatch = Invoke(callback: Callback) | NoCallback(note: Note) | Abort

  /** The event type each callback answers. */
  function TypeOf(cb: Callback): (t: string)
    ensures t in KnownTypes && t != ErrorType
  {
    match cb
    case AudioDelta(_) => AudioDeltaType
    case UserTranscript(_) => UserTranscriptType
    case AgentTranscript(_) => AgentTranscriptType
    case SpeechStarted => SpeechStartedType
    case ResponseCreated => ResponseCreatedType
    case ResponseDone => ResponseDoneType
  }

  predicate Registered(h: Handlers, cb: Callback)
  {
    match cb
    case AudioDelta(_) => h.audioDelta
    case UserTranscript(_) => h.userTranscript
    case AgentTranscript(_) => h.agentTranscript
    case SpeechStarted => h.speechStarted
    case ResponseCreated => h.responseCreated
    case ResponseDone => h.responseDone
  }

  /** The body of `receive_loop` for one message: an if/elif chain on the
      event type choosing at most one callback. */
  function Classify(m: Incoming, h: Handlers): (d: Dispatch)
    ensures m.Malformed? ==> d == Abort
    // a callback is only invoked for its own event type, and only if registered
    ensures d.Invoke? ==> m.Event? && m.eventType == Some(TypeOf(d.callback)) && Registered(h, d.callback)
    // audio arrives only from a non-empty delta, decoded from base64
    ensures d.Invoke? && d.callback.AudioDelta? ==>
      m.delta.Some? && m.delta.value != "" && Base64.Decode(m.delta.value) == Some(d.callback.audio)
    ensures d.Invoke? && (d.callback.UserTranscript? || d.callback.AgentTranscript?) ==>
      d.callback.text == m.transcript
    // a registered handler is invoked for every event of its type
    ensures (m.Event? && m.eventType == Some(AudioDeltaType) && h.audioDelta && m.delta.Some? && m.delta.value != ""
             && Base64.Decode(m.delta.value).Some?)
            ==> d == Invoke(AudioDelta(Base64.Decode(m.delta.value).value))
    ensures m.Event? && m.eventType == Some(SpeechStartedType) && h.speechStarted ==> d == Invoke(SpeechStarted)
    ensures m.Event? && m.eventType == Some(UserTranscriptType) && h.userTranscript ==> d == Invoke(UserTranscript(m.transcript))
    ensures m.Event? && m.eventType == Some(AgentTranscriptType) && h.agentTranscript ==> d == Invoke(AgentTranscript(m.transcript))
    ensures m.Event? && m.eventType == Some(ResponseCreatedType) && h.responseCreated ==> d == Invoke(ResponseCreated)
    ensures m.Event? && m.eventType == Some(ResponseDoneType) && h.responseDone ==> d == Invoke(ResponseDone)
    // an event whose handler is missing, or an empty delta, is ignored
    ensures (m.Event? && m.eventType.Some? && m.eventType.value in KnownTypes && m.eventType != Some(ErrorType)
             && !d.Invoke? && d != Abort)
            ==> d == NoCallback(Ignored)
    // every error other than the cancel notice is reported as an API error
    ensures (m.Event? && m.eventType == Some(ErrorType) && !m.error.NotAnObject?
             && m.error != ErrorObject(Some(CancelNotActiveCode)))
            ==> d == NoCallback(ApiError)
    // unknown types are ignored; errors never reach a callback
    ensures m.Event? && (m.eventType.None? || m.eventType.value !in KnownTypes) ==> d == NoCallback(Ignored)
    ensures m.Event? && m.eventType == Some(ErrorType) ==> !d.Invoke?
    ensures d == NoCallback(CancelNotActiveInfo) <==>
      m.Event? && m.eventType == Some(ErrorType) && m.error == ErrorObject(Some(CancelNotActiveCode))
    // the loop ends only on a malformed message, an undecodable delta or a non-object error
    ensures d == Abort <==>
      || m.Malformed?
      || (m.eventType == Some(AudioDeltaType) && m.delta.Some? && m.delta.value != "" && h.audioDelta
          && Base64.Decode(m.delta.value).None?)
      || (m.eventType == Some(ErrorType) && m.error.NotAnObject?)
  {
    match m
    case Malformed => Abort
    case Event(t, delta, transcript, error) =>
      if t == Some(AudioDeltaType) then
        if delta.Some? && delta.value != "" && h.audioDelta then
          match Base64.Decode(delta.value)
          case Some(audio) => Invoke(AudioDelta(audio))
          case None => Abort
        else NoCallback(Ignored)
      else if t == Some(SpeechStartedType) then
        if h.speechStarted then Invoke(SpeechStarted) else NoCallback(Ignored)
      else if t == Some(UserTranscriptType) then
        if h.userTranscript then Invoke(UserTranscript(transcript)) else NoCallback(Ignored)
      else if t == Some(AgentTranscriptType) then
        if h.agentTranscript then Invoke(AgentTranscript(transcript)) else NoCallback(Ignored)
      else if t == Some(ResponseCreatedType) then
        if h.responseCreated then Invoke(ResponseCreated) else NoCallback(Ignored)
      else if t == Some(ResponseDoneType) then
        if h.responseDone then Invoke(ResponseDone) else NoCallback(Ignored)
      else if t == Some(ErrorType) then
        match error
        case NotAnObject => Abort
        case Absent => NoCallback(ApiError)
        case ErrorObject(code) =>
          if code == Some(CancelNotActiveCode) then NoCallback(CancelNotActiveInfo) else NoCallback(ApiError)
      else NoCallback(Ignored)
  }

  /** The callbacks `receive_loop` makes over `msgs`, and whether it has
      stopped on an exception. */
  function Received(msgs: seq<Incoming>, h: Handlers): (r: (seq<Callback>, bool))
    decreases |msgs|
  {
    if msgs == [] then ([], false)
    else
      var n := |msgs| - 1;
      var prev := Received(msgs[..n], h);
      if prev.1 then prev
      else
        match Classify(msgs[n], h)
        case Invoke(cb) => (prev.0 + [cb], false)
        case NoCallback(_) => prev
        case Abort => (prev.0, true)
  }

  /** Every message makes at most one callback, and every callback made
      answers its own event type. */
  lemma {:induction false} ReceivedAtMostOnePerMessage(msgs: seq<Incoming>, h: Handlers)
    ensures |Received(msgs, h).0| <= |msgs|
    ensures forall cb :: cb in Received(msgs, h).0 ==>
      Registered(h, cb) && exists m :: m in msgs && m.Event? && m.eventType == Some(TypeOf(cb))
    decreases |msgs|
  {
    if msgs != [] {
      var n := |msgs| - 1;
      ReceivedAtMostOnePerMessage(msgs[..n], h);
      forall cb | cb in Received(msgs, h).0
        ensures Registered(h, cb) && exists m :: m in msgs && m.Event? && m.eventType == Some(TypeOf(cb))
      {
        if cb in Received(msgs[..n], h).0 {
          var m :| m in msgs[..n] && m.Event? && m.eventType == Some(TypeOf(cb));
          assert m in msgs;
        } else {
          assert msgs[n] in msgs;
        }
      }
    }
  }

  /** Once the loop has stopped, later messages change nothing. */
  lemma {:induction false} StoppedStays(msgs: seq<Incoming>, h: Handlers, k: nat)
    requires k <= |msgs| && Received(msgs[..k], h).1
    ensures Received(msgs, h) == Received(msgs[..k], h)
    decreases |msgs| - k
  {
    if k < |msgs| {
      var n := |msgs| - 1;
      assert msgs[..n][..k] == msgs[..k];
      StoppedStays(msgs[..n], h, k);
    } else {
      assert msgs[..k] == msgs;
    }
  }

  /** `receive_loop` over the messages of a connection (`async for`):
      classify each in turn and stop on the first exception. */
  method ReceiveLoop(msgs: seq<Incoming>, h: Handlers) returns (calls: seq<Callback>, stopped: bool)
    ensures (calls, stopped) == Received(msgs, h)
  {
    calls, stopped := [], false;
    var k := 0;
    while k < |msgs| && !stopped
      invariant 0 <= k <= |msgs|
      invariant (calls, stopped) == Received(msgs[..k], h)
    {
      assert msgs[..k + 1][..k] == msgs[..k] && msgs[..k + 1][k] == msgs[k];
      var d := Classify(msgs[k], h);
      if d.Invoke? {
        calls := calls + [d.callback];
      } else if d.Abort? {
        stopped := true;
      }
      k := k + 1;
    }
    if stopped {
      StoppedStays(msgs, h, k);
    } else {
      assert msgs[..k] == msgs;
    }
  }

  // ---------------------------------------------------------------------
  // Sent events

  datatype TurnDetection = TurnDetection(kind: string, threshold: real, prefixPaddingMs: int, silenceDurationMs: int)

  datatype Session = Session(
    modalities: seq<string>, instructions: string, voice: string,
    inputAudioFormat: string, outputAudioFormat: string, turnDetection: TurnDetection)

  /** The events the client sends (before `json.dumps`). */
  datatype OutEvent =
    | SessionUpdate(session: Session)
    | InputAudioBufferAppend(audio: string)
    | ResponseCancel

  /** The session configuration `connect` sends: audio and text, PCM16 both
      ways, the "alloy" voice and server-side voice activity detection. */
  const DefaultSession := Session(
    ["audio", "text"],
    "You are Kikai-kun, a friendly and helpful mechanical assistant. Keep your responses concise and conversational. You are chatting via voice.",
    "alloy", "pcm16", "pcm16",
    TurnDetection("server_vad", 0.1, 300, 200))

  /** The client's WebSocket: none yet, open, or closed. */
  datatype Socket = NoSocket | Open | Closed

  class Client {
    var ws: Socket
    /** Events the server has received, in order. */
    var sent: seq<OutEvent>
    const handlers: Handlers

    constructor (handlers: Handlers)
      ensures ws == NoSocket && sent == [] && this.handlers == handlers
    {
      ws := NoSocket;
      sent := [];
      this.handlers := handlers;
    }

    /** `send_event`: nothing is sent without a socket; a send that fails
        (`sendOk` false, or a closed socket) is swallowed. */
    method SendEvent(e: OutEvent, sendOk: bool)
      modifies this`sent
      ensures sent == old(sent) + (if ws == Open && sendOk then [e] else [])
    {
      if ws != NoSocket {
        if ws == Open && sendOk {
          sent := sent + [e];
        }
      }
    }

    /** `send_audio`: the raw PCM16 bytes travel base64-encoded in an
        `input_audio_buffer.append` event, and decode back to themselves. */
    method SendAudio(audio: seq<byte>, sendOk: bool)
      modifies this`sent
      ensures sent == old(sent) + (if ws == Open && sendOk then [InputAudioBufferAppend(Base64.Encode(audio))] else [])
      ensures ws == Open && sendOk ==> Base64.Decode(sent[|sent| - 1].audio) == Some(audio)
    {
      var encoded := Base64.Encode(audio);
      Base64.DecodeEncode(audio);
      SendEvent(InputAudioBufferAppend(encoded), sendOk);
    }

    /** `cancel_response`: exactly one `response.cancel` event. */
    method CancelResponse(sendOk: bool)
      modifies this`sent
      ensures sent == old(sent) + (if ws == Open && sendOk then [ResponseCancel] else [])
    {
      SendEvent(ResponseCancel, sendOk);
    }

    /** `connect`: `connectOk` says whether the WebSocket handshake
        succeeds (otherwise `connect` raises and `ok` is false); the session
        configuration is sent first. */
    method Connect(connectOk: bool, sendOk: bool) returns (ok: bool)
      modifies this`ws, this`sent
      ensures ok == connectOk
      ensures !connectOk ==> ws == old(ws) && sent == old(sent)
      ensures connectOk ==> ws == Open && sent == old(sent) + (if sendOk then [SessionUpdate(DefaultSession)] else [])
    {
      if !connectOk {
        return false;
      }
      ws := Open;
      SendEvent(SessionUpdate(DefaultSession), sendOk);
      ok := true;
    }

    /** `close`. */
    method Close()
      modifies this`ws
      ensures ws == if old(ws) == NoSocket then NoSocket else Closed
    {
      if ws != NoSocket {
        ws := Closed;
      }
    }
  }
}
