/** The session controller of `RealtimeVoiceAssistant` as a state machine over
    values: the flags the handlers flip, the chat transcript, and a log of the
    calls the page makes into the browser (open or close a socket, create or
    close an audio context, send a frame, start a playback). Sockets, the
    microphone and the audio graph are opaque: their callbacks are the inputs
    of `Step`. */
module Session {
  import opened Wrappers
  import opened Chat
  import opened Events

  /** Sockets are numbered in the order `connect` creates them. */
  type SocketId = nat

  /** The texts the page writes into its status line. */
  datatype Status =
    | Idle               // whatever the page shows before the first click
    | Connecting         // "Connecting..."
    | SettingUpAudio     // "Connected! Setting up audio..."
    | Listening          // "Listening... (speak naturally)"
    | MicrophoneRequired // "Microphone access required"
    | Disconnected       // "Disconnected"
    | ConnectionError    // "Connection error"
    | FailedToConnect    // "Failed to connect"

  /** What the page asks of the browser. */
  datatype Effect =
    | OpenSocket(socket: SocketId)
    | CloseSocket(socket: SocketId)
    | OpenAudioContext
    | CloseAudioContext
    | SendAudio(socket: SocketId, audio: string)
    | PlayAudio(audio: string)

  /** How an awaited `setupAudio` ends: the microphone granted and the graph
      built; `getUserMedia` rejected (before any audio context exists); or a
      throw after the audio context was created. */
  datatype SetupOutcome = Granted | Denied | FailedAfterContext

  /** The object's fields. `websocket` and `audioContext` keep only whether
      they are set (and which socket); `pendingSetups` counts the `setupAudio`
      calls still awaiting the microphone. */
  datatype State = State(
    isConnected: bool,
    isRecording: bool,
    websocket: Option<SocketId>,
    socketsCreated: nat,
    hasAudioContext: bool,
    pendingSetups: nat,
    status: Status,
    history: History,
    effects: seq<Effect>)

  /** The browser callbacks that drive the controller. `Click` says whether
      `new WebSocket` succeeded, should the click lead to `connect`. */
  datatype Input =
    | Click(socketCreated: bool)
    | SocketOpened
    | SocketClosed
    | SocketFailed
    | AudioSetupDone(outcome: SetupOutcome)
    | AudioFrame(audio: string)
    | ServerMessage(message: WireEvent)

  /** The constructor's state. */
  function Init(): (r: State)
    ensures Valid(r)
    ensures !r.isConnected && !r.isRecording && !r.hasAudioContext
    ensures r.websocket == None && r.pendingSetups == 0 && r.history == [] && r.effects == []
  {
    State(false, false, None, 0, false, 0, Idle, [], [])
  }

  /** The invariant every reachable state keeps: the socket field names the
      most recently created socket, and none of the flags is set before a
      socket exists. */
  predicate Valid(s: State)
  {
    && s.websocket == (if s.socketsCreated == 0 then None else Some(s.socketsCreated - 1))
    && (s.isConnected || s.isRecording || s.hasAudioContext || s.pendingSetups > 0 ==> s.websocket.Some?)
  }

  /** `cleanupAudio`: close and drop the audio context, if there is one. */
  function CleanupAudio(s: State): (r: State)
    ensures !r.hasAudioContext
    ensures !s.hasAudioContext ==> r == s
    ensures r.(hasAudioContext := s.hasAudioContext, effects := s.effects) == s
    ensures s.hasAudioContext ==> r.effects == s.effects + [CloseAudioContext]
  {
    if s.hasAudioContext then s.(hasAudioContext := false, effects := s.effects + [CloseAudioContext])
    else s
  }

  /** `connect`: show "Connecting...", then create a socket, replacing the
      field without closing an earlier socket; if the constructor throws, show
      "Failed to connect" and keep the old field. */
  function Connect(s: State, socketCreated: bool): (r: State)
    ensures r.isConnected == s.isConnected && r.isRecording == s.isRecording
    ensures r.hasAudioContext == s.hasAudioContext && r.pendingSetups == s.pendingSetups
    ensures r.history == s.history
    ensures socketCreated ==>
              && r.websocket == Some(s.socketsCreated)
              && r.socketsCreated == s.socketsCreated + 1
              && r.effects == s.effects + [OpenSocket(s.socketsCreated)]
              && r.status == Connecting
    ensures !socketCreated ==> r == s.(status := FailedToConnect)
  {
    if socketCreated then
      var id := s.socketsCreated;
      s.(status := Connecting, websocket := Some(id), socketsCreated := id + 1,
         effects := s.effects + [OpenSocket(id)])
    else
      s.(status := FailedToConnect)
  }

  /** `disconnect`: stop recording, ask the socket to close, clean up audio.
      `isConnected` is left for the socket's close event to clear. */
  function Disconnect(s: State): (r: State)
    ensures !r.isRecording && !r.hasAudioContext
    ensures r.isConnected == s.isConnected && r.websocket == s.websocket
    ensures r.socketsCreated == s.socketsCreated && r.pendingSetups == s.pendingSetups
    ensures r.status == s.status && r.history == s.history
    ensures r.effects == s.effects
                         + (if s.websocket.Some? then [CloseSocket(s.websocket.value)] else [])
                         + (if s.hasAudioContext then [CloseAudioContext] else [])
  {
    var stopped := s.(isRecording := false);
    var closing := match s.websocket
      case None => stopped
      case Some(id) => stopped.(effects := stopped.effects + [CloseSocket(id)]);
    CleanupAudio(closing)
  }

  /** The click handler of the start button: `connect` when not connected,
      `disconnect` otherwise. */
  function OnClick(s: State, socketCreated: bool): (r: State)
    ensures !s.isConnected ==>
              && r.isRecording == s.isRecording && r.hasAudioContext == s.hasAudioContext
              && !r.isConnected
              && r.effects == s.effects + (if socketCreated then [OpenSocket(s.socketsCreated)] else [])
    ensures s.isConnected ==>
              && !r.isRecording && !r.hasAudioContext && r.isConnected
              && r.websocket == s.websocket
              && r.effects == s.effects
                              + (if s.websocket.Some? then [CloseSocket(s.websocket.value)] else [])
                              + (if s.hasAudioContext then [CloseAudioContext] else [])
  {
    if !s.isConnected then Connect(s, socketCreated) else Disconnect(s)
  }

  /** `onopen`: mark the session connected and start `setupAudio`, whose end
      arrives later as `AudioSetupDone`. */
  function OnSocketOpen(s: State): (r: State)
    ensures r.isConnected
    ensures r.isRecording == s.isRecording && r.hasAudioContext == s.hasAudioContext
    ensures r.websocket == s.websocket && r.history == s.history && r.effects == s.effects
    ensures r.pendingSetups == s.pendingSetups + 1 && r.status == SettingUpAudio
  {
    s.(isConnected := true, status := SettingUpAudio, pendingSetups := s.pendingSetups + 1)
  }

  /** `onclose`: mark the session disconnected and clean up audio;
      `isRecording` is not touched. */
  function OnSocketClose(s: State): (r: State)
    ensures !r.isConnected && !r.hasAudioContext
    ensures r.isRecording == s.isRecording && r.websocket == s.websocket
    ensures r.pendingSetups == s.pendingSetups && r.history == s.history
    ensures r.status == Disconnected
  {
    CleanupAudio(s.(isConnected := false, status := Disconnected))
  }

  /** `onerror`: only the status line changes. */
  function OnSocketError(s: State): (r: State)
    ensures r.(status := s.status) == s
    ensures r.status == ConnectionError
  {
    s.(status := ConnectionError)
  }

  /** The end of an awaited `setupAudio`. Only a granted microphone starts
      recording; a failure leaves `isRecording` as it was. An audio context
      created earlier is replaced without being closed. */
  function OnAudioSetup(s: State, outcome: SetupOutcome): (r: State)
    requires s.pendingSetups > 0
    ensures r.isRecording <==> outcome == Granted || s.isRecording
    ensures r.hasAudioContext <==> outcome != Denied || s.hasAudioContext
    ensures r.pendingSetups == s.pendingSetups - 1
    ensures r.isConnected == s.isConnected && r.websocket == s.websocket && r.history == s.history
    ensures r.status == (if outcome == Granted then Listening else MicrophoneRequired)
  {
    var resumed := s.(pendingSetups := s.pendingSetups - 1);
    match outcome
    case Granted =>
      resumed.(hasAudioContext := true, effects := s.effects + [OpenAudioContext],
               isRecording := true, status := Listening)
    case Denied =>
      resumed.(status := MicrophoneRequired)
    case FailedAfterContext =>
      resumed.(hasAudioContext := true, effects := s.effects + [OpenAudioContext],
               status := MicrophoneRequired)
  }

  /** `onaudioprocess`: a captured frame, already encoded as `audio`, is sent
      on the current socket only while recording. With no socket the call
      throws and nothing is sent. */
  function OnAudioProcess(s: State, audio: string): (r: State)
    ensures r.(effects := s.effects) == s
    ensures !s.isRecording ==> r == s
    ensures s.isRecording && s.websocket.Some? ==>
              r.effects == s.effects + [SendAudio(s.websocket.value, audio)]
  {
    if !s.isRecording then s
    else match s.websocket
      case None => s
      case Some(id) => s.(effects := s.effects + [SendAudio(id, audio)])
  }

  /** `playAudio`: the fragment is started at once on the audio context, with
      no queue; without an audio context nothing plays. */
  function PlayAudioFragment(s: State, audio: string): (r: State)
    ensures r.(effects := s.effects) == s
    ensures r.effects == s.effects + (if s.hasAudioContext then [PlayAudio(audio)] else [])
  {
    if s.hasAudioContext then s.(effects := s.effects + [PlayAudio(audio)]) else s
  }

  /** `handleRealtimeEvent`. It can change only the transcript, the status
      line and the effect log. */
  function HandleRealtimeEvent(s: State, e: InboundEvent): (r: State)
    ensures r.(history := s.history, status := s.status, effects := s.effects) == s
  {
    match e
    case TranscriptionCompleted(t) => s.(history := AddMessage(s.history, t, User))
    case TextDelta(d) => s.(history := AppendToLastMessage(s.history, d, Ai))
    case AudioDelta(a) => PlayAudioFragment(s, a)
    case ResponseDone => s.(status := Listening)
    case BackendError(m) => s.(history := AddMessage(s.history, "Error: " + m, Error))
    case Unrecognized(_) => s
  }

  /** One browser callback. Socket callbacks cannot fire before `connect`
      has created a socket, and a setup that was never started cannot end:
      such inputs change nothing. */
  function Step(s: State, i: Input): (r: State)
    ensures |s.effects| <= |r.effects| && r.effects[..|s.effects|] == s.effects
    ensures !i.ServerMessage? ==> r.history == s.history
    ensures r.isRecording && !s.isRecording ==> i == AudioSetupDone(Granted)
    ensures r.isConnected && !s.isConnected ==> i == SocketOpened
  {
    match i
    case Click(created) => OnClick(s, created)
    case SocketOpened => if s.websocket.Some? then OnSocketOpen(s) else s
    case SocketClosed => if s.websocket.Some? then OnSocketClose(s) else s
    case SocketFailed => if s.websocket.Some? then OnSocketError(s) else s
    case AudioSetupDone(o) => if s.pendingSetups > 0 then OnAudioSetup(s, o) else s
    case AudioFrame(a) => OnAudioProcess(s, a)
    case ServerMessage(w) => if s.websocket.Some? then HandleRealtimeEvent(s, Parse(w)) else s
  }

  /** The state after a sequence of callbacks, in order. */
  function Run(s: State, t: seq<Input>): State
    decreases |t|
  {
    if |t| == 0 then s else Step(Run(s, t[..|t| - 1]), t[|t| - 1])
  }
}
