/** The `RealtimeVoiceAssistant` object itself: its fields are updated in
    place by one method per handler, and each method's new state is the one
    the matching function of `Session` gives. */
module Assistant {
  import opened Wrappers
  import Chat
  import Events
  import Session

  class RealtimeVoiceAssistant {
    var websocket: Option<Session.SocketId>
    var socketsCreated: nat
    var hasAudioContext: bool
    var isConnected: bool
    var isRecording: bool
    var status: Session.Status
    var chatHistory: Chat.History
    /** The calls made into the browser so far, oldest first. */
    var effects: seq<Session.Effect>
    /** `setupAudio` calls still awaiting the microphone. */
    ghost var pendingSetups: nat

    /** The object's fields as a `Session.State`. */
    ghost function Model(): Session.State
      reads this
    {
      Session.State(isConnected, isRecording, websocket, socketsCreated, hasAudioContext,
                    pendingSetups, status, chatHistory, effects)
    }

    constructor ()
      ensures Model() == Session.Init()
    {
      websocket := None;
      socketsCreated := 0;
      hasAudioContext := false;
      isConnected := false;
      isRecording := false;
      status := Session.Idle;
      chatHistory := [];
      effects := [];
      pendingSetups := 0;
    }

    /** The start button's click listener. */
    method OnStartClick(socketCreated: bool)
      modifies this
      ensures Model() == Session.OnClick(old(Model()), socketCreated)
    {
      if !isConnected {
        Connect(socketCreated);
      } else {
        Disconnect();
      }
    }

    method Connect(socketCreated: bool)
      modifies this
      ensures Model() == Session.Connect(old(Model()), socketCreated)
    {
      status := Session.Connecting;
      if socketCreated {
        var id := socketsCreated;
        socketsCreated := socketsCreated + 1;
        effects := effects + [Session.OpenSocket(id)];
        websocket := Some(id);
      } else {
        status := Session.FailedToConnect;
      }
    }

    /** The socket's `onopen`; it starts `setupAudio`, which then awaits the
        microphone. */
    method OnSocketOpen()
      requires websocket.Some?
      modifies this
      ensures Model() == Session.OnSocketOpen(old(Model()))
    {
      isConnected := true;
      status := Session.SettingUpAudio;
      pendingSetups := pendingSetups + 1;
    }

    /** The rest of `setupAudio`, once the microphone request is answered. */
    method FinishSetupAudio(outcome: Session.SetupOutcome)
      requires pendingSetups > 0
      modifies this
      ensures Model() == Session.OnAudioSetup(old(Model()), outcome)
    {
      pendingSetups := pendingSetups - 1;
      if outcome != Session.Denied {
        effects := effects + [Session.OpenAudioContext];
        hasAudioContext := true;
      }
      if outcome == Session.Granted {
        isRecording := true;
        status := Session.Listening;
      } else {
        status := Session.MicrophoneRequired;
      }
    }

    method OnSocketClose()
      requires websocket.Some?
      modifies this
      ensures Model() == Session.OnSocketClose(old(Model()))
    {
      isConnected := false;
      status := Session.Disconnected;
      CleanupAudio();
    }

    method OnSocketError()
      requires websocket.Some?
      modifies this
      ensures Model() == Session.OnSocketError(old(Model()))
    {
      status := Session.ConnectionError;
    }

    /** The script processor's `onaudioprocess`, given the frame already
        encoded. */
    method OnAudioProcess(audio: string)
      modifies this
      ensures Model() == Session.OnAudioProcess(old(Model()), audio)
    {
      if !isRecording {
        return;
      }
      match websocket
      case None =>
      case Some(id) =>
        effects := effects + [Session.SendAudio(id, audio)];
    }

    /** The socket's `onmessage`. */
    method OnSocketMessage(message: Events.WireEvent)
      requires websocket.Some?
      modifies this
      ensures Model() == Session.HandleRealtimeEvent(old(Model()), Events.Parse(message))
    {
      HandleRealtimeEvent(Events.Parse(message));
    }

    method HandleRealtimeEvent(e: Events.InboundEvent)
      modifies this
      ensures Model() == Session.HandleRealtimeEvent(old(Model()), e)
    {
      match e
      case TranscriptionCompleted(t) =>
        AddMessage(t, Chat.User);
      case TextDelta(d) =>
        AppendToLastMessage(d, Chat.Ai);
      case AudioDelta(a) =>
        PlayAudio(a);
      case ResponseDone =>
        status := Session.Listening;
      case BackendError(m) =>
        AddMessage("Error: " + m, Chat.Error);
      case Unrecognized(_) =>
    }

    method PlayAudio(audio: string)
      modifies this
      ensures Model() == Session.PlayAudioFragment(old(Model()), audio)
    {
      if hasAudioContext {
        effects := effects + [Session.PlayAudio(audio)];
      }
    }

    method AddMessage(text: string, sender: Chat.Sender)
      modifies this
      ensures Model() == old(Model()).(history := Chat.AddMessage(old(chatHistory), text, sender))
    {
      chatHistory := chatHistory + [Chat.Message(sender, text)];
    }

    /** Looks the sender's messages up the way the page does (all of them in
        document order, then the last one) and extends that one. */
    method AppendToLastMessage(text: string, sender: Chat.Sender)
      modifies this
      ensures Model() == old(Model()).(history := Chat.AppendToLastMessage(old(chatHistory), text, sender))
    {
      var messages := Chat.MessagesOf(chatHistory, sender);
      Chat.LastSelectedIsLastOf(chatHistory, sender);
      if |messages| > 0 {
        var last := messages[|messages| - 1];
        chatHistory := chatHistory[last := chatHistory[last].(text := chatHistory[last].text + text)];
      } else {
        AddMessage(text, sender);
      }
    }

    method Disconnect()
      modifies this
      ensures Model() == Session.Disconnect(old(Model()))
    {
      isRecording := false;
      if websocket.Some? {
        effects := effects + [Session.CloseSocket(websocket.value)];
      }
      CleanupAudio();
    }

    method CleanupAudio()
      modifies this
      ensures Model() == Session.CleanupAudio(old(Model()))
    {
      if hasAudioContext {
        effects := effects + [Session.CloseAudioContext];
        hasAudioContext := false;
      }
    }
  }
}
