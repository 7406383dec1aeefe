/** What the session controller guarantees: the invariant of reachable
    states, when recording can be on, what a microphone frame sends, and what
    each server event does to the transcript. */
module SessionProperties {
  import opened Wrappers
  import opened Chat
  import opened Events
  import opened Session

  // ---------------------------------------------------------------- invariant

  lemma StepPreservesValid(s: State, i: Input)
    requires Valid(s)
    ensures Valid(Step(s, i))
  {
    match i
    case Click(created) =>
      if s.isConnected { assert Step(s, i) == Disconnect(s); } else { assert Step(s, i) == Connect(s, created); }
    case AudioSetupDone(o) =>
      if s.pendingSetups > 0 { assert Step(s, i) == OnAudioSetup(s, o); }
    case ServerMessage(w) =>
      var e := Parse(w);
      if s.websocket.Some? && e.AudioDelta? {
        assert Step(s, i) == PlayAudioFragment(s, e.audio);
      }
    case _ =>
  }

  /** Every state reachable from the constructor satisfies `Valid`. */
  lemma {:induction false} RunValid(t: seq<Input>)
    ensures Valid(Run(Init(), t))
    decreases |t|
  {
    if |t| > 0 {
      RunValid(t[..|t| - 1]);
      StepPreservesValid(Run(Init(), t[..|t| - 1]), t[|t| - 1]);
    }
  }

  /** Running two sequences of callbacks one after the other is running
      their concatenation. */
  lemma {:induction false} RunAppend(s: State, t1: seq<Input>, t2: seq<Input>)
    ensures Run(s, t1 + t2) == Run(Run(s, t1), t2)
    decreases |t2|
  {
    if |t2| == 0 {
      assert t1 + t2 == t1;
    } else {
      assert (t1 + t2)[..|t1 + t2| - 1] == t1 + t2[..|t2| - 1];
      RunAppend(s, t1, t2[..|t2| - 1]);
    }
  }

  // -------------------------------------------------------------- recording

  /** While no granted audio setup completes, recording that is off stays off. */
  lemma {:induction false} NoRecordingWithoutGrant(s: State, t: seq<Input>)
    requires !s.isRecording
    requires AudioSetupDone(Granted) !in t
    ensures !Run(s, t).isRecording
    decreases |t|
  {
    if |t| > 0 {
      assert t[|t| - 1] in t;
      assert forall x :: x in t[..|t| - 1] ==> x in t;
      NoRecordingWithoutGrant(s, t[..|t| - 1]);
    }
  }

  /** `isRecording` is only ever set by a successful `setupAudio`. */
  lemma RecordingOnlyAfterGrant(t: seq<Input>)
    ensures Run(Init(), t).isRecording ==> AudioSetupDone(Granted) in t
  {
    if AudioSetupDone(Granted) !in t {
      NoRecordingWithoutGrant(Init(), t);
    }
  }

  /** A click that disconnects turns recording off, and it stays off until a
      later audio setup is granted. */
  lemma DisconnectStopsRecording(t1: seq<Input>, created: bool, t2: seq<Input>)
    requires Run(Init(), t1).isConnected
    requires AudioSetupDone(Granted) !in t2
    ensures !Run(Init(), t1 + [Click(created)] + t2).isRecording
  {
    RunAppend(Init(), t1 + [Click(created)], t2);
    RunAppend(Init(), t1, [Click(created)]);
    assert Run(Run(Init(), t1), [Click(created)]) == Step(Run(Init(), t1), Click(created));
    NoRecordingWithoutGrant(Run(Init(), t1 + [Click(created)]), t2);
  }

  /** On a reachable state a frame produces exactly one outbound `audio_data`
      message, on the current socket, if and only if recording is on. */
  lemma FrameSentIffRecording(s: State, audio: string)
    requires Valid(s)
    ensures |OnAudioProcess(s, audio).effects| == |s.effects| + 1 <==> s.isRecording
    ensures !s.isRecording ==> OnAudioProcess(s, audio) == s
    ensures s.isRecording ==>
              OnAudioProcess(s, audio).effects == s.effects + [SendAudio(s.socketsCreated - 1, audio)]
  {
  }

  // ------------------------------------------------------------ the session

  /** A second `cleanupAudio` does nothing. */
  lemma CleanupIdempotent(s: State)
    ensures CleanupAudio(CleanupAudio(s)) == CleanupAudio(s)
  {
  }

  /** Clicking again before the close event arrives disconnects again: the
      flags do not change, only one more close request is made. */
  lemma DisconnectTwice(s: State)
    ensures Disconnect(Disconnect(s)) ==
            Disconnect(s).(effects := Disconnect(s).effects
                           + (if s.websocket.Some? then [CloseSocket(s.websocket.value)] else []))
  {
  }

  /** A socket opened and closed by the server leaves recording on: the close
      handler never clears `isRecording`. */
  lemma CloseKeepsRecording(s: State)
    requires s.isRecording
    ensures OnSocketClose(s).isRecording && !OnSocketClose(s).isConnected
  {
  }

  /** The state after: click (socket 0 created), open, click (disconnect
      while the microphone prompt is pending), close. */
  lemma DisconnectedDuringSetup()
    ensures Run(Init(), [Click(true), SocketOpened, Click(true), SocketClosed])
            == State(false, false, Some(0), 1, false, 1, Disconnected, [], [OpenSocket(0), CloseSocket(0)])
  {
    var t := [Click(true), SocketOpened, Click(true), SocketClosed];
    var s1 := State(false, false, Some(0), 1, false, 0, Connecting, [], [OpenSocket(0)]);
    var s2 := State(true, false, Some(0), 1, false, 1, SettingUpAudio, [], [OpenSocket(0)]);
    var s3 := State(true, false, Some(0), 1, false, 1, SettingUpAudio, [], [OpenSocket(0), CloseSocket(0)]);
    assert Run(Init(), t[..1]) == s1 by {
      assert t[..1][..0] == [];
      assert Step(Init(), Click(true)) == Connect(Init(), true);
    }
    assert Run(Init(), t[..2]) == s2 by { assert t[..2][..1] == t[..1]; }
    assert Run(Init(), t[..3]) == s3 by {
      assert t[..3][..2] == t[..2];
      assert Step(s2, Click(true)) == Disconnect(s2);
    }
    assert t[..|t| - 1] == t[..3];
  }

  /** The microphone prompt can outlive the session: a click that disconnects
      while `setupAudio` awaits permission, followed by the socket's close,
      does not stop the later grant from creating an audio context and
      switching recording on, and frames are then sent on the closed socket. */
  lemma StaleSetupAfterDisconnect(audio: string)
    ensures var t := [Click(true), SocketOpened, Click(true), SocketClosed, AudioSetupDone(Granted)];
            var s := Run(Init(), t);
            && !s.isConnected && s.isRecording && s.hasAudioContext
            && CloseSocket(0) in s.effects
            && Step(s, AudioFrame(audio)).effects == s.effects + [SendAudio(0, audio)]
  {
    var t := [Click(true), SocketOpened, Click(true), SocketClosed, AudioSetupDone(Granted)];
    DisconnectedDuringSetup();
    assert t[..|t| - 1] == [Click(true), SocketOpened, Click(true), SocketClosed];
    var s4 := State(false, false, Some(0), 1, false, 1, Disconnected, [], [OpenSocket(0), CloseSocket(0)]);
    assert Run(Init(), t) == OnAudioSetup(s4, Granted);
    var s := Run(Init(), t);
    assert s == State(false, true, Some(0), 1, true, 0, Listening, [],
                      [OpenSocket(0), CloseSocket(0), OpenAudioContext]);
  }

  // ---------------------------------------------------------- server events

  /** A message whose type matches no `case` changes nothing at all. */
  lemma UnrecognizedEventIgnored(s: State, w: WireEvent)
    requires w.kind !in KnownTypes
    ensures HandleRealtimeEvent(s, Parse(w)) == s
  {
  }

  /** A completed transcription adds exactly one message, the user's
      transcript, after all earlier ones. */
  lemma TranscriptionAddsUserMessage(s: State, transcript: string)
    ensures var h := HandleRealtimeEvent(s, TranscriptionCompleted(transcript)).history;
            && |h| == |s.history| + 1
            && h[|s.history|] == Message(User, transcript)
            && h[..|s.history|] == s.history
    ensures HandleRealtimeEvent(s, TranscriptionCompleted(transcript))
            == s.(history := s.history + [Message(User, transcript)])
  {
  }

  /** A text delta, when the AI already has a message, keeps the length and
      extends only the AI's most recent message, even when user or error
      messages follow it. */
  lemma TextDeltaExtendsLatestAi(s: State, delta: string, i: nat)
    requires i < |s.history| && s.history[i].sender == Ai
    requires forall j :: i < j < |s.history| ==> s.history[j].sender != Ai
    ensures var h := HandleRealtimeEvent(s, TextDelta(delta)).history;
            && |h| == |s.history|
            && h[i] == Message(Ai, s.history[i].text + delta)
            && forall j :: 0 <= j < |h| && j != i ==> h[j] == s.history[j]
  {
    AppendExtendsLatest(s.history, delta, Ai, i);
  }

  /** A text delta when the AI has no message yet starts one. */
  lemma TextDeltaStartsAiMessage(s: State, delta: string)
    requires !HasMessageFrom(s.history, Ai)
    ensures HandleRealtimeEvent(s, TextDelta(delta)).history == s.history + [Message(Ai, delta)]
  {
    AppendStartsMessage(s.history, delta, Ai);
  }

  /** Every text delta grows the AI's transcript by exactly its text and
      leaves the user's and the error transcripts alone. */
  lemma TextDeltaGrowsAiTranscript(s: State, delta: string)
    ensures var h := HandleRealtimeEvent(s, TextDelta(delta)).history;
            && Transcript(h, Ai) == Transcript(s.history, Ai) + delta
            && Transcript(h, User) == Transcript(s.history, User)
            && Transcript(h, Error) == Transcript(s.history, Error)
  {
    AppendExtendsTranscript(s.history, delta, Ai, User);
    AppendExtendsTranscript(s.history, delta, Ai, Error);
  }

  /** Successive deltas concatenate in arrival order. */
  lemma TextDeltasConcatenate(s: State, first: string, second: string)
    ensures HandleRealtimeEvent(HandleRealtimeEvent(s, TextDelta(first)), TextDelta(second))
            == HandleRealtimeEvent(s, TextDelta(first + second))
  {
    AppendsCompose(s.history, first, second, Ai);
  }

  /** A user transcript that arrives in the middle of a streamed answer does
      not split it: the next delta still goes to the AI message above it. */
  lemma TranscriptDoesNotSplitAnswer(s: State, transcript: string, delta: string)
    requires HasMessageFrom(s.history, Ai)
    ensures HandleRealtimeEvent(HandleRealtimeEvent(s, TranscriptionCompleted(transcript)), TextDelta(delta))
            == HandleRealtimeEvent(HandleRealtimeEvent(s, TextDelta(delta)), TranscriptionCompleted(transcript))
  {
    AppendSkipsOtherSenders(s.history, delta, Ai, transcript, User);
  }

  /** An error event adds one error message with the `Error: ` prefix. */
  lemma ErrorEventAddsErrorMessage(s: State, message: string)
    ensures HandleRealtimeEvent(s, BackendError(message)).history
            == s.history + [Message(Error, "Error: " + message)]
    ensures HandleRealtimeEvent(s, BackendError(message))
            == s.(history := s.history + [Message(Error, "Error: " + message)])
  {
  }

  /** Audio fragments and the end of a response never touch the transcript;
      a fragment is started at once exactly when an audio context exists. */
  lemma AudioAndDoneKeepHistory(s: State, audio: string)
    ensures HandleRealtimeEvent(s, AudioDelta(audio)).history == s.history
    ensures HandleRealtimeEvent(s, ResponseDone).history == s.history
    ensures HandleRealtimeEvent(s, ResponseDone) == s.(status := Listening)
    ensures HandleRealtimeEvent(s, AudioDelta(audio)).effects
            == s.effects + (if s.hasAudioContext then [PlayAudio(audio)] else [])
  {
  }
}
