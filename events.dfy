/** The inbound messages of the realtime socket and the `switch (event.type)`
    that tells them apart. A message is taken as already parsed from JSON: its
    `type` string and the payload fields the handlers read. */
module Events {

  /** The `type` strings the page recognises, one per `case` label. */
  const TranscriptionCompletedType := "conversation.item.input_audio_transcription.completed"
  const TextDeltaType := "response.text.delta"
  const AudioDeltaType := "response.audio.delta"
  const ResponseDoneType := "response.done"
  const ErrorType := "error"

  const KnownTypes: set<string> :=
    {TranscriptionCompletedType, TextDeltaType, AudioDeltaType, ResponseDoneType, ErrorType}

  /** A parsed JSON message: its discriminator and the fields the handlers
      read (`transcript`, `delta`, `error.message`). */
  datatype WireEvent = WireEvent(kind: string, transcript: string, delta: string, errorMessage: string)

  /** One variant per `case` label, plus the messages no label matches. */
  datatype InboundEvent =
    | TranscriptionCompleted(transcript: string)
    | TextDelta(delta: string)
    | AudioDelta(audio: string)
    | ResponseDone
    | BackendError(message: string)
    | Unrecognized(kind: string)

  /** The `type` string an event carries on the wire. */
  function Kind(e: InboundEvent): string
  {
    match e
    case TranscriptionCompleted(_) => TranscriptionCompletedType
    case TextDelta(_) => TextDeltaType
    case AudioDelta(_) => AudioDeltaType
    case ResponseDone => ResponseDoneType
    case BackendError(_) => ErrorType
    case Unrecognized(k) => k
  }

  /** An event as `Parse` can produce it: an unrecognised one never carries a
      known type string. */
  predicate WellFormed(e: InboundEvent)
  {
    e.Unrecognized? ==> e.kind !in KnownTypes
  }

  /** The dispatch of `handleRealtimeEvent`: the variant is chosen by the
      `type` string alone, and each variant takes the one field its handler
      reads. */
  function Parse(w: WireEvent): (e: InboundEvent)
    ensures Kind(e) == w.kind
    ensures e.Unrecognized? <==> w.kind !in KnownTypes
    ensures WellFormed(e)
    ensures e.TranscriptionCompleted? ==> e.transcript == w.transcript
    ensures e.TextDelta? ==> e.delta == w.delta
    ensures e.AudioDelta? ==> e.audio == w.delta
    ensures e.BackendError? ==> e.message == w.errorMessage
  {
    if w.kind == TranscriptionCompletedType then TranscriptionCompleted(w.transcript)
    else if w.kind == TextDeltaType then TextDelta(w.delta)
    else if w.kind == AudioDeltaType then AudioDelta(w.delta)
    else if w.kind == ResponseDoneType then ResponseDone
    else if w.kind == ErrorType then BackendError(w.errorMessage)
    else Unrecognized(w.kind)
  }

  /** A wire message carrying `e`, as a backend would send it; fields the
      event does not use are left empty. */
  function Unparse(e: InboundEvent): WireEvent
  {
    match e
    case TranscriptionCompleted(t) => WireEvent(TranscriptionCompletedType, t, "", "")
    case TextDelta(d) => WireEvent(TextDeltaType, "", d, "")
    case AudioDelta(a) => WireEvent(AudioDeltaType, "", a, "")
    case ResponseDone => WireEvent(ResponseDoneType, "", "", "")
    case BackendError(m) => WireEvent(ErrorType, "", "", m)
    case Unrecognized(k) => WireEvent(k, "", "", "")
  }

  /** Every event the dispatch can produce survives the trip to the wire and
      back. */
  lemma ParseUnparse(e: InboundEvent)
    requires WellFormed(e)
    ensures Parse(Unparse(e)) == e
  {
  }
}
