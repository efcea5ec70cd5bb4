/**
 * The session side of the client (static/script.js:86-501): the flags
 * `isConnected`, `isRecording`, `hasActiveResponse` and `isTextConnected`,
 * the two sockets, and the handlers that react to socket callbacks, server
 * events and user actions.
 *
 * Each handler is a function from the current state to the next state and the
 * effects it performs, in order: commands sent on a socket and calls into the
 * page, the playback queue (Playback.PlaybackQueue), the assistant messages
 * (Messages.AssistantMessages) and the microphone. Base64 (`btoa`/`atob`) is
 * left to the browser: a command carries the bytes that are encoded on the wire.
 */
module Session {
  import opened Common
  import opened Strings
  import opened Messages
  import Pcm

  /** The `readyState` of a socket variable, or NoSocket while it holds `null`. */
  datatype Ws = NoSocket | Connecting | Open | Closing | Closed

  /** `ws.close()`: a socket that is connecting or open starts closing; otherwise nothing happens. */
  function Close(w: Ws): (r: Ws)
    ensures r != Connecting && r != Open
    ensures w != Connecting && w != Open ==> r == w
  {
    if w == Connecting || w == Open then Closing else w
  }

  datatype State = State(
    voice: Ws,               // realtimeWs
    connected: bool,         // isConnected
    recording: bool,         // isRecording
    activeResponse: bool,    // hasActiveResponse
    text: Ws,                // textWs
    textConnected: bool,     // isTextConnected
    tab: Mode,               // currentTab
    pending: seq<string>)    // typed messages waiting for the text socket to open

  const Initial := State(NoSocket, false, false, false, NoSocket, false, Voice, [])

  /** What `updateStatus(message, className)` shows. */
  datatype Status = Status(message: string, className: string)

  const ConnectingStatus := Status("正在連接...", "connecting")
  const ConnectedStatus := Status("已連接", "connected")
  const DisconnectedStatus := Status("連接已斷開", "disconnected")
  const ConnectionErrorStatus := Status("連接錯誤", "disconnected")
  const CallEndedStatus := Status("通話已結束", "disconnected")
  const ReadyStatus := Status("對話已準備就緒", "connected")
  const ThinkingStatus := Status("🤔 正在思考...", "connecting")
  const ListeningStatus := Status("🎤 正在聆聽...", "connecting")
  const TranscribingStatus := Status("🤔 正在轉錄...", "connecting")
  const ApiErrorStatus := Status("發生錯誤", "disconnected")
  const SpeakNowStatus := Status("🎤 請開始說話", "connected")
  const RecordingFailedStatus := Status("錄音失敗", "disconnected")
  const TextConnectingStatus := Status("正在連接文字模式...", "connecting")
  const TextConnectedStatus := Status("文字模式已連接", "connected")
  const TextDisconnectedStatus := Status("文字模式已斷開", "disconnected")
  const TextConnectionErrorStatus := Status("文字模式連接錯誤", "disconnected")
  const TextReadyStatus := Status("文字模式準備就緒", "connected")
  const TextApiErrorStatus := Status("文字模式發生錯誤", "disconnected")

  /** The `response` object of a text-mode `response.create`. */
  datatype ResponseOptions = ResponseOptions(modalities: seq<string>, instructions: string)

  const TextReply := ResponseOptions(["text"], "請用繁體中文回應，並可以使用 Markdown 格式來美化回應內容。")

  /** The code of the benign error the service reports for a cancel with nothing to cancel. */
  const CancelNotActive := "response_cancel_not_active"

  /** Outbound protocol commands. */
  datatype Command =
    | AppendAudio(pcm: seq<Pcm.byte>)            // input_audio_buffer.append
    | CommitAudio                                // input_audio_buffer.commit
    | CreateResponse(options: Option<ResponseOptions>)  // response.create
    | CancelResponse                             // response.cancel
    | CreateUserMessage(text: string)            // conversation.item.create, a user input_text message

  /** Everything a handler does, in the order it does it. */
  datatype Effect =
    | Send(channel: Mode, command: Command)      // ws.send on realtimeWs (Voice) or textWs (Text)
    | AddUserMessage(content: string, mode: Mode)   // addMessage('user', content, mode)
    | UpdateStatus(status: Status)
    | UpdateAssistant(delta: string, mode: Mode)    // updateAssistantMessage
    | FinishAssistant(mode: Mode)                // finishAssistantMessage
    | QueueAudioChunk(fragment: string)          // queueAudioChunk
    | StopAllAudio                               // stopAllAudio
    | ClearAudioQueue                            // clearAudioQueue
    | StartRecording                             // startRecording: asks for the microphone
    | ReleaseMicrophone                          // stopRecording: stops the tracks, closes the audio context
    | OpenSocket(channel: Mode)                  // new WebSocket(...)
    | CloseSocket(channel: Mode)                 // ws.close()
    | ResetCallButton
    | UpdateTextButton
    | ClearInput                                 // input.value = ''

  /** Inbound server events, by their `type`. */
  datatype ServerEvent =
    | SessionCreated                             // session.created
    | TranscriptionCompleted(transcript: string) // conversation.item.input_audio_transcription.completed
    | TranscriptionDelta(delta: string)          // conversation.item.input_audio_transcription.delta
    | ResponseCreated                            // response.created
    | AudioTranscriptDelta(delta: string)        // response.audio_transcript.delta
    | TextDelta(delta: string)                   // response.text.delta
    | AudioDelta(delta: string)                  // response.audio.delta
    | ResponseDone                               // response.done
    | SpeechStarted                              // input_audio_buffer.speech_started
    | SpeechStopped                              // input_audio_buffer.speech_stopped
    | Committed                                  // input_audio_buffer.committed
    | ApiError(code: Option<string>)             // error, with error.code
    | Unhandled(eventType: string)               // any other type

  datatype Step = Step(next: State, effects: seq<Effect>)

  /** The command `e` sends on the socket of `channel`, if any. */
  function Out(e: Effect, channel: Mode): seq<Command> {
    if e.Send? && e.channel == channel then [e.command] else []
  }

  /** The commands sent on the socket of `channel`, in order. */
  function Sent(effects: seq<Effect>, channel: Mode): (r: seq<Command>)
    ensures |effects| == 1 ==> r == Out(effects[0], channel)
    ensures |effects| == 2 ==> r == Out(effects[0], channel) + Out(effects[1], channel)
  {
    if effects == [] then []
    else Out(effects[0], channel) + Sent(effects[1..], channel)
  }

  lemma {:induction false} SentOfConcat(a: seq<Effect>, b: seq<Effect>, channel: Mode)
    ensures Sent(a + b, channel) == Sent(a, channel) + Sent(b, channel)
    decreases |a|
  {
    if a == [] {
      assert a + b == b;
    } else {
      var head := Out(a[0], channel);
      assert (a + b)[1..] == a[1..] + b;
      assert (a + b)[0] == a[0];
      assert Sent(a + b, channel) == head + Sent(a[1..] + b, channel);
      SentOfConcat(a[1..], b, channel);
      assert Sent(a, channel) == head + Sent(a[1..], channel);
    }
  }

  /** The fragments handed to the playback queue, in order. */
  function Queued(effects: seq<Effect>): (r: seq<string>)
    ensures |effects| == 1 ==> r == if effects[0].QueueAudioChunk? then [effects[0].fragment] else []
    ensures |effects| == 2 && !effects[0].QueueAudioChunk? && !effects[1].QueueAudioChunk? ==> r == []
  {
    if effects == [] then []
    else (if effects[0].QueueAudioChunk? then [effects[0].fragment] else []) + Queued(effects[1..])
  }

  lemma {:induction false} QueuedOfConcat(a: seq<Effect>, b: seq<Effect>)
    ensures Queued(a + b) == Queued(a) + Queued(b)
    decreases |a|
  {
    if a == [] {
      assert a + b == b;
    } else {
      var head := if a[0].QueueAudioChunk? then [a[0].fragment] else [];
      assert (a + b)[1..] == a[1..] + b;
      assert (a + b)[0] == a[0];
      assert Queued(a + b) == head + Queued(a[1..] + b);
      QueuedOfConcat(a[1..], b);
      assert Queued(a) == head + Queued(a[1..]);
    }
  }

  /**
   * Every `b` in `effects` comes after an `a`: when there is a `b`, the first
   * `a` comes before the first `b`.
   */
  predicate Precedes(effects: seq<Effect>, a: Effect, b: Effect) {
    b in effects ==> 0 <= IndexOf(effects, a) < IndexOf(effects, b)
  }

  /** The first occurrence of `x` is at `i` when `x` is there and nowhere before. */
  lemma IndexOfAt(effects: seq<Effect>, x: Effect, i: nat)
    requires i < |effects| && effects[i] == x && x !in effects[..i]
    ensures IndexOf(effects, x) == i
  {
  }

  /** Something missing from a prefix first occurs after it. */
  lemma IndexOfPast(effects: seq<Effect>, prefix: seq<Effect>, x: Effect)
    requires |prefix| <= |effects| && effects[..|prefix|] == prefix
    requires x in effects && x !in prefix
    ensures IndexOf(effects, x) >= |prefix|
  {
    assert forall j | 0 <= j < |prefix| :: prefix[j] == effects[j];
  }

  /** What comes first precedes every later occurrence of anything else. */
  lemma PrecedesFromFirst(effects: seq<Effect>, b: Effect)
    requires |effects| > 0 && effects[0] != b
    ensures Precedes(effects, effects[0], b)
  {
    IndexOfAt(effects, effects[0], 0);
  }

  // ---------------------------------------------------------------------------
  // The voice call
  // ---------------------------------------------------------------------------

  /**
   * `startConversation` (lines 106-154): nothing when already connected and
   * recording; open a socket when not connected; otherwise start recording.
   */
  function StartConversation(s: State): (r: Step)
    ensures s.connected && s.recording ==> r == Step(s, [])
    ensures (OpenSocket(Voice) in r.effects) <==> !s.connected
    ensures !s.connected ==> r.next.voice == Connecting
    ensures (StartRecording in r.effects) <==> s.connected && !s.recording
    ensures Sent(r.effects, Voice) == [] && Sent(r.effects, Text) == []
    ensures s.connected ==> r.next == s
    ensures !s.connected ==> r.next == s.(voice := Connecting)
  {
    if s.connected && s.recording then Step(s, [])
    else if !s.connected then Step(s.(voice := Connecting), [UpdateStatus(ConnectingStatus), OpenSocket(Voice)])
    else Step(s, [StartRecording])
  }

  /** `realtimeWs.onopen` (lines 115-119): connected, then recording is started. */
  function OnVoiceOpen(s: State): (r: Step)
    ensures r.next.voice == Open && r.next.connected
    ensures r.next == s.(voice := Open, connected := true)
    ensures r.effects == [UpdateStatus(ConnectedStatus), StartRecording]
  {
    Step(s.(voice := Open, connected := true), [UpdateStatus(ConnectedStatus), StartRecording])
  }

  /**
   * The end of `startRecording` (lines 277-319), once the microphone request
   * settles: recording when it was granted, a failure status otherwise.
   */
  function MicrophoneSettled(s: State, granted: bool): (r: Step)
    ensures r.next.recording == (s.recording || granted)
    ensures r.next == s.(recording := r.next.recording)
    ensures |r.effects| == 1 && r.effects[0].UpdateStatus?
    ensures Sent(r.effects, Voice) == [] && Sent(r.effects, Text) == []
  {
    if granted then Step(s.(recording := true), [UpdateStatus(SpeakNowStatus)])
    else Step(s, [UpdateStatus(RecordingFailedStatus)])
  }

  /** The reset shared by `onclose` and `onerror` (lines 126-141). */
  function Disconnected(s: State): (n: State)
    ensures !n.connected && !n.recording && !n.activeResponse && n.voice == Closed
    ensures n.text == s.text && n.textConnected == s.textConnected && n.tab == s.tab && n.pending == s.pending
  {
    s.(voice := Closed, connected := false, recording := false, activeResponse := false)
  }

  /**
   * `realtimeWs.onclose` (lines 126-132): every voice flag is reset. The
   * playback queue is not touched.
   */
  function OnVoiceClose(s: State): (r: Step)
    ensures !r.next.connected && !r.next.recording && !r.next.activeResponse
    ensures r.next.text == s.text && r.next.textConnected == s.textConnected && r.next.pending == s.pending
    ensures r.effects == [UpdateStatus(DisconnectedStatus), ResetCallButton]
    ensures StopAllAudio !in r.effects && ClearAudioQueue !in r.effects
  {
    Step(Disconnected(s), [UpdateStatus(DisconnectedStatus), ResetCallButton])
  }

  /** `realtimeWs.onerror` (lines 134-141): the same reset as `onclose`, with its own status. */
  function OnVoiceError(s: State): (r: Step)
    ensures r.next == OnVoiceClose(s).next
    ensures !r.next.connected && !r.next.recording && !r.next.activeResponse
    ensures r.effects == [UpdateStatus(ConnectionErrorStatus), ResetCallButton]
  {
    Step(Disconnected(s), [UpdateStatus(ConnectionErrorStatus), ResetCallButton])
  }

  /**
   * A failed voice socket: the browser fires `error` and then `close` in the
   * same task, so `onerror` (lines 134-141) is always followed by `onclose`
   * (lines 126-132), whose status is the one left showing.
   */
  function OnVoiceFailure(s: State): (r: Step)
    ensures r.next == OnVoiceClose(s).next
    ensures Sent(r.effects, Voice) == [] && Sent(r.effects, Text) == []
    ensures r.effects == [UpdateStatus(ConnectionErrorStatus), ResetCallButton, UpdateStatus(DisconnectedStatus), ResetCallButton]
  {
    var error := OnVoiceError(s);
    var close := OnVoiceClose(error.next);
    SentOfConcat(error.effects, close.effects, Voice);
    SentOfConcat(error.effects, close.effects, Text);
    Step(close.next, error.effects + close.effects)
  }

  /** `stopRecording` (lines 322-334): not recording, and the microphone released. */
  function StopRecording(s: State): (r: Step)
    ensures !r.next.recording && r.next == s.(recording := false)
    ensures r.effects == [ReleaseMicrophone]
  {
    Step(s.(recording := false), [ReleaseMicrophone])
  }

  /**
   * `endConversation` (lines 157-177): recording stops and the socket starts
   * closing; the other flags stay as they are until the socket reports its
   * close. The effects are those of `EndingEffects`.
   */
  function EndConversation(s: State): (r: Step)
    ensures !r.next.recording && r.next.voice != Open
    ensures s.voice == Connecting || s.voice == Open ==> r.next.voice == Closing
    ensures r.next == s.(recording := false, voice := Close(s.voice))
    ensures r.effects == EndingEffects(s)
  {
    Step(StopRecording(s).next.(voice := Close(s.voice)), EndingEffects(s))
  }

  /**
   * What `endConversation` does: cancel the response in progress if there is
   * one and the socket is open, stop recording (which closes the audio
   * context), clear the playback queue (without `stop()` on any source) and
   * close the socket.
   */
  function EndingEffects(s: State): (r: seq<Effect>)
    ensures Sent(r, Voice) == (if s.activeResponse && s.voice == Open then [CancelResponse] else [])
    ensures Sent(r, Text) == []
  {
    var cancel := CancelEffects(s);
    // the microphone is released by `stopRecording`
    var middle := [ReleaseMicrophone, ClearAudioQueue];
    var closing := ClosingEffects(s);
    assert Sent(cancel + middle + closing, Voice) == Sent(cancel, Voice) by {
      SentOfConcat(cancel, middle, Voice);
      SentOfConcat(cancel + middle, closing, Voice);
    }
    assert Sent(cancel + middle + closing, Text) == [] by {
      SentOfConcat(cancel, middle, Text);
      SentOfConcat(cancel + middle, closing, Text);
    }
    cancel + middle + closing
  }

  /** The start of `endConversation`: `response.cancel` while a response is active on an open socket. */
  function CancelEffects(s: State): (r: seq<Effect>)
    ensures s.activeResponse && s.voice == Open ==> r == [Send(Voice, CancelResponse)]
    ensures !(s.activeResponse && s.voice == Open) ==> r == []
    ensures Sent(r, Voice) == (if s.activeResponse && s.voice == Open then [CancelResponse] else [])
    ensures Sent(r, Text) == []
  {
    if s.activeResponse && s.voice == Open then [Send(Voice, CancelResponse)] else []
  }

  /** The end of `endConversation`: the socket is closed if there is one, and the status set. */
  function ClosingEffects(s: State): (r: seq<Effect>)
    ensures s.voice != NoSocket ==> r == [CloseSocket(Voice), UpdateStatus(CallEndedStatus)]
    ensures s.voice == NoSocket ==> r == [UpdateStatus(CallEndedStatus)]
    ensures Sent(r, Voice) == [] && Sent(r, Text) == []
  {
    (if s.voice != NoSocket then [CloseSocket(Voice)] else []) + [UpdateStatus(CallEndedStatus)]
  }

  /**
   * The order of `endConversation`: the cancel, when sent, comes first, before
   * the microphone is released; the playback queue is cleared after that and
   * before the socket is closed.
   */
  lemma EndingOrder(s: State)
    ensures s.activeResponse && s.voice == Open ==> EndingEffects(s)[0] == Send(Voice, CancelResponse)
    ensures Precedes(EndingEffects(s), ReleaseMicrophone, ClearAudioQueue)
    ensures Precedes(EndingEffects(s), ClearAudioQueue, CloseSocket(Voice))
  {
    OrderAroundClear(CancelEffects(s), ClosingEffects(s));
  }

  /**
   * In `pre`, then the release of the microphone and the clearing of the
   * queue, then `post`: the release precedes the clearing, which precedes any
   * close in `post`.
   */
  lemma OrderAroundClear(pre: seq<Effect>, post: seq<Effect>)
    requires ReleaseMicrophone !in pre && ClearAudioQueue !in pre && CloseSocket(Voice) !in pre
    ensures var es := pre + [ReleaseMicrophone, ClearAudioQueue] + post;
      && Precedes(es, ReleaseMicrophone, ClearAudioQueue)
      && Precedes(es, ClearAudioQueue, CloseSocket(Voice))
  {
    var es := pre + [ReleaseMicrophone, ClearAudioQueue] + post;
    var c := |pre|;
    assert es[..c] == pre && es[..c + 1] == pre + [ReleaseMicrophone];
    IndexOfAt(es, ReleaseMicrophone, c);
    IndexOfAt(es, ClearAudioQueue, c + 1);
    if CloseSocket(Voice) in es {
      IndexOfPast(es, pre + [ReleaseMicrophone, ClearAudioQueue], CloseSocket(Voice));
    }
  }

  /** `endConversation` always releases the microphone and clears the playback queue. */
  lemma EndingReleasesAndClears(s: State)
    ensures ReleaseMicrophone in EndingEffects(s) && ClearAudioQueue in EndingEffects(s)
  {
    assert EndingEffects(s) == CancelEffects(s) + [ReleaseMicrophone, ClearAudioQueue] + ClosingEffects(s);
  }

  /** `endConversation` closes the voice socket exactly when there is one. */
  lemma EndingClosesSocket(s: State)
    ensures (CloseSocket(Voice) in EndingEffects(s)) <==> s.voice != NoSocket
  {
    assert CloseSocket(Voice) !in CancelEffects(s);
  }

  /**
   * `endConversation` clears the queue but never calls `stopAllAudio`: no
   * source is sent `stop()` and the registry is left as it is.
   */
  lemma EndingSkipsStopAll(s: State)
    ensures StopAllAudio !in EndingEffects(s)
  {
    assert StopAllAudio !in CancelEffects(s) && StopAllAudio !in ClosingEffects(s);
  }

  /** `toggleCall` (lines 87-103): end the call while recording, start one otherwise. */
  function ToggleCall(s: State): (r: Step)
    ensures s.recording ==> r == EndConversation(s)
    ensures !s.recording ==> r == StartConversation(s)
  {
    if !s.recording then StartConversation(s) else EndConversation(s)
  }

  /**
   * `processor.onaudioprocess` (lines 296-307): a captured frame is sent as
   * `input_audio_buffer.append` only while recording on an open socket;
   * otherwise it is dropped. The frame carries the samples' PCM16 bytes,
   * from which the samples can be read back.
   */
  function CaptureFrame(s: State, samples: seq<Pcm.Int16>): (r: Step)
    ensures r.next == s
    ensures r.effects != [] <==> s.recording && s.voice == Open
    ensures r.effects != [] ==>
      && |r.effects| == 1 && r.effects[0].Send? && r.effects[0].channel == Voice
      && r.effects[0].command.AppendAudio?
      && Pcm.Samples(r.effects[0].command.pcm) == Ok(samples)
  {
    if s.recording && s.voice == Open then
      Pcm.SamplesOfBytes(samples);
      Step(s, [Send(Voice, AppendAudio(Pcm.Bytes(samples)))])
    else Step(s, [])
  }

  /**
   * A completed transcription (lines 202-216): a blank one is ignored; any
   * other is shown as the user's message and, on an open socket, answered.
   */
  function AnswerTranscript(s: State, transcript: string): (r: seq<Effect>)
    ensures r == [] <==> IsBlank(transcript)
    ensures !IsBlank(transcript) ==>
      && r[0] == AddUserMessage(transcript, Voice)
      && Sent(r, Voice) == (if s.voice == Open then [CreateResponse(None)] else [])
      && Precedes(r, AddUserMessage(transcript, Voice), Send(Voice, CreateResponse(None)))
    ensures Sent(r, Text) == [] && Queued(r) == [] && StopAllAudio !in r
  {
    if Trim(transcript) == "" then [] else ShowAndAnswer(s, transcript)
  }

  /** A non-blank transcript is shown, then answered with `response.create` when the socket is open. */
  function ShowAndAnswer(s: State, transcript: string): (r: seq<Effect>)
    ensures |r| > 0 && r[0] == AddUserMessage(transcript, Voice)
    ensures Sent(r, Voice) == (if s.voice == Open then [CreateResponse(None)] else [])
    ensures Precedes(r, AddUserMessage(transcript, Voice), Send(Voice, CreateResponse(None)))
    ensures Sent(r, Text) == [] && Queued(r) == [] && StopAllAudio !in r
  {
    var shown := [AddUserMessage(transcript, Voice), UpdateStatus(ThinkingStatus)];
    PrecedesFromFirst(shown, Send(Voice, CreateResponse(None)));
    if s.voice != Open then shown
    else
      var create := [Send(Voice, CreateResponse(None))];
      var r := shown + create;
      assert Sent(r, Voice) == [CreateResponse(None)] by {
        SentOfConcat(shown, create, Voice);
      }
      assert Sent(r, Text) == [] by {
        SentOfConcat(shown, create, Text);
      }
      assert Queued(r) == [] by {
        QueuedOfConcat(shown, create);
      }
      assert Precedes(r, AddUserMessage(transcript, Voice), Send(Voice, CreateResponse(None))) by {
        PrecedesFromFirst(r, Send(Voice, CreateResponse(None)));
      }
      r
  }

  /**
   * `handleRealtimeMessage` (lines 193-274): only `hasActiveResponse` can
   * change, set by `response.created` and cleared by `response.done`; the
   * effects are those of `RealtimeEffects`.
   */
  function HandleRealtimeMessage(s: State, ev: ServerEvent): (r: Step)
    ensures r.next == s.(activeResponse := r.next.activeResponse)
    ensures ev.ResponseCreated? ==> r.next.activeResponse
    ensures ev.ResponseDone? ==> !r.next.activeResponse
    ensures !ev.ResponseCreated? && !ev.ResponseDone? ==> r.next == s
    ensures r.effects == RealtimeEffects(s, ev)
  {
    var next := match ev
      case ResponseCreated => s.(activeResponse := true)
      case ResponseDone => s.(activeResponse := false)
      case _ => s;
    Step(next, RealtimeEffects(s, ev))
  }

  /**
   * What `handleRealtimeMessage` does, event by event, besides setting the
   * response flag. Its properties are the lemmas below, one group of events
   * at a time.
   */
  function RealtimeEffects(s: State, ev: ServerEvent): (r: seq<Effect>)
    ensures ev.ResponseCreated? || ev.TextDelta? || ev.Committed? || ev.TranscriptionDelta? || ev.Unhandled? ==> r == []
  {
    match ev
    case SessionCreated => [UpdateStatus(ReadyStatus)]
    case TranscriptionCompleted(t) => AnswerTranscript(s, t)
    case TranscriptionDelta(_) => []
    case ResponseCreated => []
    case AudioTranscriptDelta(d) => [UpdateAssistant(d, Voice)]
    case TextDelta(_) => []
    case AudioDelta(d) => if d != "" then [QueueAudioChunk(d)] else []
    case ResponseDone => [FinishAssistant(Voice)]
    case SpeechStarted => [UpdateStatus(ListeningStatus), StopAllAudio]
    case SpeechStopped =>
      if s.voice == Open then [UpdateStatus(TranscribingStatus), Send(Voice, CommitAudio)]
      else [UpdateStatus(TranscribingStatus)]
    case Committed => []
    case ApiError(code) => if code != Some(CancelNotActive) then [UpdateStatus(ApiErrorStatus)] else []
    case Unhandled(_) => []
  }

  /**
   * `response.done` finishes the voice assistant message; a transcript delta
   * is appended to it.
   */
  lemma ResponseEffects(s: State, delta: string)
    ensures RealtimeEffects(s, ResponseDone) == [FinishAssistant(Voice)]
    ensures RealtimeEffects(s, AudioTranscriptDelta(delta)) == [UpdateAssistant(delta, Voice)]
  {
  }

  /**
   * The server's voice activity detection: the start of user speech stops the
   * playback and sends nothing; its end commits the audio buffer once if the
   * socket is open.
   */
  lemma SpeechEffects(s: State)
    ensures StopAllAudio in RealtimeEffects(s, SpeechStarted)
    ensures Sent(RealtimeEffects(s, SpeechStarted), Voice) == []
    ensures Sent(RealtimeEffects(s, SpeechStopped), Voice) == (if s.voice == Open then [CommitAudio] else [])
  {
  }

  /** An error only changes the status, and not for the benign cancel error. */
  lemma ErrorEffects(s: State, code: Option<string>)
    ensures var r := RealtimeEffects(s, ApiError(code));
      && (r != [] <==> code != Some(CancelNotActive))
      && forall e :: e in r ==> e.UpdateStatus?
  {
  }

  /**
   * What holds of every server event: only the start of user speech stops the
   * playback (barge-in), only a non-empty audio delta reaches the playback
   * queue, and at most one command goes out, on the voice socket and only
   * while it is open.
   */
  lemma RealtimeEffectsBounds(s: State, ev: ServerEvent)
    ensures (StopAllAudio in RealtimeEffects(s, ev)) <==> ev.SpeechStarted?
    ensures Queued(RealtimeEffects(s, ev)) == (if ev.AudioDelta? && ev.delta != "" then [ev.delta] else [])
    ensures |Sent(RealtimeEffects(s, ev), Voice)| <= 1 && Sent(RealtimeEffects(s, ev), Text) == []
    ensures Sent(RealtimeEffects(s, ev), Voice) != [] ==> s.voice == Open
  {
    match ev
    case TranscriptionCompleted(t) =>
    case _ =>
  }

  // ---------------------------------------------------------------------------
  // Typed messages and the text session
  // ---------------------------------------------------------------------------

  /** The two commands that deliver a typed message on the text socket. */
  function TextRequest(message: string): seq<Command> {
    [CreateUserMessage(message), CreateResponse(Some(TextReply))]
  }

  /** A user item carrying `message`, then `response.create`, both on the socket of `channel`. */
  function Delivery(channel: Mode, message: string, options: Option<ResponseOptions>): (r: seq<Effect>)
    ensures Sent(r, channel) == [CreateUserMessage(message), CreateResponse(options)]
    ensures forall other :: other != channel ==> Sent(r, other) == []
  {
    [Send(channel, CreateUserMessage(message)), Send(channel, CreateResponse(options))]
  }

  /** The sends of `TextRequest(message)`. */
  function TextDelivery(message: string): (r: seq<Effect>)
    ensures Sent(r, Text) == TextRequest(message) && Sent(r, Voice) == []
  {
    Delivery(Text, message, Some(TextReply))
  }

  /** The commands that deliver every message of `messages`, in order. */
  function Requests(messages: seq<string>): seq<Command>
  {
    if messages == [] then [] else TextRequest(messages[0]) + Requests(messages[1..])
  }

  /** The sends that deliver every message of `messages`, in order. */
  function Deliveries(messages: seq<string>): (r: seq<Effect>)
    ensures Sent(r, Text) == Requests(messages) && Sent(r, Voice) == []
  {
    if messages == [] then []
    else
      SentOfConcat(TextDelivery(messages[0]), Deliveries(messages[1..]), Voice);
      SentOfConcat(TextDelivery(messages[0]), Deliveries(messages[1..]), Text);
      TextDelivery(messages[0]) + Deliveries(messages[1..])
  }

  /** The texts of the user messages among `commands`, in order. */
  function UserTexts(commands: seq<Command>): seq<string>
  {
    if commands == [] then []
    else (if commands[0].CreateUserMessage? then [commands[0].text] else []) + UserTexts(commands[1..])
  }

  lemma UserTextsOfRequest(message: string, options: Option<ResponseOptions>)
    ensures UserTexts([CreateUserMessage(message), CreateResponse(options)]) == [message]
  {
    var request := [CreateUserMessage(message), CreateResponse(options)];
    assert request[1..] == [CreateResponse(options)];
    assert UserTexts(request[1..]) == [] by {
      assert request[1..][1..] == [];
    }
  }

  lemma {:induction false} UserTextsOfConcat(a: seq<Command>, b: seq<Command>)
    ensures UserTexts(a + b) == UserTexts(a) + UserTexts(b)
    decreases |a|
  {
    if a == [] {
      assert a + b == b;
    } else {
      var head := if a[0].CreateUserMessage? then [a[0].text] else [];
      assert (a + b)[1..] == a[1..] + b;
      assert (a + b)[0] == a[0];
      assert UserTexts(a + b) == head + UserTexts(a[1..] + b);
      UserTextsOfConcat(a[1..], b);
      assert UserTexts(a) == head + UserTexts(a[1..]);
    }
  }

  /**
   * Delivering the pending messages sends each of them exactly once, in
   * order, each followed by its own `response.create`.
   */
  lemma RequestsSendEachOnce(messages: seq<string>)
    ensures UserTexts(Requests(messages)) == messages
    ensures |Requests(messages)| == 2 * |messages|
    ensures forall i :: 0 <= i < |messages| ==>
      && Requests(messages)[2 * i] == CreateUserMessage(messages[i])
      && Requests(messages)[2 * i + 1] == CreateResponse(Some(TextReply))
  {
    RequestsTexts(messages);
    RequestsLayout(messages);
  }

  /** The user messages among the requests are the messages, in order. */
  lemma {:induction false} RequestsTexts(messages: seq<string>)
    ensures UserTexts(Requests(messages)) == messages
    decreases |messages|
  {
    if messages != [] {
      var rest := Requests(messages[1..]);
      RequestsTexts(messages[1..]);
      UserTextsOfConcat(TextRequest(messages[0]), rest);
      UserTextsOfRequest(messages[0], Some(TextReply));
    }
  }

  /** Message `i` is at position `2i` of the requests, its `response.create` right after it. */
  lemma {:induction false} RequestsLayout(messages: seq<string>)
    ensures |Requests(messages)| == 2 * |messages|
    ensures forall i :: 0 <= i < |messages| ==>
      && Requests(messages)[2 * i] == CreateUserMessage(messages[i])
      && Requests(messages)[2 * i + 1] == CreateResponse(Some(TextReply))
    decreases |messages|
  {
    if messages != [] {
      var rest := Requests(messages[1..]);
      RequestsLayout(messages[1..]);
      var all := Requests(messages);
      assert all == TextRequest(messages[0]) + rest;
      forall i | 0 <= i < |messages|
        ensures all[2 * i] == CreateUserMessage(messages[i])
        ensures all[2 * i + 1] == CreateResponse(Some(TextReply))
      {
        if i > 0 {
          assert all[2 * i] == rest[2 * (i - 1)];
          assert all[2 * i + 1] == rest[2 * (i - 1) + 1];
          assert messages[i] == messages[1..][i - 1];
        }
      }
    }
  }

  /** `connectTextMode` (lines 337-375): a new text socket unless already connected. */
  function ConnectTextMode(s: State): (r: Step)
    ensures s.textConnected ==> r == Step(s, [])
    ensures !s.textConnected ==> r.next.text == Connecting && OpenSocket(Text) in r.effects
    ensures r.next == s.(text := r.next.text)
    ensures Sent(r.effects, Voice) == [] && Sent(r.effects, Text) == []
  {
    if s.textConnected then Step(s, [])
    else Step(s.(text := Connecting), [UpdateStatus(TextConnectingStatus), OpenSocket(Text)])
  }

  /**
   * `textWs.onopen` (lines 345-349), which also delivers the messages typed
   * while the socket was connecting.
   */
  function OnTextOpen(s: State): (r: Step)
    ensures r.next == s.(text := Open, textConnected := true, pending := [])
    ensures Sent(r.effects, Text) == Requests(s.pending)
    ensures UserTexts(Sent(r.effects, Text)) == s.pending
    ensures Sent(r.effects, Voice) == []
    ensures s.pending == [] ==> r.effects == [UpdateStatus(TextConnectedStatus), UpdateTextButton]
  {
    var head := [UpdateStatus(TextConnectedStatus), UpdateTextButton];
    SentOfConcat(head, Deliveries(s.pending), Text);
    SentOfConcat(head, Deliveries(s.pending), Voice);
    RequestsSendEachOnce(s.pending);
    Step(s.(text := Open, textConnected := true, pending := []), head + Deliveries(s.pending))
  }

  /**
   * `textWs.onclose` (lines 356-360): the text session is gone, and so are the
   * messages that were waiting for it.
   */
  function OnTextClose(s: State): (r: Step)
    ensures !r.next.textConnected && r.next.text == Closed && r.next.pending == []
    ensures r.next == s.(text := Closed, textConnected := false, pending := [])
    ensures r.effects == [UpdateStatus(TextDisconnectedStatus), UpdateTextButton]
  {
    Step(s.(text := Closed, textConnected := false, pending := []), [UpdateStatus(TextDisconnectedStatus), UpdateTextButton])
  }

  /** `textWs.onerror` (lines 362-367): the same reset as `onclose`, with its own status. */
  function OnTextError(s: State): (r: Step)
    ensures r.next == OnTextClose(s).next
    ensures r.effects == [UpdateStatus(TextConnectionErrorStatus), UpdateTextButton]
  {
    Step(s.(text := Closed, textConnected := false, pending := []), [UpdateStatus(TextConnectionErrorStatus), UpdateTextButton])
  }

  /**
   * A failed text socket: `onerror` (lines 362-367) and then, in the same
   * task, `onclose` (lines 356-360), whose status is the one left showing.
   */
  function OnTextFailure(s: State): (r: Step)
    ensures r.next == OnTextClose(s).next
    ensures Sent(r.effects, Voice) == [] && Sent(r.effects, Text) == []
    ensures r.effects == [UpdateStatus(TextConnectionErrorStatus), UpdateTextButton, UpdateStatus(TextDisconnectedStatus), UpdateTextButton]
  {
    var error := OnTextError(s);
    var close := OnTextClose(error.next);
    SentOfConcat(error.effects, close.effects, Voice);
    SentOfConcat(error.effects, close.effects, Text);
    Step(close.next, error.effects + close.effects)
  }

  /**
   * `handleTextMessage` (lines 378-402): text-mode events only reach the page;
   * every error shows, whatever its code, and audio is ignored.
   */
  function HandleTextMessage(s: State, ev: ServerEvent): (r: Step)
    ensures r.next == s
    ensures Sent(r.effects, Voice) == [] && Sent(r.effects, Text) == []
    ensures Queued(r.effects) == [] && StopAllAudio !in r.effects
    ensures ev.ApiError? ==> r.effects == [UpdateStatus(TextApiErrorStatus)]
    ensures ev.TextDelta? || ev.AudioTranscriptDelta? ==> r.effects == [UpdateAssistant(ev.delta, Text)]
    ensures ev.ResponseDone? ==> r.effects == [FinishAssistant(Text)]
    ensures forall m :: FinishAssistant(m) in r.effects ==> m == Text
  {
    match ev
    case SessionCreated => Step(s, [UpdateStatus(TextReadyStatus)])
    case TextDelta(d) => Step(s, [UpdateAssistant(d, Text)])
    case AudioTranscriptDelta(d) => Step(s, [UpdateAssistant(d, Text)])
    case ResponseDone => Step(s, [FinishAssistant(Text)])
    case ApiError(_) => Step(s, [UpdateStatus(TextApiErrorStatus)])
    case _ => Step(s, [])
  }

  /**
   * The voice branch of `sendTextMessage` (lines 409-433): a non-empty message
   * is shown while connected and, on an open socket, sent as a user item
   * followed by `response.create`, which marks a response as active.
   */
  function SendVoiceText(s: State, message: string): (r: Step)
    ensures (AddUserMessage(message, Voice) in r.effects) <==> message != "" && s.connected
    ensures message != "" && s.connected ==> |r.effects| > 0 && r.effects[0] == AddUserMessage(message, Voice)
    ensures Sent(r.effects, Voice) ==
      (if message != "" && s.connected && s.voice == Open then [CreateUserMessage(message), CreateResponse(None)] else [])
    ensures Sent(r.effects, Text) == []
    ensures r.next.activeResponse == (s.activeResponse || Sent(r.effects, Voice) != [])
    ensures r.next == s.(activeResponse := r.next.activeResponse)
  {
    if message == "" || !s.connected then Step(s, [])
    else if s.voice == Open then
      var send := Delivery(Voice, message, None);
      SentOfConcat([AddUserMessage(message, Voice)], send + [ClearInput], Voice);
      SentOfConcat(send, [ClearInput], Voice);
      SentOfConcat([AddUserMessage(message, Voice)], send + [ClearInput], Text);
      SentOfConcat(send, [ClearInput], Text);
      Step(s.(activeResponse := true), [AddUserMessage(message, Voice)] + (send + [ClearInput]))
    else Step(s, [AddUserMessage(message, Voice), ClearInput])
  }

  /**
   * The text branch of `sendTextMessage` while the text session is connected
   * (lines 475-500): show the message, and send it if the socket is open.
   */
  function SendConnectedText(s: State, message: string): (r: Step)
    ensures r.next == s
    ensures |r.effects| > 0 && r.effects[0] == AddUserMessage(message, Text)
    ensures Sent(r.effects, Text) == (if s.text == Open then TextRequest(message) else [])
    ensures Sent(r.effects, Voice) == []
  {
    var send := if s.text == Open then TextDelivery(message) else [];
    SentOfConcat([AddUserMessage(message, Text)], send + [ClearInput], Text);
    SentOfConcat(send, [ClearInput], Text);
    SentOfConcat([AddUserMessage(message, Text)], send + [ClearInput], Voice);
    SentOfConcat(send, [ClearInput], Voice);
    Step(s, [AddUserMessage(message, Text)] + (send + [ClearInput]))
  }

  /**
   * The `.then` callback of lines 444-466: the pending message is sent only if
   * the text socket is open when the promise of `connectTextMode` settles.
   */
  function SendIfOpen(s: State, message: string): (r: Step)
    ensures r.next == s
    ensures Sent(r.effects, Text) == (if s.text == Open then TextRequest(message) else [])
    ensures Sent(r.effects, Voice) == []
  {
    if s.text == Open then Step(s, TextDelivery(message)) else Step(s, [])
  }

  /**
   * The auto-connect branch of `sendTextMessage` as written (lines 439-472).
   * `connectTextMode` has no `await`, so its promise is already settled when
   * it returns and the `.then` callback runs as the next microtask, before the
   * browser can report the new socket open: the callback sees it connecting.
   */
  function AutoConnectAsWritten(s: State, message: string): (r: Step)
    ensures r.next == ConnectTextMode(s).next && r.next.pending == s.pending
    ensures |r.effects| > 0 && r.effects[0] == AddUserMessage(message, Text)
    ensures !s.textConnected ==> r.next.text == Connecting && Sent(r.effects, Text) == []
    ensures Sent(r.effects, Voice) == []
  {
    var c := ConnectTextMode(s);
    var d := SendIfOpen(c.next, message);
    var shown := [AddUserMessage(message, Text)];
    SentOfConcat(shown, c.effects, Voice);
    SentOfConcat(shown, c.effects, Text);
    SentOfConcat(shown + c.effects, d.effects, Voice);
    SentOfConcat(shown + c.effects, d.effects, Text);
    Step(d.next, shown + c.effects + d.effects)
  }

  /**
   * The auto-connect branch as intended: the message waits in `pending` and
   * `OnTextOpen` delivers it.
   */
  function AutoConnect(s: State, message: string): (r: Step)
    ensures r.next == ConnectTextMode(s).next.(pending := s.pending + [message])
    ensures |r.effects| > 0 && r.effects[0] == AddUserMessage(message, Text)
    ensures !s.textConnected ==> r.next.text == Connecting
    ensures Sent(r.effects, Voice) == [] && Sent(r.effects, Text) == []
  {
    var c := ConnectTextMode(s);
    SentOfConcat([AddUserMessage(message, Text)], c.effects, Text);
    SentOfConcat([AddUserMessage(message, Text)], c.effects, Voice);
    Step(c.next.(pending := s.pending + [message]), [AddUserMessage(message, Text)] + c.effects)
  }

  /**
   * `sendTextMessage` as written (lines 405-501): it differs from the corrected
   * `SendTextMessage` only in the auto-connect branch, where nothing is sent
   * and nothing is kept for the socket.
   */
  function SendTextMessageAsWritten(s: State, input: string): (r: Step)
    ensures IsBlank(input) || s.tab == Voice || s.textConnected ==> r == SendTextMessage(s, input)
    ensures s.tab == Text ==>
      && Sent(r.effects, Voice) == [] && r.next.pending == s.pending
      && UserTexts(Sent(r.effects, Text)) == (if !IsBlank(input) && s.textConnected && s.text == Open then [Trim(input)] else [])
  {
    var message := Trim(input);
    if s.tab == Voice then SendVoiceText(s, message)
    else if message == "" then Step(s, [])
    else if !s.textConnected then AutoConnectAsWritten(s, message)
    else SendConnectedText(s, message)
  }

  /**
   * `sendTextMessage` with the auto-connect delivery corrected: the typed
   * input is trimmed, and in text mode a message typed before the session is
   * connected waits for it.
   */
  function SendTextMessage(s: State, input: string): (r: Step)
    ensures IsBlank(input) ==> r == Step(s, [])
    // on the voice tab the trimmed message is sent once, if connected on an open socket
    ensures s.tab == Voice ==>
      && Sent(r.effects, Text) == [] && r.next.pending == s.pending
      && UserTexts(Sent(r.effects, Voice)) == (if !IsBlank(input) && s.connected && s.voice == Open then [Trim(input)] else [])
    // on the text tab it is sent once now if the session is open, or else kept for it
    ensures s.tab == Text ==>
      && Sent(r.effects, Voice) == [] && r.next.activeResponse == s.activeResponse
      && UserTexts(Sent(r.effects, Text)) == (if !IsBlank(input) && s.textConnected && s.text == Open then [Trim(input)] else [])
      && r.next.pending == (if !IsBlank(input) && !s.textConnected then s.pending + [Trim(input)] else s.pending)
  {
    UserTextsOfRequest(Trim(input), None);
    UserTextsOfRequest(Trim(input), Some(TextReply));
    var message := Trim(input);
    if s.tab == Voice then SendVoiceText(s, message)
    else if message == "" then Step(s, [])
    else if !s.textConnected then AutoConnect(s, message)
    else SendConnectedText(s, message)
  }

  /**
   * `switchTab` (lines 62-84): switching to the voice tab closes the text
   * session; the voice call is never closed by a tab switch.
   */
  function SwitchTab(s: State, tab: Mode): (r: Step)
    ensures r.next.tab == tab
    ensures r.next.voice == s.voice && r.next.connected == s.connected
    ensures r.next.recording == s.recording && r.next.activeResponse == s.activeResponse
    ensures tab == Voice && s.text != NoSocket ==>
      r.next == s.(tab := Voice, text := NoSocket, textConnected := false, pending := []) && CloseSocket(Text) in r.effects
    ensures tab == Voice && s.text == NoSocket ==> r == Step(s.(tab := Voice), [])
    ensures tab == Text ==> r == Step(s.(tab := Text), [])
  {
    if tab == Voice && s.text != NoSocket then
      Step(s.(tab := tab, text := NoSocket, textConnected := false, pending := []), [CloseSocket(Text), UpdateTextButton])
    else Step(s.(tab := tab), [])
  }

  // ---------------------------------------------------------------------------
  // The auto-connect delivery
  // ---------------------------------------------------------------------------

  /**
   * As written, a message typed on the text tab before the text session is
   * connected is shown but never sent: the callback finds the new socket still
   * connecting, and the socket's `onopen` sends nothing of its own.
   */
  lemma AutoConnectNeverSends(s: State, message: string)
    requires !s.textConnected && s.pending == []
    ensures AutoConnectAsWritten(s, message).next.text == Connecting
    ensures Sent(AutoConnectAsWritten(s, message).effects, Text) == []
    ensures AddUserMessage(message, Text) in AutoConnectAsWritten(s, message).effects
    ensures Sent(OnTextOpen(AutoConnectAsWritten(s, message).next).effects, Text) == []
  {
    var a := AutoConnectAsWritten(s, message);
    var c := ConnectTextMode(s);
    SentOfConcat([AddUserMessage(message, Text)], c.effects, Text);
    SentOfConcat([AddUserMessage(message, Text)] + c.effects, [], Text);
    assert a.effects == [AddUserMessage(message, Text)] + c.effects + [];
    assert a.effects[0] == AddUserMessage(message, Text);
  }

  /**
   * With the message kept until the socket opens, every message typed while
   * the session was connecting is sent once, in the order typed, when it opens.
   */
  lemma AutoConnectDeliversOnOpen(s: State, input: string)
    requires s.tab == Text && !s.textConnected && !IsBlank(input)
    ensures UserTexts(Sent(OnTextOpen(SendTextMessage(s, input).next).effects, Text)) == s.pending + [Trim(input)]
  {
  }

  // ---------------------------------------------------------------------------
  // The session over a sequence of inputs
  // ---------------------------------------------------------------------------

  /** What can happen to the page: a user action or a socket callback. */
  datatype Input =
    | ClickCall                          // toggleCall
    | MicrophoneAnswer(granted: bool)    // the microphone request of startRecording settles
    | VoiceOpened | VoiceClosed
    | VoiceFailed                        // onerror, then onclose in the same task
    | VoiceEvent(ev: ServerEvent)        // realtimeWs.onmessage
    | Captured(samples: seq<Pcm.Int16>)  // processor.onaudioprocess
    | Typed(input: string)               // sendTextMessage with this input value
    | ConnectText                        // the connect-text button: connectTextMode
    | TextOpened | TextClosed
    | TextFailed                         // onerror, then onclose in the same task
    | TextEvent(ev: ServerEvent)         // textWs.onmessage
    | SelectTab(tab: Mode)               // switchTab

  /** A socket callback only fires for a socket in the matching state. */
  predicate Possible(s: State, i: Input) {
    match i
    case VoiceOpened => s.voice == Connecting
    case VoiceClosed => s.voice in {Connecting, Open, Closing}
    case VoiceFailed => s.voice in {Connecting, Open, Closing}
    case VoiceEvent(_) => s.voice == Open
    case TextOpened => s.text == Connecting
    case TextClosed => s.text in {Connecting, Open, Closing}
    case TextFailed => s.text in {Connecting, Open, Closing}
    case TextEvent(_) => s.text == Open
    case _ => true
  }

  /** One input; an input that cannot happen in `s` changes nothing. */
  function Apply(s: State, i: Input): Step {
    if !Possible(s, i) then Step(s, [])
    else match i
      case ClickCall => ToggleCall(s)
      case MicrophoneAnswer(granted) => MicrophoneSettled(s, granted)
      case VoiceOpened => OnVoiceOpen(s)
      case VoiceClosed => OnVoiceClose(s)
      case VoiceFailed => OnVoiceFailure(s)
      case VoiceEvent(ev) => HandleRealtimeMessage(s, ev)
      case Captured(samples) => CaptureFrame(s, samples)
      case Typed(input) => SendTextMessage(s, input)
      case ConnectText => ConnectTextMode(s)
      case TextOpened => OnTextOpen(s)
      case TextClosed => OnTextClose(s)
      case TextFailed => OnTextFailure(s)
      case TextEvent(ev) => HandleTextMessage(s, ev)
      case SelectTab(tab) => SwitchTab(s, tab)
  }

  /** The inputs in order, with all their effects. */
  function Run(s: State, inputs: seq<Input>): Step
    decreases |inputs|
  {
    if inputs == [] then Step(s, [])
    else
      var first := Apply(s, inputs[0]);
      var rest := Run(first.next, inputs[1..]);
      Step(rest.next, first.effects + rest.effects)
  }

  /** One input to the client as written: a typed message takes the as-written auto-connect. */
  function ApplyAsWritten(s: State, i: Input): Step {
    if i.Typed? then SendTextMessageAsWritten(s, i.input) else Apply(s, i)
  }

  /**
   * The flags agree with the sockets: connected while open or closing after
   * `endConversation`, text-connected exactly while the text socket is open,
   * and typed messages wait only for a connecting text socket.
   */
  predicate Consistent(s: State) {
    && (s.connected ==> s.voice == Open || s.voice == Closing)
    && (s.voice == Open ==> s.connected)
    && (s.textConnected <==> s.text == Open)
    && (s.pending != [] ==> s.text == Connecting)
  }

  lemma InitialConsistent()
    ensures Consistent(Initial)
  {
  }

  /** Every input keeps the flags consistent with the sockets. */
  lemma ApplyKeepsConsistent(s: State, i: Input)
    requires Consistent(s)
    ensures Consistent(Apply(s, i).next)
  {
    if Possible(s, i) {
      var n := Apply(s, i).next;
      match i
      case ClickCall =>
        if s.recording {
          assert n == EndConversation(s).next;
        } else {
          assert n == StartConversation(s).next;
        }
      case MicrophoneAnswer(granted) => assert n == MicrophoneSettled(s, granted).next;
      case VoiceOpened => assert n == OnVoiceOpen(s).next;
      case VoiceClosed => assert n == OnVoiceClose(s).next;
      case VoiceFailed => assert n == OnVoiceFailure(s).next;
      case VoiceEvent(ev) => assert n == HandleRealtimeMessage(s, ev).next;
      case Captured(samples) => assert n == CaptureFrame(s, samples).next;
      case Typed(input) => TypedKeepsConsistent(s, input);
      case ConnectText => assert n == ConnectTextMode(s).next;
      case TextOpened => assert n == OnTextOpen(s).next;
      case TextClosed => assert n == OnTextClose(s).next;
      case TextFailed => assert n == OnTextFailure(s).next;
      case TextEvent(ev) => assert n == HandleTextMessage(s, ev).next;
      case SelectTab(tab) => assert n == SwitchTab(s, tab).next;
    }
  }

  lemma TypedKeepsConsistent(s: State, input: string)
    requires Consistent(s)
    ensures Consistent(SendTextMessage(s, input).next)
  {
    var message := Trim(input);
    if s.tab == Text && message != "" {
      if !s.textConnected {
        assert SendTextMessage(s, input).next == AutoConnect(s, message).next;
      } else {
        assert SendTextMessage(s, input).next == SendConnectedText(s, message).next;
      }
    }
  }

  /** The client as written keeps the flags consistent with the sockets too. */
  lemma ApplyAsWrittenKeepsConsistent(s: State, i: Input)
    requires Consistent(s)
    ensures Consistent(ApplyAsWritten(s, i).next)
  {
    if i.Typed? {
      TypedAsWrittenKeepsConsistent(s, i.input);
    } else {
      ApplyKeepsConsistent(s, i);
    }
  }

  lemma TypedAsWrittenKeepsConsistent(s: State, input: string)
    requires Consistent(s)
    ensures Consistent(SendTextMessageAsWritten(s, input).next)
  {
    if s.tab == Text && Trim(input) != "" && !s.textConnected {
      assert SendTextMessageAsWritten(s, input).next == ConnectTextMode(s).next;
    } else {
      TypedKeepsConsistent(s, input);
    }
  }

  /**
   * In the client as written no typed message ever waits for the text socket,
   * so its `onopen` (lines 345-349) sends nothing.
   */
  lemma AsWrittenNothingWaits(s: State, i: Input)
    requires s.pending == []
    ensures ApplyAsWritten(s, i).next.pending == []
  {
    if !i.Typed? && Possible(s, i) {
      var n := Apply(s, i).next;
      match i
      case ClickCall =>
        if s.recording {
          assert n == EndConversation(s).next;
        } else {
          assert n == StartConversation(s).next;
        }
      case TextOpened => assert n == OnTextOpen(s).next;
      case TextEvent(ev) => assert n == HandleTextMessage(s, ev).next;
      case VoiceEvent(ev) => assert n == HandleRealtimeMessage(s, ev).next;
      case _ =>
    }
  }

  lemma {:induction false} RunKeepsConsistent(s: State, inputs: seq<Input>)
    requires Consistent(s)
    ensures Consistent(Run(s, inputs).next)
    decreases |inputs|
  {
    if inputs != [] {
      ApplyKeepsConsistent(s, inputs[0]);
      RunKeepsConsistent(Apply(s, inputs[0]).next, inputs[1..]);
    }
  }

  /** Every voice command goes out while the voice socket is open. */
  lemma VoiceSentOnlyWhenOpen(s: State, i: Input)
    ensures Sent(Apply(s, i).effects, Voice) != [] ==> s.voice == Open
  {
    if Possible(s, i) {
      match i
      case ClickCall =>
        if s.recording {
          assert Apply(s, i).effects == EndingEffects(s);
        }
      case VoiceEvent(ev) => RealtimeEffectsBounds(s, ev);
      case _ =>
    }
  }

  /**
   * Every text command goes out while the text socket is open, or in the
   * `onopen` that opens it.
   */
  lemma TextSentOnlyWhenOpen(s: State, i: Input)
    ensures Sent(Apply(s, i).effects, Text) != [] ==> s.text == Open || (i == TextOpened && s.text == Connecting)
  {
    if Possible(s, i) {
      match i
      case ClickCall =>
        if s.recording {
          assert Apply(s, i).effects == EndingEffects(s);
        }
      case VoiceEvent(ev) => RealtimeEffectsBounds(s, ev);
      case _ =>
    }
  }
}
