# Realtime voice chat client, modelled in Dafny

This project models the browser client of a realtime voice and text chat
demo (`static/script.js`). The client talks to a relay over two WebSockets:
one for the voice call and one for text chat. For the voice call it streams
PCM16 audio up, and it plays back the PCM16 fragments the assistant sends
down. The model covers three parts of the client:

- **The playback queue** (`Playback.PlaybackQueue`) is a class. Its fields are
  the FIFO `audioQueue`, the `isPlayingAudio` guard and the `audioSourceNodes`
  registry, plus a record of every buffer started and every `stop()` call.
  - Each `await` of the drain loop is a step boundary. Drain loops that are
    suspended are ghost control state: loops waiting for the `onended` of the
    source they started, and loops at the loop test after their 10 ms pause
    or a caught failure.
  - Decoding a fragment is the Int16 view of its bytes (`Pcm`). Base64
    decoding (`atob`) is a parameter.
- **The session**: the flags `isConnected`, `isRecording`,
  `hasActiveResponse` and `isTextConnected`, the two sockets and the current
  tab (`Session`).
  - Every handler is a function from the state to the next state and the
    ordered list of effects it performs. Effects are commands sent on a
    socket and calls into the page, the playback queue and the microphone.
  - `Session.Apply`/`Session.Run` play a sequence of user actions (the call
    button, a typed message, the connect-text button, a tab switch) and socket
    callbacks through the client with the auto-connect delivery corrected (see
    "Findings"): `SendTextMessage` keeps a message typed before the text session
    is connected, and `OnTextOpen` delivers it. `Session.ApplyAsWritten` is the
    client as written. It differs only for a typed message, which takes
    `SendTextMessageAsWritten`. Consistency of the flags is proved for both.
    As written, no message ever waits, so `OnTextOpen` sends nothing, as at
    lines 345-349.
  - A failing socket fires `error` and then `close` in the same task, so a
    failure runs `onerror` and then `onclose` (`OnVoiceFailure`,
    `OnTextFailure`).
- **The in-progress assistant message** of each mode (`Messages`).

`Scenarios` drives the playback queue through two concrete runs: a barge-in,
and a restart after a barge-in in the middle of a drain.

While no drain loop is interrupted, the guard means exactly one loop
(`SingleDrain`). A `stopAllAudio` in the middle of a drain drops the guard
while the old loop is still suspended. The model therefore proves only the
weaker invariant `Valid`: the registry holds distinct started sources, each
still awaited by the loop that started it (a stopped source that has left the
registry may still be awaited until its `onended`), and the fragments started are a subsequence of those
queued, in queue order. `Scenarios.OverlapAfterStop` shows two buffers
playing at once in such a run.

## Model

| member | source | states |
|---|---|---|
| Common.IndexOf | static/script.js:613 | the result is -1 exactly when the handle is absent; otherwise it is the first position holding it |
| Pcm.Word | static/script.js:594 | the value read from a little-endian byte pair is congruent to `lo + 256*hi` modulo 2^16, and it is negative exactly when the high byte has its top bit set |
| Pcm.WordOfSample | static/script.js:594 | reading back the two bytes written for a sample gives that sample |
| Pcm.SampleOfWord | static/script.js:594 | writing the sample read from two bytes gives those bytes back |
| Pcm.Pairs | static/script.js:594 | an even byte sequence is read as half as many samples, sample `i` coming from bytes `2i` and `2i+1` |
| Pcm.Samples | static/script.js:594 | `new Int16Array(bytes.buffer)` succeeds exactly when the byte length is even, with one sample per byte pair; otherwise it fails with `RangeError` for that length |
| Pcm.Bytes | static/script.js:638 | `new Uint8Array(pcm16.buffer)` holds two bytes per sample, low byte first |
| Pcm.SamplesOfBytes | static/script.js:594 | reading the bytes of any samples gives back those samples |
| Pcm.BytesOfSamples | static/script.js:638 | writing the samples read from an even byte sequence gives back those bytes |
| Strings.TrimStart | static/script.js:204 | the result is a suffix of the input; what it drops is all white space, and it does not start with white space |
| Strings.TrimEnd | static/script.js:204 | the result is a prefix of the input; what it drops is all white space, and it does not end with white space |
| Strings.Leading | static/script.js:204 | the count of leading white space characters: all of them are white space, and the next character (if any) is not |
| Strings.Trim | static/script.js:204 | `String.prototype.trim`: the input minus its leading and trailing white space; neither end of the result is white space; the result is empty exactly when the input is blank |
| Strings.TrimIdempotent | static/script.js:407 | trimming twice is trimming once |
| Playback.TryStart | static/script.js:563-628 | a fragment reaches a started buffer exactly when it decodes to a non-empty, even number of bytes, and the buffer holds the samples those bytes encode; otherwise the failure is `Undecodable`, `OddLength` or `EmptyBuffer` |
| Playback.Unregister | static/script.js:611-617 | the `onended` removal: an absent handle leaves the registry as it is; a present one drops exactly one entry (multiset difference), keeping the order of the others; a registry of distinct handles stays distinct and loses the handle |
| Playback.PlayedInTakenOrder | static/script.js:527-535 | the fragments started are a subsequence of the fragments shifted from the queue |
| Playback.PlaybackQueue.constructor | static/script.js:20-22 | an empty queue, the guard down, no sources and no drain loop |
| Playback.PlaybackQueue.Enqueue | static/script.js:512-518 | appends at the tail; when no loop holds the guard it starts one, which takes the fragment at once; keeps `Valid` and `SingleDrain` |
| Playback.PlaybackQueue.ProcessQueue | static/script.js:520-531 | nothing changes when the queue is empty or the guard is up; otherwise takes the guard and attempts the head |
| Playback.PlaybackQueue.TakeNext | static/script.js:527-538 | at the loop test: an empty queue ends the loop and drops the guard; otherwise shifts the head and starts it or records its failure |
| Playback.PlaybackQueue.Begin | static/script.js:592-624 | a started fragment appends one buffer to the output and registers its new source, which the loop then awaits |
| Playback.PlaybackQueue.Skip | static/script.js:533-535 | a failed fragment is logged as skipped and its loop moves to the loop test; output and registry unchanged |
| Playback.PlaybackQueue.Resume | static/script.js:527-532 | a loop at the loop test runs its next pass, whose effect is `TakeNext`'s |
| Playback.PlaybackQueue.SourceEnded | static/script.js:611-618 | exactly the ended source leaves the registry (if still there); the loop awaiting it moves to its pause; nothing else changes |
| Playback.PlaybackQueue.ClearQueue | static/script.js:557-560 | the queue is emptied (its fragments logged as dropped) and the guard dropped; sources and suspended loops untouched |
| Playback.PlaybackQueue.StopAll | static/script.js:542-555 | `stop()` is called on every registered source in registry order; then the registry and queue are empty and the guard is down; repeating it calls nothing and drops nothing |
| Playback.PlaybackQueue.StartsFollowEnqueueOrder | static/script.js:512-535 | the buffers started are a subsequence of the fragments queued, in queue order |
| Messages.AssistantMessages.constructor | static/script.js:663-671 | both modes start with an empty buffer and no open message |
| Messages.AssistantMessages.Update | static/script.js:673-708 | opens the mode's message if none is open, starting from the empty string, appends the delta, and leaves the other mode untouched |
| Messages.AssistantMessages.Finish | static/script.js:745-751 | closes the mode's message and empties its buffer; the status is set exactly when a message was open |
| Session.Close | static/script.js:168-169 | `ws.close()` leaves no socket connecting or open: a connecting or open socket becomes closing, any other is left as it is |
| Session.StartConversation | static/script.js:106-154 | nothing when already connected and recording; a new socket exactly when not connected; recording is started exactly when connected and not recording; no command is sent; when connected the state is unchanged, otherwise only the voice socket changes, to connecting |
| Session.OnVoiceOpen | static/script.js:115-119 | the socket is open and connected, the status is set, then recording is started |
| Session.MicrophoneSettled | static/script.js:277-319 | recording exactly when the microphone was granted (or already recording); one status update either way; no command |
| Session.Disconnected | static/script.js:126-141 | the voice flags are all false and the text session is untouched |
| Session.OnVoiceClose | static/script.js:126-132 | `isConnected`, `isRecording` and `hasActiveResponse` become false; the playback queue is not touched |
| Session.OnVoiceError | static/script.js:134-141 | the same state as `onclose`, with the error status |
| Session.OnVoiceFailure | static/script.js:126-141 | a failed voice socket runs `onerror` and then `onclose`: the state `onclose` gives, both statuses with the disconnect one last, the call button reset twice, nothing sent |
| Session.StopRecording | static/script.js:322-334 | not recording, and the microphone is released; nothing else changes |
| Session.EndConversation | static/script.js:157-177 | recording stops and a connecting or open socket becomes closing; nothing else in the state changes, so `isConnected` and `hasActiveResponse` wait for the socket's close |
| Session.EndingEffects | static/script.js:159-170 | `response.cancel` is sent exactly when a response is active and the socket open, and nothing else is sent |
| Session.CancelEffects | static/script.js:159-163 | the cancel is the one effect exactly when a response is active on an open socket, and is sent on the voice socket |
| Session.ClosingEffects | static/script.js:168-172 | the socket is closed exactly when there is one, then the status is set; nothing is sent |
| Session.EndingOrder | static/script.js:157-170 | the cancel, when sent, comes first; the microphone is released before the queue is cleared, and the queue is cleared before the socket is closed |
| Session.EndingReleasesAndClears | static/script.js:165-166 | ending a call always releases the microphone and clears the playback queue |
| Session.EndingClosesSocket | static/script.js:168-170 | ending a call closes the voice socket exactly when there is one |
| Session.EndingSkipsStopAll | static/script.js:157-177 | ending a call never calls `stopAllAudio`: no source is sent `stop()` and the registry is left as it is |
| Session.ToggleCall | static/script.js:87-103 | ends the call while recording, starts one otherwise |
| Session.CaptureFrame | static/script.js:296-307 | a frame is sent exactly when recording on an open socket, as one `input_audio_buffer.append` whose bytes read back as the captured samples |
| Session.AnswerTranscript | static/script.js:202-216 | a blank transcript does nothing; any other is shown first and answered by one `response.create` exactly when the socket is open, after it is shown |
| Session.HandleRealtimeMessage | static/script.js:193-274 | only `hasActiveResponse` changes: set by `response.created`, cleared by `response.done`, kept by every other event |
| Session.RealtimeEffects | static/script.js:193-274 | `response.created`, `response.text.delta`, `input_audio_buffer.committed`, a transcription delta and an unknown event have no effect besides the response flag |
| Session.ResponseEffects | static/script.js:227-240 | `response.done` finishes the voice assistant message; a transcript delta is appended to it |
| Session.SpeechEffects | static/script.js:242-258 | `speech_started` stops all audio and sends nothing; `speech_stopped` sends one `input_audio_buffer.commit` exactly when the socket is open |
| Session.ErrorEffects | static/script.js:264-269 | an error only updates the status, and does so exactly when its code is not `response_cancel_not_active` |
| Session.RealtimeEffectsBounds | static/script.js:193-274 | for every event: `stopAllAudio` exactly on `speech_started`; exactly the non-empty audio deltas are queued; at most one command, on the voice socket and only while it is open |
| Session.Delivery | static/script.js:412-429 | a user `conversation.item.create` with the message, then `response.create`, both on the chosen socket and none on the other |
| Session.TextDelivery | static/script.js:478-496 | the text-mode request: the message, then `response.create` with the text modality and instructions |
| Session.Deliveries | static/script.js:444-466 | the sends for a list of messages are the concatenated requests, none on the voice socket |
| Session.RequestsSendEachOnce | static/script.js:444-466 | each message is sent once, in order, each followed by its own `response.create` |
| Session.RequestsTexts | static/script.js:444-466 | the user messages among the requests are exactly the messages, in order |
| Session.RequestsLayout | static/script.js:444-466 | message `i` is request `2i`, and its `response.create` is request `2i+1` |
| Session.ConnectTextMode | static/script.js:337-375 | nothing when the text session is connected; otherwise a new connecting socket |
| Session.OnTextOpen | static/script.js:345-349 | the text session is open and connected, and nothing else in the state changes; in the corrected client (see "Findings") the waiting messages go out in the order typed, and as written none wait (`AsWrittenNothingWaits`), so only the status is set |
| Session.OnTextClose | static/script.js:356-360 | the text session is not connected, and nothing waits for it |
| Session.OnTextError | static/script.js:362-367 | the same state as `onclose`, with the error status |
| Session.OnTextFailure | static/script.js:356-367 | a failed text socket runs `onerror` and then `onclose`: the state `onclose` gives, both statuses with the disconnect one last, nothing sent |
| Session.HandleTextMessage | static/script.js:378-402 | text events change no flag, send nothing and never touch audio; any error shows, whatever its code; text and transcript deltas go to the text message; `response.done` finishes it |
| Session.SendVoiceText | static/script.js:409-433 | on the voice tab a non-empty message is shown exactly when connected, and sent with `response.create` exactly when the socket is also open, which alone marks a response active |
| Session.SendConnectedText | static/script.js:474-500 | with a connected text session the message is shown first and sent exactly when the socket is open |
| Session.SendIfOpen | static/script.js:444-466 | the callback sends the request exactly when the text socket is open |
| Session.AutoConnect | static/script.js:436-472 | corrected definition (see "Findings"): a message typed before the text session is connected is shown and waits for the socket, which is connecting; otherwise the state is the one `connectTextMode` gives |
| Session.AutoConnectAsWritten | static/script.js:436-472 | as written: the message is shown and the socket is connecting, the state is the one `connectTextMode` gives, nothing waits, and nothing is sent |
| Session.SendTextMessage | static/script.js:405-501 | corrected definition (see "Findings"): a blank input does nothing; the trimmed message is sent once on the tab's socket when that session is open, none on the other socket; in text mode it otherwise waits for the session |
| Session.SendTextMessageAsWritten | static/script.js:405-501 | as written: the same as the corrected `SendTextMessage` for a blank input, on the voice tab and with a connected text session; in text mode the message is sent once only when the session is connected and open, and nothing is ever kept waiting |
| Session.SwitchTab | static/script.js:62-84 | the voice call is never touched; going to the voice tab closes and drops the text session, and the state changes in nothing else |
| Session.AutoConnectNeverSends | static/script.js:436-472 | as written, a message typed before the text session is connected is shown but sent neither by the callback nor when the socket opens |
| Session.AutoConnectDeliversOnOpen | static/script.js:436-472 | with the message kept for the socket, its `onopen` sends every waiting message in order, this one last |
| Session.InitialConsistent | static/script.js:1-10 | the initial flags agree with the (absent) sockets |
| Session.ApplyKeepsConsistent | static/script.js:62-501 | every user action (call button, typed message, connect-text button, tab switch) and socket callback keeps the flags consistent with the sockets |
| Session.TypedKeepsConsistent | static/script.js:405-501 | sending a typed message keeps the flags consistent with the sockets |
| Session.RunKeepsConsistent | static/script.js:62-501 | any sequence of inputs keeps the flags consistent with the sockets |
| Session.TypedAsWrittenKeepsConsistent | static/script.js:405-501 | sending a typed message as written keeps the flags consistent with the sockets |
| Session.ApplyAsWrittenKeepsConsistent | static/script.js:62-501 | every input to the client as written keeps the flags consistent with the sockets |
| Session.AsWrittenNothingWaits | static/script.js:345-349 | in the client as written no input makes a message wait for the text socket, so `onopen` has nothing to send |
| Session.VoiceSentOnlyWhenOpen | static/script.js:62-501 | every voice command goes out while the voice socket is open |
| Session.TextSentOnlyWhenOpen | static/script.js:62-501 | every text command goes out while the text socket is open, or in the `onopen` that opens it |
| Scenarios.SilenceStarts | static/script.js:594 | two zero bytes start a buffer of one zero sample |
| Scenarios.FirstPlaying | static/script.js:512-535 | a fragment queued on an idle queue starts at once: one buffer playing on source 0, the loop awaiting it |
| Scenarios.TwoWaiting | static/script.js:512-518 | fragments queued while one plays wait in order behind it; no second loop starts |
| Scenarios.BargeIn | static/script.js:542-560 | the playing source is stopped and both waiting fragments dropped; when the old loop wakes it ends, and nothing more plays |
| Scenarios.RestartAfterStop | static/script.js:512-559 | after a barge-in mid-drain, the next fragment starts a second loop while the first still awaits its stopped source |
| Scenarios.OverlapAfterStop | static/script.js:520-559 | the old loop then takes a fragment too: two sources are registered and playing at once |

## Left out

- `main.py` is not part of this model. It is a relay that forwards messages between the browser and the service.
- The page is not modelled: message bubbles, Markdown, buttons and status text. `addMessage`, `updateStatus`, `resetCallButton` and `updateTextButtonState` are recorded as effects, with the status strings kept.
- The browser media APIs are not modelled: `getUserMedia`, `AudioContext`, `ScriptProcessor`, buffer sources and gain. A granted microphone is the `MicrophoneAnswer` input; a started buffer is an entry of `output`.
  - `MicrophoneAnswer` may arrive at any time, including when no request is outstanding.
  - The suspended-context resume path (lines 578-581) and the volume slider are not modelled.
- Floating point is not modelled: the `/ 32768.0` scaling (line 599) and `convertFloat32ToPCM16` (lines 632-639). A captured frame is already a sequence of 16-bit samples.
- Base64 is not modelled. `atob` is a parameter that may fail, and `btoa` is left to the browser: an append command carries the bytes that are encoded on the wire.
- JSON parsing is not modelled. An inbound message is already a `ServerEvent`.
  - An `error` event without `data.error` throws in the source. The model treats a missing code as `None`.
  - A missing transcript counts as the empty one.
- Timing is not modelled. Every `await` and callback is a separate step, and any interleaving that respects the socket states is allowed. The 10 ms pause is the `pausing` state.
- Multiple socket instances are not modelled. After `switchTab`, or after a second `connectTextMode` while connecting, the old socket's late callbacks are ignored. The model only follows the socket the variable holds.
- The `catch` paths of `startConversation` and `connectTextMode` (a throwing `new WebSocket`) are not modelled, and neither is the auto-connect `.catch`. Nothing in the source lets that promise reject.
- The byte order is little-endian, as on every mainstream browser platform.
- The `beforeunload` cleanup (lines 772-782) is not modelled.
- The page markup that binds the connect-text button to `connectTextMode` is not part of this model. The button is the `ConnectText` input; lines 650-661 keep it enabled until the text session is connected.
- Closing the audio context in `stopRecording` (lines 330-333) is not modelled in the playback queue. Every buffer plays on that context (lines 572-576, 595, 622). The model does not capture what closing it does to the sources that are playing, or to the loop awaiting their `onended`. In the model, those sources stay registered and awaited until a `SourceEnded` step.
- Several behaviours a reader may not expect are modelled as the code has them:
  - `onclose` and `onerror` reset the flags but neither release the microphone nor clear the playback queue.
  - `endConversation` calls `clearAudioQueue` and not `stopAllAudio`, so no source is sent `stop()` and the registry is not emptied. The buffer that is playing still goes silent, because `stopRecording` closes the audio context it plays on (lines 330-333).
  - `response.create` is sent without checking `hasActiveResponse`.
  - `connectTextMode` guards only on `isTextConnected`, so it can open a second text socket while one is connecting. This is why at most one text session is not proved.
- Playback.PlaybackQueue.SingleDrain: not established as an invariant. It holds from the constructor and through `Enqueue`, `SourceEnded` and `Resume`, but not through a `StopAll` or `ClearQueue` during a drain. `Scenarios.OverlapAfterStop` shows why.

## Findings

| source | as written | input that shows it | evidently intended | confidence | as-written member | corrected member |
|---|---|---|---|---|---|---|
| static/script.js:436-472 | the message typed while the text session is not connected is sent from `connectTextMode().then(...)` only if `textWs.readyState === OPEN`. `connectTextMode` has no `await`, so its promise is already settled and the callback runs as a microtask before the new socket can open. `onopen` sends nothing of its own. | on the text tab with no text session, type "hi" and press Enter: "hi" is shown, the socket opens, and no `conversation.item.create` is ever sent | the message is delivered once the text session is connected, exactly once | not executed | Session.AutoConnectNeverSends, with Session.SendTextMessageAsWritten and Session.AutoConnectAsWritten | Session.AutoConnectDeliversOnOpen, with the corrected definitions Session.SendTextMessage, Session.AutoConnect and Session.OnTextOpen |
