# Microphone recorder and transcription handler, modelled in Dafny

This project models the two pieces of the interview-practice app that hold
real behaviour:

- **the transcription hook** (`useAudioTranscription`). It takes a recorded
  audio blob and rejects it if it is empty. It normalises the blob's MIME
  label to one of `audio/wav`, `audio/mp4`, `audio/mp3` or `audio/webm`, and
  takes the base64 payload out of the data URL produced by the browser's
  FileReader. It then calls the remote `transcribe-audio` function with
  language `fr`, and reports the result through the `setAnswer` sink and one
  notification. The `isTranscribing` flag is raised on entry and lowered on
  every path.
- **the recorder button** (`AudioRecorder`). It has three flags of its own
  (`permissionDenied`, `isSecureContext`, `showPermissionHint`) and a status
  effect. Its start handler probes the microphone before it calls the
  caller's `startRecording`. Its rendering rules decide whether the button is
  disabled, which callback a click reaches, and which icon and caption it
  shows.

Files:

- `Wrappers.dfy`: `Option` (JavaScript's absent values) and `Result` (a step
  that returns a value or throws an `Error` with a message).
- `Text.dfy`: JavaScript's `String.prototype.includes` (`Contains`) and
  `String.prototype.split` (`Split`). `Split` is proved against
  `Array.prototype.join`: joining the fields gives the string back, no field
  holds the separator, and splitting `a + sep + b` peels off `a`.
- `Transcription.dfy`: the hook. `NormalizeMime`, `ExtractPayload`,
  `EncodePayload` (the reader callbacks) and `CheckReply` (the checks on the
  remote reply) are pure functions. `TryTranscribe` and `Transcribe` give
  the outcome of one run as a value. The class `TranscriptionHook` runs the
  handler step by step: a labelled block whose `break` stands for the
  `throw`, then the `catch` and the `finally`. Its contract ties what it sent,
  what the sink received and what the notification said to `Transcribe`.
- `Recorder.dfy`: the button. `RecorderState`, `Step` and `Run` give the
  flags as values, changed by events. The class `AudioRecorder` has one
  method per event, and each method's contract names the matching `Step`.
  Lemmas over event traces state how the flags behave across many events.

The collaborators are inputs:

- The FileReader is a function `Blob -> Option<string>`: the data URL it
  produces, or `None` when it signals an error.
- The remote function is a function `Request -> Reply`: its `{data, error}`
  reply to a request body.
- `window.isSecureContext` is a parameter of the status effect.
- The microphone probe's outcome decides which event follows the start.
- The caller's `startRecording`, `stopRecording` and `setAnswer` callbacks
  are recorded as counters or logs, not run.

Two details of the code's behaviour are easy to miss:

- The remote reply has two error channels. One is the client's `error`
  object, whose `message` is used after the "Erreur du serveur: " prefix. The
  other is `data.error`, which is checked only when `data.text` is missing or
  empty.
- The status effect runs on mount as well as on every status change.

## Model

| member | source | states |
|---|---|---|
| `Text.Contains` | src/pages/Questions/hooks/useAudioTranscription.ts:23-28 | `includes` holds when the label starts with the marker, and only when the marker fits in the label and its first character occurs there |
| `Text.ContainsIff` | src/pages/Questions/hooks/useAudioTranscription.ts:23-28 | the `includes` test used by the normaliser holds exactly when the marker occurs at some offset of the label |
| `Text.Split` | src/pages/Questions/hooks/useAudioTranscription.ts:43 | `split(',')` always returns at least one field |
| `Text.JoinSplit` | src/pages/Questions/hooks/useAudioTranscription.ts:43 | joining the fields of `split` with the separator gives the original string back |
| `Text.SplitFieldsFree` | src/pages/Questions/hooks/useAudioTranscription.ts:43 | no field returned by `split` contains the separator |
| `Text.SplitAfterSep` | src/pages/Questions/hooks/useAudioTranscription.ts:43 | splitting `a + ',' + b`, where `a` has no comma, yields `a` followed by the fields of `b` |
| `Transcription.NormalizeMime` | src/pages/Questions/hooks/useAudioTranscription.ts:20-32 | the normalised type is always one of wav, mp4, mp3, webm |
| `Transcription.NormalizeFirstMatch` | src/pages/Questions/hooks/useAudioTranscription.ts:23-32 | the wav markers win over everything; otherwise the mp4 markers; otherwise the mpeg/mp3 markers; a label with no marker gives webm |
| `Transcription.NormalizeEmpty` | src/pages/Questions/hooks/useAudioTranscription.ts:20 | an empty label gives `audio/webm` |
| `Transcription.NormalizeFixesCanonical` | src/pages/Questions/hooks/useAudioTranscription.ts:23-32 | each of the four canonical types normalises to itself |
| `Transcription.NormalizeIdempotent` | src/pages/Questions/hooks/useAudioTranscription.ts:20-32 | normalising an already normalised type returns it unchanged |
| `Transcription.NormalizeXWav` | src/pages/Questions/hooks/useAudioTranscription.ts:23-24 | `audio/x-wav` gives `audio/wav` |
| `Transcription.NormalizeXM4a` | src/pages/Questions/hooks/useAudioTranscription.ts:25-26 | `audio/x-m4a` gives `audio/mp4` |
| `Transcription.NormalizeMpeg` | src/pages/Questions/hooks/useAudioTranscription.ts:27-28 | `audio/mpeg` gives `audio/mp3` |
| `Transcription.NormalizeOgg` | src/pages/Questions/hooks/useAudioTranscription.ts:29-32 | an unrecognised type such as `audio/ogg` gives `audio/webm` |
| `Transcription.ExtractPayload` | src/pages/Questions/hooks/useAudioTranscription.ts:43 | `split(',')[1]` is missing exactly when the data URL has no comma, and the field it gives contains no comma |
| `Transcription.ExtractedFieldShape` | src/pages/Questions/hooks/useAudioTranscription.ts:43 | an extracted payload sits between the first comma and the next comma or the end |
| `Transcription.FieldShapeExtracted` | src/pages/Questions/hooks/useAudioTranscription.ts:43 | a field between the first comma and the next comma or the end is what is extracted |
| `Transcription.ExtractPayloadField` | src/pages/Questions/hooks/useAudioTranscription.ts:43 | the extracted payload is `p` exactly when the URL is `head,p` followed by nothing or by another comma, with no comma in `head` or `p` |
| `Transcription.ExtractPayloadExample` | src/pages/Questions/hooks/useAudioTranscription.ts:43 | `data:audio/webm;base64,GkXf` yields `GkXf` |
| `Transcription.CheckReply` | src/pages/Questions/hooks/useAudioTranscription.ts:75-84 | the reply is accepted exactly when it has no error and a non-empty `data.text`, and then yields that text; a server error always fails with a message starting "Erreur du serveur: "; every failure message is non-empty |
| `Transcription.FailureToast` | src/pages/Questions/hooks/useAudioTranscription.ts:94-98 | a failure notification has the failure title, the destructive variant and a non-empty description, which is the thrown message whenever that is non-empty |
| `Transcription.EncodePayload` | src/pages/Questions/hooks/useAudioTranscription.ts:38-55 | the reader step fails only with the conversion message or the processing message |
| `Transcription.TryTranscribe` | src/pages/Questions/hooks/useAudioTranscription.ts:12-91 | the `try` block succeeds only after it has sent a request, and every message it throws is non-empty |
| `Transcription.Transcribe` | src/pages/Questions/hooks/useAudioTranscription.ts:10-101 | the sink receives a value exactly when the notification is not destructive, and only after a request was sent |
| `Transcription.EmptyBlobRejected` | src/pages/Questions/hooks/useAudioTranscription.ts:15-17 | a zero-size blob fails with "Aucun audio enregistré"; no request is sent and the sink is not reached |
| `Transcription.ReaderErrorRejected` | src/pages/Questions/hooks/useAudioTranscription.ts:51-54 | a reader error fails with "Erreur lors de la conversion de l'audio" and sends nothing |
| `Transcription.MissingCommaRejected` | src/pages/Questions/hooks/useAudioTranscription.ts:40-49 | a data URL without a comma fails with "Erreur lors du traitement de l'audio" and sends nothing |
| `Transcription.RequestSent` | src/pages/Questions/hooks/useAudioTranscription.ts:65-73 | a request is sent exactly when the blob is non-empty and the reader produced a URL with a comma; it carries the extracted payload, the normalised type (never the raw label), `fr` and the mobile flag |
| `Transcription.AnswerDelivered` | src/pages/Questions/hooks/useAudioTranscription.ts:82-91 | the sink receives `t` exactly when the reply has no error and a non-empty `data.text` equal to `t`; the success notification then follows |
| `Transcription.ReplyRejected` | src/pages/Questions/hooks/useAudioTranscription.ts:75-84 | after a sent request that gives no answer, the notification is "Erreur du serveur: " plus the error message or the connection message (a server error takes precedence over `data`), else `data.error`, else "Aucun texte n'a été transcrit" |
| `Transcription.FailureShowsThrownMessage` | src/pages/Questions/hooks/useAudioTranscription.ts:92-98 | every failure notification shows the thrown message, so the catch block's generic fallback description is never used |
| `Transcription.BonjourExample` | src/pages/Questions/hooks/useAudioTranscription.ts:82-87 | a reply `{data: {text: "bonjour"}}` puts exactly "bonjour" in the sink |
| `Transcription.TranscriptionHook.constructor` | src/pages/Questions/hooks/useAudioTranscription.ts:7 | `isTranscribing` starts false with nothing sent, answered or shown |
| `Transcription.TranscriptionHook.SetIsTranscribing` | src/pages/Questions/hooks/useAudioTranscription.ts:7 | the state setter records the new value and touches nothing else |
| `Transcription.TranscriptionHook.HandleTranscription` | src/pages/Questions/hooks/useAudioTranscription.ts:10-101 | the flag is written true then false and ends false; the remote function is called once, with the flag true, exactly when `Transcribe` sends a request; the sink receives exactly `Transcribe`'s answer; exactly one notification, `Transcribe`'s, is shown |
| `Recorder.ButtonDisabled` | src/pages/Questions/components/AudioRecorder.tsx:85 | the button is disabled while transcribing, after a denial, and in an insecure context |
| `Recorder.ClickHandler` | src/pages/Questions/components/AudioRecorder.tsx:84 | a click reaches `stopRecording` exactly when the status is "recording" |
| `Recorder.ButtonIcon` | src/pages/Questions/components/AudioRecorder.tsx:87-91 | the icon is Square exactly when the status is "recording" |
| `Recorder.ButtonLabel` | src/pages/Questions/components/AudioRecorder.tsx:94 | the caption is "Stop" or "Enregistrer", and "Stop" exactly when the status is "recording" |
| `Recorder.AfterStatusChange` | src/pages/Questions/components/AudioRecorder.tsx:18-31 | the status effect sets the secure flag to the environment's, clears the denial on "idle", keeps it otherwise, and changes nothing else |
| `Recorder.AfterStartBegun` | src/pages/Questions/components/AudioRecorder.tsx:36 | the start handler shows the hint and changes nothing else |
| `Recorder.AfterGrant` | src/pages/Questions/components/AudioRecorder.tsx:48-49 | a grant hides the hint, calls `startRecording` once and leaves the denial flag |
| `Recorder.AfterDenial` | src/pages/Questions/components/AudioRecorder.tsx:52-53 | a denial records `permissionDenied`, hides the hint and calls nothing |
| `Recorder.AfterClick` | src/pages/Questions/components/AudioRecorder.tsx:84-85 | a click on a disabled button changes nothing; otherwise it calls `stopRecording` while recording and shows the hint in any other status; it never changes the denial or secure flags |
| `Recorder.InsecureDisables` | src/pages/Questions/components/AudioRecorder.tsx:85 | in an insecure context the button is disabled whatever the other flags are |
| `Recorder.EnabledIff` | src/pages/Questions/components/AudioRecorder.tsx:85 | the button is enabled if and only if nothing is transcribing, no denial is recorded and the context is secure |
| `Recorder.StopShownIffStopDispatched` | src/pages/Questions/components/AudioRecorder.tsx:84-95 | the caption is "Stop", the icon is Square and a click reaches `stopRecording` exactly when the status is "recording"; otherwise "Enregistrer", Mic and the start handler |
| `Recorder.IdleReenables` | src/pages/Questions/components/AudioRecorder.tsx:18-31 | after a change to "idle" in a secure context the button is disabled only while a transcription runs |
| `Recorder.DeniedUntilIdle` | src/pages/Questions/components/AudioRecorder.tsx:27-53 | once a denial is recorded it stays, and the button (line 85) stays disabled, until a change to "idle"; meanwhile no click calls `stopRecording` or shows the hint |
| `Recorder.StartCallsAreGrants` | src/pages/Questions/components/AudioRecorder.tsx:43-53 | over any sequence of events, `startRecording` is called exactly once per granted probe |
| `Recorder.SecureFromLastStatusChange` | src/pages/Questions/components/AudioRecorder.tsx:18-21 | the secure flag equals the value read by the most recent status effect, or the initial value when none ran |
| `Recorder.HintClearedAfterResolution` | src/pages/Questions/components/AudioRecorder.tsx:36-53 | after a probe resolves, by grant or denial, the hint stays hidden until the next click |
| `Recorder.DenialAtIdleSticks` | src/pages/Questions/components/AudioRecorder.tsx:18-31 | a denial while the status is already "idle" is not cleared, because the effect only runs on a status change: after mounting at idle, a click and a denied probe, the button stays disabled whatever `isTranscribing` is, until the status changes to "idle" again |
| `Recorder.AudioRecorder.constructor` | src/pages/Questions/components/AudioRecorder.tsx:14-16 | the flags start as not denied, secure, no hint |
| `Recorder.AudioRecorder.OnStatusChange` | src/pages/Questions/components/AudioRecorder.tsx:18-31 | the secure flag becomes the environment's; a change to "idle" clears the denial and any other status leaves it; nothing else changes |
| `Recorder.AudioRecorder.BeginStart` | src/pages/Questions/components/AudioRecorder.tsx:33-36 | starting shows the hint and changes nothing else |
| `Recorder.AudioRecorder.OnProbeGranted` | src/pages/Questions/components/AudioRecorder.tsx:46-49 | a grant hides the hint and calls `startRecording` once; the denial flag is unchanged |
| `Recorder.AudioRecorder.OnProbeDenied` | src/pages/Questions/components/AudioRecorder.tsx:50-53 | a denial records `permissionDenied`, hides the hint and does not call `startRecording` |
| `Recorder.AudioRecorder.Click` | src/pages/Questions/components/AudioRecorder.tsx:84-85 | a click on a disabled button does nothing; otherwise it calls `stopRecording` while recording and begins the start handler in any other status |
| `Recorder.AudioRecorder.HandleStartRecording` | src/pages/Questions/components/AudioRecorder.tsx:33-55 | a start attempt ends with the hint hidden; on grant `startRecording` is called once and the denial flag is unchanged; on denial the flag is set and `startRecording` is not called |

## Left out

- The remote `transcribe-audio` call (useAudioTranscription.ts:65): a network client over a library outside this model. Only its reply shape is modelled, as the `invoke` parameter.
- The base64 encoding done by `FileReader.readAsDataURL` (useAudioTranscription.ts:57): the browser performs it. Only the stripping of the data-URL prefix from its output is modelled.
- The user-agent string and the regular expression that computes `isMobile` (useAudioTranscription.ts:63, 71): diagnostic metadata. `isMobile` is an opaque boolean parameter and the user agent is not in the request.
- Exceptions other than the handler's own `throw`s (for example a rejected `invoke` promise): the remote call is a total function here. Because of this, the catch block's fallback description cannot be reached in the model.
- `getUserMedia` and stopping the probe's tracks (AudioRecorder.tsx:43-44): device I/O. The probe is the choice between the grant and denial events.
- Recorder.AudioRecorder.OnProbeGranted: assumes that stopping the probe's tracks and the caller's `startRecording` do not throw. In the source (AudioRecorder.tsx:44, 49) such a throw is caught at line 50 and recorded as a denial, with the hint hidden.
- Recorder.AudioRecorder.HandleStartRecording: on grant, makes the same assumption as `OnProbeGranted`, so a granted probe never sets `permissionDenied` in the model.
- Recorder.AfterGrant: makes the same assumption, so the trace lemmas treat every grant as a successful start.
- The 500 ms delay before the probe (AudioRecorder.tsx:39): timing only.
- Toast rendering, logging, JSX markup, CSS classes and the three notice texts (AudioRecorder.tsx:58-96 apart from lines 84, 85, 87-91 and 94): presentation. The rules that decide `disabled`, `onClick`, the icon and the caption are modelled.
- Async interleaving and React's render scheduling: each handler is one sequential run. The effect also runs once on mount; in the model that is a first `OnStatusChange` after the constructor. The trace lemmas in `Recorder` allow any order of events, including a second click while a probe is still pending.
