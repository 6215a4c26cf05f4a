/**
 The transcription hook: given a recorded audio blob it checks that the blob is
 not empty, normalises its MIME type, takes the base64 payload out of the data
 URL the browser's FileReader produces, calls the remote `transcribe-audio`
 function, and reports the outcome through the answer sink and a notification.

 The FileReader and the remote call are parameters: `readAsDataUrl` gives the
 data URL the reader would produce for a blob, or `None` when the reader
 signals an error; `invoke` gives the remote function's `{data, error}` reply
 to a request body.
 */
module Transcription {
  import opened Wrappers
  import opened Text

  /** The recorded `Blob`: its size in bytes and its `type` label. */
  datatype Blob = Blob(size: nat, kind: string)

  /** The request body sent to the remote function (the user-agent string is not modelled). */
  datatype Request = Request(audioBlob: string, mimeType: string, language: string, isMobile: bool)

  /** The `error` half of the remote reply: an error object whose `message` may be absent. */
  datatype ServerError = ServerError(message: Option<string>)

  /** The `data` half of the remote reply: `{text?, error?}`. */
  datatype ReplyData = ReplyData(text: Option<string>, error: Option<string>)

  /** The remote reply `{data, error}`; either part may be absent. */
  datatype Reply = Reply(error: Option<ServerError>, data: Option<ReplyData>)

  /** A notification: title, description, and whether it uses the destructive variant. */
  datatype Toast = Toast(title: string, description: string, destructive: bool)

  // Fixed messages of the hook.
  const NoAudioMessage := "Aucun audio enregistré"
  const ProcessingMessage := "Erreur lors du traitement de l'audio"
  const ConversionMessage := "Erreur lors de la conversion de l'audio"
  const ServerPrefix := "Erreur du serveur: "
  const ConnectionMessage := "Problème de connexion avec le serveur"
  const NoTextMessage := "Aucun texte n'a été transcrit"
  const SuccessTitle := "Transcription réussie"
  const SuccessDescription := "Votre réponse vocale a été transcrite avec succès."
  const FailureTitle := "Erreur de transcription"
  const FallbackDescription := "Impossible de transcrire l'audio. Veuillez réessayer."

  /** The language code every request carries. */
  const Language := "fr"

  /** The four MIME types the hook ever sends. */
  const CanonicalMimeTypes: set<string> := {"audio/wav", "audio/mp4", "audio/mp3", "audio/webm"}

  /** JavaScript truthiness of an optional string: present and non-empty. */
  predicate Truthy(o: Option<string>) {
    o.Some? && o.value != ""
  }

  /** `o || fallback` for an optional string. */
  function OrElse(o: Option<string>, fallback: string): string {
    if Truthy(o) then o.value else fallback
  }

  /**
   The MIME type sent to the remote function: an empty label counts as
   `audio/webm`, then the wav, mp4 and mp3 markers are tested in that order
   and the first that occurs decides; a label with none of them is `audio/webm`.
   */
  function NormalizeMime(kind: string): (mime: string)
    ensures mime in CanonicalMimeTypes
  {
    var tag := if kind == "" then "audio/webm" else kind;
    if Contains(tag, "audio/wav") || Contains(tag, "audio/x-wav") then "audio/wav"
    else if Contains(tag, "audio/mp4") || Contains(tag, "audio/x-m4a") then "audio/mp4"
    else if Contains(tag, "audio/mpeg") || Contains(tag, "audio/mp3") then "audio/mp3"
    else "audio/webm"
  }

  /** `dataUrl.split(',')[1]`: the field after the first comma, absent when there is no comma. */
  function ExtractPayload(dataUrl: string): (r: Option<string>)
    ensures r.None? <==> ',' !in dataUrl
    ensures r.Some? ==> ',' !in r.value
  {
    var fields := Split(dataUrl, ',');
    SplitFieldsFree(dataUrl, ',');
    assert |fields| > 1 <==> ',' in dataUrl by {
      if ',' in dataUrl { SplitWithSep(dataUrl, ','); } else { SplitNoSep(dataUrl, ','); }
    }
    if |fields| > 1 then Some(fields[1]) else None
  }

  /**
   The reader's completion handlers: a reader error rejects with the conversion
   message; a data URL without a payload field makes `base64Data.length` throw,
   which rejects with the processing message.
   */
  function EncodePayload(dataUrl: Option<string>): (r: Result<string, string>)
    ensures r.Failure? ==> r.error in {ConversionMessage, ProcessingMessage}
  {
    match dataUrl
    case None => Failure(ConversionMessage)
    case Some(url) =>
      match ExtractPayload(url)
      case None => Failure(ProcessingMessage)
      case Some(payload) => Success(payload)
  }

  /** The checks on the remote reply: the transcribed text, or the message of the error thrown. */
  function CheckReply(reply: Reply): (r: Result<string, string>)
    ensures r.Success? <==> reply.error.None? && reply.data.Some? && Truthy(reply.data.value.text)
    ensures r.Success? ==> reply.data.value.text == Some(r.value) && r.value != ""
    ensures r.Failure? ==> r.error != ""
    ensures reply.error.Some? ==> r.Failure? && StartsWith(r.error, ServerPrefix)
  {
    if reply.error.Some? then
      Failure(ServerPrefix + OrElse(reply.error.value.message, ConnectionMessage))
    else
      var text := if reply.data.Some? then reply.data.value.text else None;
      if !Truthy(text) then
        Failure(OrElse(if reply.data.Some? then reply.data.value.error else None, NoTextMessage))
      else
        Success(text.value)
  }

  /** What the `try` block did: the request it sent, if it got that far, and how it ended. */
  datatype Attempt = Attempt(request: Option<Request>, result: Result<string, string>)

  /** The `try` block of the handler, up to the point where it succeeds or throws. */
  function TryTranscribe(blob: Blob, isMobile: bool, readAsDataUrl: Blob -> Option<string>,
                         invoke: Request -> Reply): (a: Attempt)
    ensures a.result.Success? ==> a.request.Some?
    ensures a.result.Failure? ==> a.result.error != ""
  {
    if blob.size == 0 then Attempt(None, Failure(NoAudioMessage))
    else
      var mimeType := NormalizeMime(blob.kind);
      match EncodePayload(readAsDataUrl(blob))
      case Failure(message) => Attempt(None, Failure(message))
      case Success(payload) =>
        var request := Request(payload, mimeType, Language, isMobile);
        Attempt(Some(request), CheckReply(invoke(request)))
  }

  /** The notification the `catch` block shows for a thrown message. */
  function FailureToast(message: string): (t: Toast)
    ensures t.title == FailureTitle && t.destructive && t.description != ""
    ensures message != "" ==> t.description == message
  {
    Toast(FailureTitle, if message == "" then FallbackDescription else message, true)
  }

  const SuccessToast := Toast(SuccessTitle, SuccessDescription, false)

  /** The observable outcome of one run of the handler. */
  datatype Outcome = Outcome(request: Option<Request>, answer: Option<string>, toast: Toast)

  /** One run of `handleTranscription`: the request sent, the value given to the sink, the notification. */
  function Transcribe(blob: Blob, isMobile: bool, readAsDataUrl: Blob -> Option<string>,
                      invoke: Request -> Reply): (o: Outcome)
    ensures o.answer.Some? <==> !o.toast.destructive
    ensures o.answer.Some? ==> o.request.Some?
  {
    var a := TryTranscribe(blob, isMobile, readAsDataUrl, invoke);
    match a.result
    case Success(text) => Outcome(a.request, Some(text), SuccessToast)
    case Failure(message) => Outcome(a.request, None, FailureToast(message))
  }

  /** A call of the remote function, with the value `isTranscribing` had while it ran. */
  datatype Call = Call(request: Request, whileTranscribing: bool)

  /** The hook's state and the effects it has had on its collaborators. */
  class TranscriptionHook {
    /** The `isTranscribing` state. */
    var isTranscribing: bool
    /** Every value passed to `setIsTranscribing`, in order. */
    var transcribingWrites: seq<bool>
    /** Every value passed to the `setAnswer` sink, in order. */
    var answers: seq<string>
    /** Every notification shown, in order. */
    var toasts: seq<Toast>
    /** Every call of the remote function, in order. */
    var calls: seq<Call>

    constructor ()
      ensures !isTranscribing
      ensures transcribingWrites == [] && answers == [] && toasts == [] && calls == []
    {
      isTranscribing := false;
      transcribingWrites, answers, toasts, calls := [], [], [], [];
    }

    method SetIsTranscribing(value: bool)
      modifies this
      ensures isTranscribing == value
      ensures transcribingWrites == old(transcribingWrites) + [value]
      ensures answers == old(answers) && toasts == old(toasts) && calls == old(calls)
    {
      isTranscribing := value;
      transcribingWrites := transcribingWrites + [value];
    }

    /**
     `handleTranscription(audioBlob)`: the flag goes up, the `try` block runs
     until it finishes or throws, a single notification reports the outcome and
     the flag comes down again on every path.
     */
    method HandleTranscription(blob: Blob, isMobile: bool, readAsDataUrl: Blob -> Option<string>,
                               invoke: Request -> Reply)
      modifies this
      ensures var o := Transcribe(blob, isMobile, readAsDataUrl, invoke);
        && !isTranscribing
        && transcribingWrites == old(transcribingWrites) + [true, false]
        && calls == old(calls) + (if o.request.Some? then [Call(o.request.value, true)] else [])
        && answers == old(answers) + (if o.answer.Some? then [o.answer.value] else [])
        && toasts == old(toasts) + [o.toast]
    {
      SetIsTranscribing(true);
      var thrown: Option<string> := None;
      label attempt: {
        if blob.size == 0 {
          thrown := Some(NoAudioMessage);
          break attempt;
        }
        var mimeType := NormalizeMime(blob.kind);
        var payload: string;
        match readAsDataUrl(blob) {
          case None =>
            thrown := Some(ConversionMessage);
            break attempt;
          case Some(url) =>
            var field := ExtractPayload(url);
            if field.None? {
              thrown := Some(ProcessingMessage);
              break attempt;
            }
            payload := field.value;
        }
        var request := Request(payload, mimeType, Language, isMobile);
        var reply := invoke(request);
        calls := calls + [Call(request, isTranscribing)];
        if reply.error.Some? {
          thrown := Some(ServerPrefix + OrElse(reply.error.value.message, ConnectionMessage));
          break attempt;
        }
        var text := if reply.data.Some? then reply.data.value.text else None;
        if !Truthy(text) {
          thrown := Some(OrElse(if reply.data.Some? then reply.data.value.error else None, NoTextMessage));
          break attempt;
        }
        answers := answers + [text.value];
        toasts := toasts + [SuccessToast];
      }
      if thrown.Some? {
        toasts := toasts + [FailureToast(thrown.value)];
      }
      SetIsTranscribing(false);
    }
  }

  // ---------------------------------------------------------------------------
  // MIME-type normalisation

  /** The markers are tested in order and the first one found decides; no marker means webm. */
  lemma NormalizeFirstMatch(kind: string)
    ensures Contains(kind, "audio/wav") || Contains(kind, "audio/x-wav")
            ==> NormalizeMime(kind) == "audio/wav"
    ensures !(Contains(kind, "audio/wav") || Contains(kind, "audio/x-wav"))
            && (Contains(kind, "audio/mp4") || Contains(kind, "audio/x-m4a"))
            ==> NormalizeMime(kind) == "audio/mp4"
    ensures !(Contains(kind, "audio/wav") || Contains(kind, "audio/x-wav"))
            && !(Contains(kind, "audio/mp4") || Contains(kind, "audio/x-m4a"))
            && (Contains(kind, "audio/mpeg") || Contains(kind, "audio/mp3"))
            ==> NormalizeMime(kind) == "audio/mp3"
    ensures !(Contains(kind, "audio/wav") || Contains(kind, "audio/x-wav"))
            && !(Contains(kind, "audio/mp4") || Contains(kind, "audio/x-m4a"))
            && !(Contains(kind, "audio/mpeg") || Contains(kind, "audio/mp3"))
            ==> NormalizeMime(kind) == "audio/webm"
  {
    if kind == "" {
      NormalizeFixesCanonical("audio/webm");
    }
  }

  /** An empty label is sent as webm. */
  lemma NormalizeEmpty()
    ensures NormalizeMime("") == "audio/webm"
  {
    NormalizeFixesCanonical("audio/webm");
  }

  /** Each canonical type normalises to itself. */
  lemma NormalizeFixesCanonical(mime: string)
    requires mime in CanonicalMimeTypes
    ensures NormalizeMime(mime) == mime
  {
    NotContains("audio/mp4", "audio/wav", 6);
    NotContains("audio/mp3", "audio/wav", 6);
    NotContains("audio/mp3", "audio/mp4", 8);
    NotContains("audio/webm", "audio/wav", 7);
    NotContains("audio/webm", "audio/mp4", 6);
    NotContains("audio/webm", "audio/mpeg", 6);
    NotContains("audio/webm", "audio/mp3", 6);
  }

  /** Normalising twice is normalising once. */
  lemma NormalizeIdempotent(kind: string)
    ensures NormalizeMime(NormalizeMime(kind)) == NormalizeMime(kind)
  {
    NormalizeFixesCanonical(NormalizeMime(kind));
  }

  /** `audio/x-wav` is sent as wav. */
  lemma NormalizeXWav()
    ensures NormalizeMime("audio/x-wav") == "audio/wav"
  {
    NotContains("audio/x-wav", "audio/wav", 6);
  }

  /** `audio/x-m4a`, as iOS reports it, is sent as mp4. */
  lemma NormalizeXM4a()
    ensures NormalizeMime("audio/x-m4a") == "audio/mp4"
  {
    NotContains("audio/x-m4a", "audio/wav", 6);
    NotContains("audio/x-m4a", "audio/x-wav", 8);
  }

  /** `audio/mpeg` is sent as mp3. */
  lemma NormalizeMpeg()
    ensures NormalizeMime("audio/mpeg") == "audio/mp3"
  {
    NotContains("audio/mpeg", "audio/wav", 6);
    NotContains("audio/mpeg", "audio/mp4", 8);
  }

  /** An unrecognised type such as `audio/ogg` is sent as webm. */
  lemma NormalizeOgg()
    ensures NormalizeMime("audio/ogg") == "audio/webm"
  {
    NotContains("audio/ogg", "audio/wav", 6);
    NotContains("audio/ogg", "audio/mp4", 6);
    NotContains("audio/ogg", "audio/mp3", 6);
  }

  // ---------------------------------------------------------------------------
  // Payload extraction

  /** `url` is `head,payload` followed by nothing or by a further comma-led part. */
  predicate IsPayloadField(url: string, head: string, payload: string, tail: string) {
    && url == head + [','] + payload + tail
    && ',' !in head && ',' !in payload
    && (tail == [] || tail[0] == ',')
  }

  /** The extracted payload lies between the first comma and the next comma or the end. */
  lemma ExtractedFieldShape(url: string, payload: string)
    requires ExtractPayload(url) == Some(payload)
    ensures exists head, tail :: IsPayloadField(url, head, payload, tail)
  {
    var fields := Split(url, ',');
    JoinSplit(url, ',');
    SplitFieldsFree(url, ',');
    var tail := if |fields| == 2 then [] else [','] + Join(fields[2..], ',');
    assert Join(fields[1..], ',') == payload + tail by {
      if |fields| > 2 {
        assert fields[1..][1..] == fields[2..];
      }
    }
    assert url == fields[0] + [','] + payload + tail;
    assert IsPayloadField(url, fields[0], payload, tail);
  }

  /** A field between the first comma and the next comma or the end is what is extracted. */
  lemma FieldShapeExtracted(url: string, head: string, payload: string, tail: string)
    requires IsPayloadField(url, head, payload, tail)
    ensures ExtractPayload(url) == Some(payload)
  {
    if tail == [] {
      SplitNoSep(payload, ',');
      assert url == head + [','] + payload;
      SplitAfterSep(head, payload, ',');
    } else {
      var rest := tail[1..];
      assert tail == [','] + rest;
      SplitAfterSep(payload, rest, ',');
      assert url == head + [','] + (payload + [','] + rest);
      SplitAfterSep(head, payload + [','] + rest, ',');
    }
  }

  /** The extracted payload is the text between the first comma and the next comma or the end. */
  lemma ExtractPayloadField(url: string, payload: string)
    ensures ExtractPayload(url) == Some(payload)
            <==> exists head, tail :: IsPayloadField(url, head, payload, tail)
  {
    if ExtractPayload(url) == Some(payload) {
      ExtractedFieldShape(url, payload);
    }
    if exists head, tail :: IsPayloadField(url, head, payload, tail) {
      var head, tail :| IsPayloadField(url, head, payload, tail);
      FieldShapeExtracted(url, head, payload, tail);
    }
  }

  /** A typical data URL yields its base64 part. */
  lemma ExtractPayloadExample()
    ensures ExtractPayload("data:audio/webm;base64,GkXf") == Some("GkXf")
  {
    var head, payload := "data:audio/webm;base64", "GkXf";
    assert "data:audio/webm;base64,GkXf" == head + [','] + payload;
    SplitNoSep(payload, ',');
    SplitAfterSep(head, payload, ',');
  }

  // ---------------------------------------------------------------------------
  // The handler's outcome

  /** An empty blob fails with the no-audio message; nothing is sent and the sink is not reached. */
  lemma EmptyBlobRejected(blob: Blob, isMobile: bool, readAsDataUrl: Blob -> Option<string>,
                          invoke: Request -> Reply)
    requires blob.size == 0
    ensures Transcribe(blob, isMobile, readAsDataUrl, invoke)
            == Outcome(None, None, Toast(FailureTitle, NoAudioMessage, true))
  {
  }

  /** A reader error fails with the conversion message before anything is sent. */
  lemma ReaderErrorRejected(blob: Blob, isMobile: bool, readAsDataUrl: Blob -> Option<string>,
                            invoke: Request -> Reply)
    requires blob.size > 0 && readAsDataUrl(blob).None?
    ensures Transcribe(blob, isMobile, readAsDataUrl, invoke)
            == Outcome(None, None, Toast(FailureTitle, ConversionMessage, true))
  {
  }

  /** A data URL without a comma fails with the processing message before anything is sent. */
  lemma MissingCommaRejected(blob: Blob, isMobile: bool, readAsDataUrl: Blob -> Option<string>,
                             invoke: Request -> Reply)
    requires blob.size > 0 && readAsDataUrl(blob).Some? && ',' !in readAsDataUrl(blob).value
    ensures Transcribe(blob, isMobile, readAsDataUrl, invoke)
            == Outcome(None, None, Toast(FailureTitle, ProcessingMessage, true))
  {
  }

  /**
   The remote function is called exactly when the blob is non-empty and the
   reader produced a data URL with a comma, and the request carries the
   extracted payload, the normalised type (never the raw label), the language
   "fr" and the mobile flag.
   */
  lemma RequestSent(blob: Blob, isMobile: bool, readAsDataUrl: Blob -> Option<string>,
                    invoke: Request -> Reply)
    ensures var o := Transcribe(blob, isMobile, readAsDataUrl, invoke);
      o.request.Some?
      <==> blob.size > 0 && readAsDataUrl(blob).Some? && ',' in readAsDataUrl(blob).value
    ensures var o := Transcribe(blob, isMobile, readAsDataUrl, invoke);
      o.request.Some? ==>
        && Some(o.request.value.audioBlob) == ExtractPayload(readAsDataUrl(blob).value)
        && o.request.value.mimeType == NormalizeMime(blob.kind)
        && o.request.value.mimeType in CanonicalMimeTypes
        && o.request.value.language == "fr"
        && o.request.value.isMobile == isMobile
  {
  }

  /**
   The sink receives a value exactly when the remote reply has no error and a
   non-empty `data.text`, and then it receives exactly that text and the
   success notification follows.
   */
  lemma AnswerDelivered(blob: Blob, isMobile: bool, readAsDataUrl: Blob -> Option<string>,
                        invoke: Request -> Reply, text: string)
    ensures var o := Transcribe(blob, isMobile, readAsDataUrl, invoke);
      o.answer == Some(text)
      <==> && o.request.Some?
           && invoke(o.request.value).error.None?
           && invoke(o.request.value).data.Some?
           && invoke(o.request.value).data.value.text == Some(text)
           && text != ""
    ensures var o := Transcribe(blob, isMobile, readAsDataUrl, invoke);
      o.answer.Some? ==> o.toast == Toast(SuccessTitle, SuccessDescription, false)
  {
  }

  /**
   When the remote function was called but no answer was delivered, the
   notification carries the server-error message (which takes precedence over
   any `data`), else `data.error`, else the no-text message.
   */
  lemma ReplyRejected(blob: Blob, isMobile: bool, readAsDataUrl: Blob -> Option<string>,
                      invoke: Request -> Reply)
    ensures var o := Transcribe(blob, isMobile, readAsDataUrl, invoke);
      o.request.Some? && o.answer.None? ==>
        var reply := invoke(o.request.value);
        && o.toast.title == FailureTitle && o.toast.destructive
        && (reply.error.Some? ==>
              o.toast.description == ServerPrefix + OrElse(reply.error.value.message, ConnectionMessage))
        && (reply.error.None? && reply.data.Some? && Truthy(reply.data.value.error) ==>
              o.toast.description == reply.data.value.error.value)
        && (reply.error.None? && (reply.data.None? || !Truthy(reply.data.value.error)) ==>
              o.toast.description == NoTextMessage)
  {
  }

  /**
   Every failure shows the message that was thrown: the catch block's generic
   fallback description is never used, because every thrown message is non-empty.
   */
  lemma FailureShowsThrownMessage(blob: Blob, isMobile: bool, readAsDataUrl: Blob -> Option<string>,
                                  invoke: Request -> Reply)
    ensures var a := TryTranscribe(blob, isMobile, readAsDataUrl, invoke);
      a.result.Failure? ==>
        Transcribe(blob, isMobile, readAsDataUrl, invoke).toast
        == Toast(FailureTitle, a.result.error, true)
  {
  }

  /** A reply `{data: {text: "bonjour"}}` puts exactly "bonjour" into the sink. */
  lemma BonjourExample(readAsDataUrl: Blob -> Option<string>, invoke: Request -> Reply)
    requires readAsDataUrl(Blob(4, "audio/webm")) == Some("data:audio/webm;base64,GkXf")
    requires forall r :: invoke(r) == Reply(None, Some(ReplyData(Some("bonjour"), None)))
    ensures Transcribe(Blob(4, "audio/webm"), false, readAsDataUrl, invoke).answer == Some("bonjour")
  {
    ExtractPayloadExample();
  }
}
