/** The text-to-speech proxy (`POST /api/tts`): validate the body, normalise the voice,
    call the primary provider, classify its status, fall back once to the secondary
    provider on a quota error, and wrap the audio as a `data:` URL.
    The two providers, the environment and base64 are inputs of the model: the
    provider replies are abstract outcomes and base64 is an uninterpreted function. */
module TtsRoute {
  import opened Text

  type Bytes = seq<bv8>

  /** A property of the parsed JSON body: missing, a string, or any other JSON value. */
  datatype Field = Absent | Str(s: string) | NonString

  /** What `await req.json()` produced. A rejected parse is replaced by `{}`; a JSON
      `null` cannot be destructured and throws; any other non-object has no fields. */
  datatype Json = Unparsable | Null | Object(text: Field, voice: Field) | OtherValue

  /** The primary provider's reply, or a rejected `fetch`. */
  datatype Primary = PrimaryReply(status: int, audio: Bytes) | PrimaryUnreachable

  /** The secondary provider: audio, or any failure (`!resp.ok` or a rejected fetch). */
  datatype Secondary = SecondaryAudio(audio: Bytes) | SecondaryFailed

  /** The JSON body sent to the primary provider. */
  datatype SpeechRequest = SpeechRequest(model: string, voice: string, input: string)

  /** JSON bodies the route answers with. `fallback` false means the field is absent;
      `NoBody` is the framework's answer to an exception the handler does not catch. */
  datatype Payload =
    | Audio(text: string, audioData: string, fallback: bool)
    | Failure(error: string)
    | NoBody

  /** The HTTP answer and the provider calls made to produce it. */
  datatype Reply = Reply(status: int, payload: Payload,
                         primaryRequest: Option<SpeechRequest>, secondaryText: Option<string>)

  const ValidVoices: seq<string> := ["alloy", "echo", "fable", "onyx", "nova", "shimmer"]
  const DefaultVoice: string := "alloy"
  const AudioDataUrlPrefix: string := "data:audio/mpeg;base64,"
  const PrimaryModel: string := "tts-1"

  const StatusOk := 200
  const StatusBadRequest := 400
  const StatusForbidden := 403            // section 15.5.4 of RFC 9110
  const StatusInternalError := 500
  const StatusServiceUnavailable := 503   // section 15.6.4 of RFC 9110

  const MsgInvalidText := "Missing or invalid `text` parameter."
  const MsgMissingKey := "Server misconfiguration: missing API key."
  const MsgFallbackFailed := "Voice service unavailable (fallback failed)."
  const MsgUnauthorized := "TTS unauthorized—check billing & API key."
  const MsgUnavailable := "Text-to-speech service is unavailable."

  /** `response.ok`: a 2xx status. */
  predicate IsOk(status: int) { 200 <= status <= 299 }

  /** 429 Too Many Requests (section 4 of RFC 6585): the provider's quota is exhausted. */
  predicate IsQuotaExceeded(status: int) { status == 429 }

  /** 401 Unauthorized and 402 Payment Required (sections 15.5.2 and 15.5.3 of RFC 9110). */
  predicate IsCredentialFailure(status: int) { status == 401 || status == 402 }

  /** Number of provider calls a reply records. */
  function ProviderCalls(r: Reply): nat
  {
    (if r.primaryRequest.Some? then 1 else 0) + (if r.secondaryText.Some? then 1 else 0)
  }

  /** Names of the JSON fields a payload carries. */
  function PayloadFields(p: Payload): set<string>
  {
    match p
    case Audio(_, _, fallback) => {"text", "audioData"} + (if fallback then {"fallback"} else {})
    case Failure(_) => {"error"}
    case NoBody => {}
  }

  /** `typeof _text === "string" ? _text.trim() : ""`. */
  function RequestText(f: Field): (t: string)
    ensures f.Str? ==> t == Trim(f.s)
    ensures !f.Str? ==> t == ""
  {
    if f.Str? then Trim(f.s) else ""
  }

  /** Step 2 of the handler: a string whose lower-case form is an allowed voice is used
      lower-cased; everything else becomes the default voice. */
  function NormalizeVoice(f: Field): (v: string)
    ensures v in ValidVoices
    ensures f.Str? && ToLower(f.s) in ValidVoices ==> v == ToLower(f.s)
    ensures !(f.Str? && ToLower(f.s) in ValidVoices) ==> v == DefaultVoice
  {
    if f.Str? && ToLower(f.s) in ValidVoices then ToLower(f.s) else DefaultVoice
  }

  /** Normalising an already normalised voice changes nothing. */
  lemma NormalizeVoiceIdempotent(f: Field)
    ensures NormalizeVoice(Str(NormalizeVoice(f))) == NormalizeVoice(f)
  {
    ValidVoicesAreLowerCase();
  }

  /** Every allowed voice name is already lower-case. */
  lemma ValidVoicesAreLowerCase()
    ensures forall w | w in ValidVoices :: ToLower(w) == w
  {
    forall w | w in ValidVoices ensures ToLower(w) == w {
      ToLowerFixesLower(w);
    }
  }

  /** An allowed voice name passes normalisation unchanged. */
  lemma NormalizeAllowedVoice(v: string)
    requires v in ValidVoices
    ensures NormalizeVoice(Str(v)) == v
  {
    ValidVoicesAreLowerCase();
  }

  /** The voice names are matched regardless of case. */
  lemma NormalizeVoiceIgnoresCase(s: string)
    ensures NormalizeVoice(Str(ToLower(s))) == NormalizeVoice(Str(s))
  {
    ToLowerIdempotent(s);
  }

  /** A `data:` URL (section 3 of RFC 2397) holding base64 MPEG audio. */
  function AudioDataUrl(b64: string): (u: string)
    ensures AudioDataUrlPrefix <= u && u[|AudioDataUrlPrefix|..] == b64
  {
    AudioDataUrlPrefix + b64
  }

  /** `getGoogleTTS`: the fallback provider's answer. */
  function GoogleTts(text: string, outcome: Secondary, base64: Bytes -> string): (r: Reply)
    ensures r.secondaryText == Some(text) && r.primaryRequest.None?
    ensures outcome.SecondaryAudio? ==>
      r.status == StatusOk && r.payload == Audio(text, AudioDataUrl(base64(outcome.audio)), true)
    ensures outcome.SecondaryFailed? ==>
      r.status == StatusServiceUnavailable && r.payload == Failure(MsgFallbackFailed)
  {
    match outcome
    case SecondaryAudio(audio) =>
      Reply(StatusOk, Audio(text, AudioDataUrl(base64(audio)), true), None, Some(text))
    case SecondaryFailed =>
      Reply(StatusServiceUnavailable, Failure(MsgFallbackFailed), None, Some(text))
  }

  /** The whole `POST` handler. `key` is the environment variable (absent or a string). */
  function Post(json: Json, key: Option<string>, primary: Primary, secondary: Secondary,
                base64: Bytes -> string): (r: Reply)
    // a `null` body throws before anything else happens
    ensures json.Null? ==> r == Reply(StatusInternalError, NoBody, None, None)
    // validation: 400 exactly when the trimmed text is empty, and then no provider is called
    ensures var text := if json.Object? then RequestText(json.text) else "";
      && (!json.Null? ==> (r.status == StatusBadRequest <==> text == ""))
      && (!json.Null? && text == "" ==> r.payload == Failure(MsgInvalidText) && ProviderCalls(r) == 0)
      // a missing or empty key answers 500 before the primary is called
      && (!json.Null? && text != "" && (key.None? || key.value == "") ==>
            r == Reply(StatusInternalError, Failure(MsgMissingKey), None, None))
      // with a text and a key the primary is always called, exactly once
      && (!json.Null? && text != "" && key.Some? && key.value != "" ==>
            r.primaryRequest == Some(SpeechRequest(PrimaryModel, NormalizeVoice(json.voice), text)))
      // the primary receives the trimmed text and the normalised voice
      && (r.primaryRequest.Some? ==>
            text != "" && r.primaryRequest.value == SpeechRequest(PrimaryModel, NormalizeVoice(json.voice), text))
      // the secondary is called once, with the same text, exactly on a 429
      && (r.secondaryText.Some? <==> r.primaryRequest.Some? && primary.PrimaryReply? && IsQuotaExceeded(primary.status))
      && (r.secondaryText.Some? ==> r.secondaryText.value == text)
      // audio always echoes the trimmed text inside a `data:audio/mpeg;base64,` URL
      && (r.payload.Audio? ==> r.status == StatusOk && r.payload.text == text && AudioDataUrlPrefix <= r.payload.audioData)
      // `fallback: true` exactly when the secondary produced the audio
      && (r.payload.Audio? ==> (r.payload.fallback <==> r.secondaryText.Some?))
    // status classification of the primary's reply
    ensures r.primaryRequest.Some? && primary.PrimaryReply? ==>
      var s, text := primary.status, r.primaryRequest.value.input;
      && (IsQuotaExceeded(s) && secondary.SecondaryAudio? ==>
            r.status == StatusOk && r.payload == Audio(text, AudioDataUrl(base64(secondary.audio)), true))
      && (IsQuotaExceeded(s) && secondary.SecondaryFailed? ==>
            r.status == StatusServiceUnavailable && r.payload == Failure(MsgFallbackFailed))
      && (IsCredentialFailure(s) ==> r.status == StatusForbidden && r.payload == Failure(MsgUnauthorized))
      && (!IsQuotaExceeded(s) && !IsCredentialFailure(s) && !IsOk(s) ==>
            r.status == StatusServiceUnavailable && r.payload == Failure(MsgUnavailable))
      && (IsOk(s) ==> r.status == StatusOk && r.payload == Audio(text, AudioDataUrl(base64(primary.audio)), false))
    // a rejected primary fetch is not caught
    ensures r.primaryRequest.Some? && primary.PrimaryUnreachable? ==> r.status == StatusInternalError && r.payload == NoBody
    ensures r.status in {StatusOk, StatusBadRequest, StatusForbidden, StatusInternalError, StatusServiceUnavailable}
    // 200 exactly for audio; every error body carries a non-empty message
    ensures r.status == StatusOk <==> r.payload.Audio?
    ensures r.payload.Failure? ==> r.payload.error != ""
  {
    if json.Null? then Reply(StatusInternalError, NoBody, None, None)
    else
      var text := if json.Object? then RequestText(json.text) else "";
      if text == "" then Reply(StatusBadRequest, Failure(MsgInvalidText), None, None)
      else
        var voice := if json.Object? then NormalizeVoice(json.voice) else DefaultVoice;
        if key.None? || key.value == "" then Reply(StatusInternalError, Failure(MsgMissingKey), None, None)
        else
          var request := Some(SpeechRequest(PrimaryModel, voice, text));
          match primary
          case PrimaryUnreachable => Reply(StatusInternalError, NoBody, request, None)
          case PrimaryReply(status, audio) =>
            if IsQuotaExceeded(status) then
              var g := GoogleTts(text, secondary, base64);
              Reply(g.status, g.payload, request, g.secondaryText)
            else if IsCredentialFailure(status) then
              Reply(StatusForbidden, Failure(MsgUnauthorized), request, None)
            else if !IsOk(status) then
              Reply(StatusServiceUnavailable, Failure(MsgUnavailable), request, None)
            else
              Reply(StatusOk, Audio(text, AudioDataUrl(base64(audio)), false), request, None)
  }

  /** The route never answers with a `fallbackUrl` field: its payloads carry only
      `text`, `audioData`, `fallback` or `error`. */
  lemma NoFallbackUrl(json: Json, key: Option<string>, primary: Primary, secondary: Secondary,
                      base64: Bytes -> string)
    ensures PayloadFields(Post(json, key, primary, secondary, base64).payload)
            <= {"text", "audioData", "fallback", "error"}
    ensures "fallbackUrl" !in PayloadFields(Post(json, key, primary, secondary, base64).payload)
  {
  }

  /** At most one hop: the secondary is called at most once and only after the primary. */
  lemma AtMostOneFallbackHop(json: Json, key: Option<string>, primary: Primary, secondary: Secondary,
                             base64: Bytes -> string)
    ensures var r := Post(json, key, primary, secondary, base64);
      ProviderCalls(r) <= 2 && (r.secondaryText.Some? ==> r.primaryRequest.Some?)
  {
  }

  /** Scenario: `{text: "你好", voice: "nova"}` with a healthy primary gives audio without
      `fallback` and never calls the secondary. */
  lemma HealthyPrimaryScenario(key: string, audio: Bytes, secondary: Secondary, base64: Bytes -> string)
    requires key != ""
    ensures var r := Post(Object(Str("你好"), Str("nova")), Some(key), PrimaryReply(200, audio), secondary, base64);
      && r.status == 200
      && r.payload == Audio("你好", AudioDataUrl(base64(audio)), false)
      && r.primaryRequest == Some(SpeechRequest("tts-1", "nova", "你好"))
      && r.secondaryText.None?
  {
    TrimKeepsSpaceFree("你好");
    NormalizeAllowedVoice("nova");
    assert RequestText(Str("你好")) == "你好";
  }

  /** Scenario: `{text: "你好"}` with the primary answering 429 and a healthy secondary
      gives the secondary's audio with `fallback: true`, after exactly two provider calls. */
  lemma QuotaFallbackScenario(key: string, audio: Bytes, base64: Bytes -> string)
    requires key != ""
    ensures var r := Post(Object(Str("你好"), Absent), Some(key), PrimaryReply(429, []), SecondaryAudio(audio), base64);
      && r.status == 200
      && r.payload == Audio("你好", AudioDataUrl(base64(audio)), true)
      && r.primaryRequest == Some(SpeechRequest("tts-1", "alloy", "你好"))
      && ProviderCalls(r) == 2
  {
    TrimKeepsSpaceFree("你好");
  }
}
