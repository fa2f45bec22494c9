/** `components/chat-interface.tsx`: the conversation panel with its display list, voice
    choice, auto-play switch and the text-to-speech playback path. */
module ChatInterfaceComponent {
  import opened Text
  import opened ChatDisplay
  import TtsRoute
  import opened TtsClient

  const WelcomeText := "你好！我是你的中文老师小美。我们今天学习什么？(Nǐ hǎo! Wǒ shì nǐ de zhōngwén lǎoshī Xiǎo Měi.)"

  /** What settled the promise of `playAudioFromDataUrl`, whichever fired first: `play()`
      started (its promise resolved, before the audio has finished), `play()` rejected,
      the element reported a media error, or the 8000 ms timer fired. */
  datatype Playback = PlayStarted | PlayRejected(message: string) | MediaFailed(code: Option<int>) | TimedOut

  /** `MediaError` codes (the `MediaError` interface of the WHATWG HTML Living Standard,
      section 4.8.11.1). */
  const MediaErrAborted := 1
  const MediaErrNetwork := 2
  const MediaErrDecode := 3
  const MediaErrSrcNotSupported := 4

  /** The `onerror` switch: four known codes get their own message, anything else
      (including a missing error object) the generic one. */
  function MediaErrorMessage(code: Option<int>): (msg: string)
    ensures code == Some(MediaErrAborted) ==> msg == "Audio playback was aborted."
    ensures code == Some(MediaErrNetwork) ==> msg == "Network error while loading audio."
    ensures code == Some(MediaErrDecode) ==> msg == "Audio decoding error."
    ensures code == Some(MediaErrSrcNotSupported) ==> msg == "Audio format not supported."
    ensures code.None? || !(1 <= code.value <= 4) ==> msg == "Failed to load audio"
  {
    if code == Some(MediaErrAborted) then "Audio playback was aborted."
    else if code == Some(MediaErrNetwork) then "Network error while loading audio."
    else if code == Some(MediaErrDecode) then "Audio decoding error."
    else if code == Some(MediaErrSrcNotSupported) then "Audio format not supported."
    else "Failed to load audio"
  }

  /** Distinct codes never share a message. */
  lemma MediaErrorMessagesDistinct(a: Option<int>, b: Option<int>)
    requires MediaErrorMessage(a) == MediaErrorMessage(b)
    ensures (a.Some? && 1 <= a.value <= 4) || (b.Some? && 1 <= b.value <= 4) ==> a == b
  {
  }

  /** The toast text the playback step leaves, if any. */
  function PlaybackError(p: Playback): (e: Option<string>)
    // only a started `play()` is silent; every other outcome shows a non-empty toast
    ensures e.None? <==> p.PlayStarted?
    ensures e.Some? ==> e.value != ""
    ensures p.PlayRejected? ==> e == Some("Audio playback failed: " + ShownError(p.message))
    ensures p.MediaFailed? ==> e == Some(MediaErrorMessage(p.code))
    ensures p.TimedOut? ==> e == Some("Audio playback timed out.")
  {
    match p
    case PlayStarted => None
    case PlayRejected(m) => Some("Audio playback failed: " + ShownError(m))
    case MediaFailed(code) => Some(MediaErrorMessage(code))
    case TimedOut => Some("Audio playback timed out.")
  }

  /** The error `handlePlayAudio` ends with for an answer of the endpoint and, when audio
      was received, the way playback ended. */
  function PlayAudioError(answer: Answer, playback: Playback): (e: Option<string>)
    // a rejected fetch, a non-JSON body, a non-ok status and a missing `audioData` all fail
    ensures answer.FetchRejected? ==> e == Some("Could not play audio: " + ShownError(answer.reason))
    ensures answer.Answered? && answer.body.NotJson? ==> e == Some("Could not play audio: " + JsonParseError)
    ensures answer.Answered? && !TtsRoute.IsOk(answer.status) && answer.body.Json? && answer.body.error.Some? ==>
      e == Some("Could not play audio: " + ShownError(answer.body.error.value))
    ensures answer.Answered? && !TtsRoute.IsOk(answer.status) && answer.body.Json? && answer.body.error.None? ==>
      e == Some("Could not play audio: API " + DecimalString(if answer.status < 0 then 0 else answer.status))
    ensures answer.Answered? && TtsRoute.IsOk(answer.status) && answer.body.Json? && !Truthy(answer.body.audioData) ==>
      e == Some("Could not play audio: No audio returned")
    // only received audio reaches the player, and then the player decides
    ensures answer.Answered? && TtsRoute.IsOk(answer.status) && answer.body.Json? && Truthy(answer.body.audioData) ==>
      e == PlaybackError(playback)
  {
    match answer
    case FetchRejected(reason) => Some("Could not play audio: " + ShownError(reason))
    case Answered(status, body) =>
      if body.NotJson? then Some("Could not play audio: " + JsonParseError)
      else if !TtsRoute.IsOk(status) then
        if body.error.Some? then Some("Could not play audio: " + ShownError(body.error.value))
        else Some("Could not play audio: API " + DecimalString(if status < 0 then 0 else status))
      else if !Truthy(body.audioData) then Some("Could not play audio: No audio returned")
      else PlaybackError(playback)
  }

  /** Against the route: every error reply is reported with the route's own message,
      and every audio reply reaches the player. */
  lemma RouteRepliesReachPlayer(json: TtsRoute.Json, key: Option<string>, primary: TtsRoute.Primary,
                                secondary: TtsRoute.Secondary, base64: TtsRoute.Bytes -> string, playback: Playback)
    ensures var r := TtsRoute.Post(json, key, primary, secondary, base64);
      && (r.payload.Audio? ==> PlayAudioError(FromRoute(r), playback) == PlaybackError(playback))
      && (r.payload.Failure? ==> PlayAudioError(FromRoute(r), playback) == Some("Could not play audio: " + r.payload.error))
  {
  }

  /** The component's state. */
  class ChatInterface {
    var displayMessages: seq<Message>
    var isProcessingAudio: bool
    var autoPlayAudio: bool
    var selectedVoice: string
    var errorMessage: Option<string>

    /** The selected voice is always an allowed one and the list holds only user and
        assistant entries. */
    ghost predicate Valid()
      reads this
    {
      selectedVoice in TtsRoute.ValidVoices && AllDisplayable(displayMessages)
    }

    constructor ()
      ensures Valid()
      ensures displayMessages == [Message("welcome", WelcomeText, Assistant)]
      ensures !isProcessingAudio && !autoPlayAudio && selectedVoice == "alloy" && errorMessage.None?
    {
      displayMessages := [Message("welcome", WelcomeText, Assistant)];
      isProcessingAudio := false;
      autoPlayAudio := false;
      selectedVoice := "alloy";
      errorMessage := None;
    }

    /** The effect on `[messages, displayMessages]`. */
    method SyncUserMessages(chat: seq<Message>)
      requires Valid()
      modifies this
      ensures Valid()
      ensures displayMessages == ChatDisplay.SyncUserMessages(chat, old(displayMessages))
      ensures isProcessingAudio == old(isProcessingAudio) && autoPlayAudio == old(autoPlayAudio)
      ensures selectedVoice == old(selectedVoice) && errorMessage == old(errorMessage)
    {
      SyncAddsOneUserEntry(chat, displayMessages);
      displayMessages := ChatDisplay.SyncUserMessages(chat, displayMessages);
    }

    /** `processNewMessage`: append an assistant reply and, with auto-play on, hand its
        Chinese part (when non-empty) to `handlePlayAudio`. */
    method ProcessNewMessage(m: Message) returns (play: Option<string>)
      requires Valid()
      modifies this
      ensures Valid()
      ensures displayMessages == AppendAssistant(old(displayMessages), m)
      ensures play.Some? <==> m.role == Assistant && autoPlayAudio && ChineseText(m.content) != ""
      ensures play.Some? ==> play.value == ChineseText(m.content)
      ensures isProcessingAudio == old(isProcessingAudio) && autoPlayAudio == old(autoPlayAudio)
      ensures selectedVoice == old(selectedVoice) && errorMessage == old(errorMessage)
    {
      play := None;
      if m.role != Assistant {
        return;
      }
      displayMessages := AppendAssistant(displayMessages, m);
      if autoPlayAudio {
        var txt := ChineseText(m.content);
        if txt != "" {
          play := Some(txt);
        }
      }
    }

    /** The settings modal's callback: only allowed voices are taken. */
    method ChangeVoice(v: string)
      requires Valid()
      modifies this
      ensures Valid()
      ensures selectedVoice == if v in TtsRoute.ValidVoices then v else old(selectedVoice)
      ensures displayMessages == old(displayMessages) && isProcessingAudio == old(isProcessingAudio)
      ensures autoPlayAudio == old(autoPlayAudio) && errorMessage == old(errorMessage)
    {
      if v in TtsRoute.ValidVoices {
        selectedVoice := v;
      }
    }

    /** The auto-play button. */
    method ToggleAutoPlay()
      requires Valid()
      modifies this
      ensures Valid()
      ensures autoPlayAudio == !old(autoPlayAudio)
      ensures displayMessages == old(displayMessages) && isProcessingAudio == old(isProcessingAudio)
      ensures selectedVoice == old(selectedVoice) && errorMessage == old(errorMessage)
    {
      autoPlayAudio := !autoPlayAudio;
    }

    /** `handlePlayAudio` up to its `fetch`: raise the processing flag, clear the error and
        build the request body, whose voice is always an allowed one. */
    method StartPlayAudio(text: string) returns (requestText: string, voice: string)
      requires Valid()
      modifies this
      ensures Valid()
      ensures isProcessingAudio && errorMessage.None?
      ensures requestText == text && voice == old(selectedVoice) && voice in TtsRoute.ValidVoices
      ensures displayMessages == old(displayMessages) && autoPlayAudio == old(autoPlayAudio)
      ensures selectedVoice == old(selectedVoice)
    {
      isProcessingAudio := true;
      errorMessage := None;
      requestText := text;
      voice := if selectedVoice in TtsRoute.ValidVoices then selectedVoice else "alloy";
    }

    /** `handlePlayAudio` from the answer on: report the failure, if any, and lower the
        processing flag on every path (the `finally`). */
    method FinishPlayAudio(answer: Answer, playback: Playback)
      requires Valid()
      modifies this
      ensures Valid()
      ensures !isProcessingAudio
      ensures errorMessage == PlayAudioError(answer, playback)
      ensures displayMessages == old(displayMessages) && autoPlayAudio == old(autoPlayAudio)
      ensures selectedVoice == old(selectedVoice)
    {
      errorMessage := PlayAudioError(answer, playback);
      isProcessingAudio := false;
    }

    /** The play button of an entry: shown for assistant entries with Chinese text,
        disabled while audio is being processed. */
    function PlayButton(m: Message): (b: Option<bool>)
      reads this
      ensures b.Some? <==> m.role == Assistant && ChineseText(m.content) != ""
      ensures b.Some? ==> b.value == isProcessingAudio
    {
      if m.role == Assistant && ChineseText(m.content) != "" then Some(isProcessingAudio) else None
    }
  }
}
