/** `components/chinese-chatbot.tsx`: the chatbot panel. It shares the display-list rules
    with the chat interface, speaks replies with the browser's speech synthesis after
    asking `/api/tts`, and plays a file only when the answer carries `fallbackUrl`. */
module ChineseChatbotComponent {
  import opened Text
  import opened ChatDisplay
  import TtsRoute
  import opened TtsClient

  const WelcomeText := "你好！我是你的中文老师小美。我们今天学习什么？(Nǐ hǎo! Wǒ shì nǐ de zhōngwén lǎoshī Xiǎo Měi. Wǒmen jīntiān xuéxí shénme?) Hello! I'm your Chinese teacher, Xiao Mei. What shall we learn today?"
  const PlayErrorToast := "Could not play audio. Please try again."

  /** How a speech-synthesis utterance ended: `onend`, `onerror`, or the 5000 ms timeout. */
  datatype Speech = SpeechEnded | SpeechFailed | SpeechTimedOut

  /** What `handlePlayAudio` did after its request: whether synthesis finished speaking,
      whether the file fallback was played, and the toast shown, if any. */
  datatype PlayOutcome = PlayOutcome(spoke: bool, fallbackPlayed: bool, toast: Option<string>)

  /** The body of `handlePlayAudio` after `fetch`. Synthesis is tried only when the
      browser has it and voices are loaded; the file fallback needs `data.fallbackUrl`. */
  function PlayAudioOutcome(answer: Answer, synthesisAvailable: bool, voicesLoaded: bool, speech: Speech): (o: PlayOutcome)
    // a rejected fetch, a non-ok status or a non-JSON body: the toast and nothing else
    ensures (answer.FetchRejected? || !TtsRoute.IsOk(answer.status) || answer.body.NotJson?) ==>
      o == PlayOutcome(false, false, Some(PlayErrorToast))
    // otherwise no toast; synthesis speaks only when available, loaded and finished, and
    // the file plays exactly when synthesis did not and the body offers a `fallbackUrl`
    ensures answer.Answered? && TtsRoute.IsOk(answer.status) && answer.body.Json? ==>
      && o.toast.None?
      && (o.spoke <==> synthesisAvailable && voicesLoaded && speech == SpeechEnded)
      && (o.fallbackPlayed <==> !o.spoke && Truthy(answer.body.fallbackUrl))
  {
    if answer.FetchRejected? || !TtsRoute.IsOk(answer.status) || answer.body.NotJson? then
      PlayOutcome(false, false, Some(PlayErrorToast))
    else
      var worked := synthesisAvailable && voicesLoaded && speech == SpeechEnded;
      PlayOutcome(worked, !worked && Truthy(answer.body.fallbackUrl), None)
  }

  /** The file fallback works when offered: an ok answer whose body carries a non-empty
      `fallbackUrl` plays it whenever synthesis does not finish speaking. */
  lemma FallbackPlaysWhenOffered(status: int, body: Body, synthesisAvailable: bool, voicesLoaded: bool, speech: Speech)
    requires TtsRoute.IsOk(status) && body.Json? && Truthy(body.fallbackUrl)
    requires !(synthesisAvailable && voicesLoaded && speech == SpeechEnded)
    ensures PlayAudioOutcome(Answered(status, body), synthesisAvailable, voicesLoaded, speech) == PlayOutcome(false, true, None)
  {
  }

  /** The file fallback never plays against this project's route: the route never sends
      `fallbackUrl`, so when synthesis does not finish nothing is heard. */
  lemma FallbackNeverPlays(json: TtsRoute.Json, key: Option<string>, primary: TtsRoute.Primary,
                           secondary: TtsRoute.Secondary, base64: TtsRoute.Bytes -> string,
                           synthesisAvailable: bool, voicesLoaded: bool, speech: Speech)
    ensures var r := TtsRoute.Post(json, key, primary, secondary, base64);
      !PlayAudioOutcome(FromRoute(r), synthesisAvailable, voicesLoaded, speech).fallbackPlayed
  {
    var r := TtsRoute.Post(json, key, primary, secondary, base64);
    TtsRoute.NoFallbackUrl(json, key, primary, secondary, base64);
    assert "fallbackUrl" !in BodyFields(FromRoute(r).body);
  }

  /** The chatbot's request carries no voice, so the route always speaks with "alloy". */
  lemma RequestUsesDefaultVoice(text: string, key: Option<string>, primary: TtsRoute.Primary,
                                secondary: TtsRoute.Secondary, base64: TtsRoute.Bytes -> string)
    ensures var r := TtsRoute.Post(TtsRoute.Object(TtsRoute.Str(text), TtsRoute.Absent), key, primary, secondary, base64);
      r.primaryRequest.Some? ==> r.primaryRequest.value.voice == "alloy"
  {
  }

  /** The component's state. */
  class ChineseChatbot {
    var displayMessages: seq<Message>
    var autoPlayAudio: bool
    var isProcessingAudio: bool
    var voicesLoaded: bool

    ghost predicate Valid()
      reads this
    {
      AllDisplayable(displayMessages)
    }

    constructor ()
      ensures Valid()
      ensures displayMessages == [Message("welcome", WelcomeText, Assistant)]
      ensures !autoPlayAudio && !isProcessingAudio && !voicesLoaded
    {
      displayMessages := [Message("welcome", WelcomeText, Assistant)];
      autoPlayAudio := false;
      isProcessingAudio := false;
      voicesLoaded := false;
    }

    /** `loadVoices`: the flag is raised once some voice is reported and never lowered. */
    method LoadVoices(voiceCount: nat)
      modifies this
      ensures voicesLoaded == (old(voicesLoaded) || voiceCount > 0)
      ensures displayMessages == old(displayMessages) && autoPlayAudio == old(autoPlayAudio)
      ensures isProcessingAudio == old(isProcessingAudio)
    {
      if voiceCount > 0 {
        voicesLoaded := true;
      }
    }

    /** The effect on `[messages, displayMessages]`. */
    method SyncUserMessages(chat: seq<Message>)
      requires Valid()
      modifies this
      ensures Valid()
      ensures displayMessages == ChatDisplay.SyncUserMessages(chat, old(displayMessages))
      ensures autoPlayAudio == old(autoPlayAudio) && isProcessingAudio == old(isProcessingAudio)
      ensures voicesLoaded == old(voicesLoaded)
    {
      SyncAddsOneUserEntry(chat, displayMessages);
      displayMessages := ChatDisplay.SyncUserMessages(chat, displayMessages);
    }

    /** `processNewMessage`: assistant replies are appended; with auto-play on, a non-empty
        Chinese part is handed to `handlePlayAudio`. */
    method ProcessNewMessage(m: Message) returns (play: Option<string>)
      requires Valid()
      modifies this
      ensures Valid()
      ensures displayMessages == AppendAssistant(old(displayMessages), m)
      ensures play.Some? <==> m.role == Assistant && autoPlayAudio && ChineseText(m.content) != ""
      ensures play.Some? ==> play.value == ChineseText(m.content)
      ensures autoPlayAudio == old(autoPlayAudio) && isProcessingAudio == old(isProcessingAudio)
      ensures voicesLoaded == old(voicesLoaded)
    {
      play := None;
      if m.role == Assistant {
        displayMessages := AppendAssistant(displayMessages, m);
        if autoPlayAudio {
          var chineseText := ChineseText(m.content);
          if chineseText != "" {
            play := Some(chineseText);
          }
        }
      }
    }

    /** The auto-play button. */
    method ToggleAutoPlay()
      modifies this
      ensures autoPlayAudio == !old(autoPlayAudio)
      ensures displayMessages == old(displayMessages) && isProcessingAudio == old(isProcessingAudio)
      ensures voicesLoaded == old(voicesLoaded)
    {
      autoPlayAudio := !autoPlayAudio;
    }

    /** `handlePlayAudio` up to its `fetch`: the request body holds only the text.
        `voicesAtStart` is the `voicesLoaded` the handler's closure captured; the voices
        may arrive while the request is pending, but the handler goes on reading this one. */
    method StartPlayAudio(text: string) returns (body: TtsRoute.Json, voicesAtStart: bool)
      modifies this
      ensures isProcessingAudio
      ensures body == TtsRoute.Object(TtsRoute.Str(text), TtsRoute.Absent)
      ensures voicesAtStart == old(voicesLoaded)
      ensures displayMessages == old(displayMessages) && autoPlayAudio == old(autoPlayAudio)
      ensures voicesLoaded == old(voicesLoaded)
    {
      isProcessingAudio := true;
      body := TtsRoute.Object(TtsRoute.Str(text), TtsRoute.Absent);
      voicesAtStart := voicesLoaded;
    }

    /** `handlePlayAudio` from the answer on, with the `voicesLoaded` captured by
        `StartPlayAudio` rather than the current one; the `finally` lowers the flag on
        every path. */
    method FinishPlayAudio(answer: Answer, synthesisAvailable: bool, voicesAtStart: bool, speech: Speech)
      returns (o: PlayOutcome)
      modifies this
      ensures !isProcessingAudio
      ensures o == PlayAudioOutcome(answer, synthesisAvailable, voicesAtStart, speech)
      ensures displayMessages == old(displayMessages) && autoPlayAudio == old(autoPlayAudio)
      ensures voicesLoaded == old(voicesLoaded)
    {
      o := PlayAudioOutcome(answer, synthesisAvailable, voicesAtStart, speech);
      isProcessingAudio := false;
    }
  }
}
