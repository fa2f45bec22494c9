/** `components/voice-tutor-interface.tsx`: the voice tutor overlay. It listens through
    speech recognition, answers with one of four fixed replies after a delay, and speaks
    the reply's Chinese part through `/api/tts`. */
module VoiceTutorComponent {
  import opened Text
  import TtsRoute
  import opened TtsClient

  const DefaultVoice := "nova"

  /** The Chinese part of each of the four replies. */
  const SpokenParts: seq<string> := ["很好！你的发音很清晰。", "请再说一次，慢一点。", "注意声调，第三个字是第四声。", "非常好！你的中文进步很快。"]

  /** What follows the `(` in each reply: the pinyin and the English. */
  const Glosses: seq<string> := [
    "Hěn hǎo! Nǐ de fāyīn hěn qīngxī.) Very good! Your pronunciation is clear.",
    "Qǐng zài shuō yīcì, màn yīdiǎn.) Please say it again, a bit slower.",
    "Zhùyì shēngdiào, dì sān gè zì shì dì sì shēng.) Pay attention to the tone, the third character is fourth tone.",
    "Fēicháng hǎo! Nǐ de zhōngwén jìnbù hěn kuài.) Excellent! Your Chinese is improving quickly."
  ]

  /** The four replies, each "Chinese (pinyin) English". */
  const Responses: seq<string> := [
    SpokenParts[0] + "(" + Glosses[0],
    SpokenParts[1] + "(" + Glosses[1],
    SpokenParts[2] + "(" + Glosses[2],
    SpokenParts[3] + "(" + Glosses[3]
  ]

  /** `handleUserInput`'s own prefix match: no call when the match fails, else the trimmed
      capture (which, unlike the other sites, is sent even when it trims to ""). */
  function SpokenText(response: string): (t: Option<string>)
    ensures t.None? <==> (response == [] || response[0] == '(')
    ensures t.Some? ==> t.value == ChineseText(response)
    ensures t.None? ==> ChineseText(response) == ""
  {
    match ParenPrefixMatch(response)
    case None => None
    case Some(g) => Some(Trim(g))
  }

  /** A reply whose Chinese part has no `(` and no whitespace at its ends speaks exactly
      that part. */
  lemma SpokenTextOfReply(head: string, gloss: string)
    requires head != [] && '(' !in head && !IsSpace(head[0]) && !IsSpace(head[|head| - 1])
    ensures SpokenText(head + "(" + gloss) == Some(head)
  {
    ChineseTextIgnoresAfterParen(head, gloss);
    TrimKeepsSpaceFree(head);
  }

  /** Every reply speaks exactly its Chinese part, which is never empty. */
  lemma SpokenTextOfResponses(choice: nat)
    requires choice < |Responses|
    ensures SpokenText(Responses[choice]) == Some(SpokenParts[choice])
    ensures SpokenParts[choice] != ""
  {
    SpokenTextOfReply(SpokenParts[choice], Glosses[choice]);
  }

  /** How `playAudio` ends: the player ran (the promise of `playAudioFromDataUrl` always
      resolves), or an error was caught and logged. It never rethrows. */
  datatype TutorPlay = Played(fallback: bool) | Failed(message: string)

  /** `playAudio` from the endpoint's answer on. */
  function PlayAudioOutcome(answer: Answer): (p: TutorPlay)
    ensures answer.FetchRejected? ==> p == Failed(answer.reason)
    ensures answer.Answered? && answer.body.NotJson? ==> p == Failed(JsonParseError)
    ensures answer.Answered? && !TtsRoute.IsOk(answer.status) && answer.body.Json? ==>
      p == Failed("API error: " + DecimalString(if answer.status < 0 then 0 else answer.status) + " - "
                  + (if Truthy(answer.body.error) then answer.body.error.value else "Unknown error"))
    ensures answer.Answered? && TtsRoute.IsOk(answer.status) && answer.body.Json? && Truthy(answer.body.error) ==>
      p == Failed(answer.body.error.value)
    ensures answer.Answered? && TtsRoute.IsOk(answer.status) && answer.body.Json? && !Truthy(answer.body.error) ==>
      p == if Truthy(answer.body.audioData) then Played(answer.body.fallback) else Failed("No audio data received from API")
    // only a successful answer with audio and without an error reaches the player
    ensures p.Played? <==>
      answer.Answered? && TtsRoute.IsOk(answer.status) && answer.body.Json?
      && !Truthy(answer.body.error) && Truthy(answer.body.audioData)
  {
    match answer
    case FetchRejected(reason) => Failed(reason)
    case Answered(status, body) =>
      if body.NotJson? then Failed(JsonParseError)
      else if !TtsRoute.IsOk(status) then
        var detail := if Truthy(body.error) then body.error.value else "Unknown error";
        Failed("API error: " + DecimalString(if status < 0 then 0 else status) + " - " + detail)
      else if Truthy(body.error) then Failed(body.error.value)
      else if Truthy(body.audioData) then Played(body.fallback)
      else Failed("No audio data received from API")
  }

  /** Against the route: audio replies are always played (with the route's fallback mark),
      and error replies carry the route's status and message. */
  lemma RouteRepliesToTutor(json: TtsRoute.Json, key: Option<string>, primary: TtsRoute.Primary,
                            secondary: TtsRoute.Secondary, base64: TtsRoute.Bytes -> string)
    ensures var r := TtsRoute.Post(json, key, primary, secondary, base64);
      && (r.payload.Audio? ==> PlayAudioOutcome(FromRoute(r)) == Played(r.payload.fallback))
      && (r.payload.Failure? ==>
            PlayAudioOutcome(FromRoute(r)) == Failed("API error: " + DecimalString(r.status) + " - " + r.payload.error))
  {
  }

  /** With the default voice, the route speaks with "nova". */
  lemma DefaultVoiceReachesRoute(text: string, key: Option<string>, primary: TtsRoute.Primary,
                                 secondary: TtsRoute.Secondary, base64: TtsRoute.Bytes -> string)
    ensures var r := TtsRoute.Post(TtsRoute.Object(TtsRoute.Str(text), TtsRoute.Str(DefaultVoice)), key, primary, secondary, base64);
      r.primaryRequest.Some? ==> r.primaryRequest.value.voice == "nova"
  {
    TtsRoute.NormalizeAllowedVoice(DefaultVoice);
  }

  /** The overlay's state; `hasRecognizer` says whether the browser gave a recogniser. */
  class VoiceTutor {
    const hasRecognizer: bool
    const selectedVoice: string
    var isListening: bool
    var userSpeech: string
    var isProcessing: bool
    var tutorResponse: string

    /** `tutorResponse` is "" or one of the four replies. */
    ghost predicate Valid()
      reads this
    {
      tutorResponse == "" || tutorResponse in Responses
    }

    constructor (hasRecognizer: bool, selectedVoice: Option<string>)
      ensures Valid()
      ensures this.hasRecognizer == hasRecognizer
      ensures this.selectedVoice == (if selectedVoice.Some? then selectedVoice.value else DefaultVoice)
      ensures !isListening && userSpeech == "" && !isProcessing && tutorResponse == ""
    {
      this.hasRecognizer := hasRecognizer;
      this.selectedVoice := if selectedVoice.Some? then selectedVoice.value else DefaultVoice;
      isListening := false;
      userSpeech := "";
      isProcessing := false;
      tutorResponse := "";
    }

    /** `toggleListening`; `startThrows` says whether `recognition.start()` throws. */
    method ToggleListening(startThrows: bool)
      requires Valid()
      modifies this
      ensures Valid()
      ensures !hasRecognizer ==>
        isListening == old(isListening) && userSpeech == old(userSpeech) && tutorResponse == old(tutorResponse)
      ensures hasRecognizer && old(isListening) ==>
        !isListening && userSpeech == old(userSpeech) && tutorResponse == old(tutorResponse)
      ensures hasRecognizer && !old(isListening) ==>
        userSpeech == "" && tutorResponse == "" && isListening == !startThrows
      ensures isProcessing == old(isProcessing)
    {
      if !hasRecognizer {
        return;
      }
      if isListening {
        isListening := false;
      } else {
        userSpeech := "";
        tutorResponse := "";
        isListening := true;
        if startThrows {
          isListening := false;
        }
      }
    }

    /** `recognition.onresult`: the transcript is shown; a final one starts
        `handleUserInput`, reported by `handOver`. */
    method RecognitionResult(transcript: string, isFinal: bool) returns (handOver: bool)
      requires Valid()
      modifies this
      ensures Valid()
      ensures userSpeech == transcript && handOver == isFinal
      ensures isListening == old(isListening) && isProcessing == old(isProcessing)
      ensures tutorResponse == old(tutorResponse)
    {
      userSpeech := transcript;
      handOver := isFinal;
    }

    /** `recognition.onerror` and `recognition.onend`. */
    method RecognitionStopped()
      requires Valid()
      modifies this
      ensures Valid()
      ensures !isListening
      ensures userSpeech == old(userSpeech) && isProcessing == old(isProcessing)
      ensures tutorResponse == old(tutorResponse)
    {
      isListening := false;
    }

    /** `handleUserInput` before its delay. */
    method StartUserInput()
      requires Valid()
      modifies this
      ensures Valid()
      ensures isProcessing
      ensures isListening == old(isListening) && userSpeech == old(userSpeech)
      ensures tutorResponse == old(tutorResponse)
    {
      isProcessing := true;
    }

    /** `handleUserInput` after its delay; `choice` stands for the random pick. The reply
        is shown, and its Chinese part, which is never empty, is sent with the voice. */
    method ChooseResponse(choice: nat) returns (request: TtsRoute.Json)
      requires Valid()
      requires choice < |Responses|
      modifies this
      ensures Valid()
      ensures tutorResponse == Responses[choice]
      ensures request == TtsRoute.Object(TtsRoute.Str(SpokenParts[choice]), TtsRoute.Str(selectedVoice))
      ensures SpokenParts[choice] != ""
      ensures isProcessing == old(isProcessing) && isListening == old(isListening)
      ensures userSpeech == old(userSpeech)
    {
      tutorResponse := Responses[choice];
      SpokenTextOfResponses(choice);
      var text := SpokenText(tutorResponse);
      request := TtsRoute.Object(TtsRoute.Str(text.value), TtsRoute.Str(selectedVoice));
    }

    /** `handleUserInput`'s `finally`: `playAudio` never rethrows, and the flag is lowered. */
    method FinishUserInput(answer: Answer) returns (outcome: TutorPlay)
      requires Valid()
      modifies this
      ensures Valid()
      ensures !isProcessing
      ensures outcome == PlayAudioOutcome(answer)
      ensures isListening == old(isListening) && userSpeech == old(userSpeech)
      ensures tutorResponse == old(tutorResponse)
    {
      outcome := PlayAudioOutcome(answer);
      isProcessing := false;
    }
  }
}
