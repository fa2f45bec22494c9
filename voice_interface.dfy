/** `components/voice-interface.tsx`: the full-screen voice overlay. It listens through
    speech recognition, answers with one of five fixed replies, and shows the reply's
    characters as subtitle bubbles with pinyin and a definition each. */
module VoiceInterfaceComponent {
  import opened Text

  const UnsupportedMessage := "Your browser doesn't support speech recognition. Try using Chrome, Edge, or Safari."
  const StartFailedMessage := "Failed to start speech recognition. Please try again."

  /** A fixed reply: the Chinese message with its pinyin and English translation. */
  datatype Reply = Reply(message: string, pinyin: string, translation: string)

  const Responses: seq<Reply> := [
    Reply("你好！很高兴认识你！", "Nǐ hǎo! Hěn gāoxìng rènshí nǐ!", "Hello! Nice to meet you!"),
    Reply("今天天气真好，你觉得呢？", "Jīntiān tiānqì zhēn hǎo, nǐ juédé ne?", "The weather is nice today, don't you think?"),
    Reply("你想学习什么话题？我可以帮助你！", "Nǐ xiǎng xuéxí shénme huàtí? Wǒ kěyǐ bāngzhù nǐ!", "What topic would you like to learn? I can help you!"),
    Reply("请告诉我你的名字，我们开始对话吧！", "Qǐng gàosù wǒ nǐ de míngzì, wǒmen kāishǐ duìhuà ba!", "Please tell me your name, let's start our conversation!"),
    Reply("学习中文很有趣，对吗？", "Xuéxí zhōngwén hěn yǒuqù, duì ma?", "Learning Chinese is fun, isn't it?")
  ]

  /** `message.split("").filter((char) => char.trim().length > 0)`: every character of the
      message that is not whitespace, in order, each as a one-character string. */
  function Subtitles(message: string): (words: seq<string>)
    ensures |words| <= |message|
    ensures forall i :: 0 <= i < |words| ==> |words[i]| == 1 && !IsSpace(words[i][0]) && words[i][0] in message
  {
    if message == [] then []
    else (if IsSpace(message[0]) then [] else [[message[0]]]) + Subtitles(message[1..])
  }

  /** Splitting distributes over concatenation, so the subtitles keep the message's order. */
  lemma {:induction false} SubtitlesAppend(a: string, b: string)
    ensures Subtitles(a + b) == Subtitles(a) + Subtitles(b)
  {
    if a == [] {
      assert a + b == b;
    } else {
      assert (a + b)[1..] == a[1..] + b;
      SubtitlesAppend(a[1..], b);
    }
  }

  /** Whitespace never shows up as a bubble. */
  lemma {:induction false} SubtitlesOfSpaces(s: string)
    requires AllSpace(s)
    ensures Subtitles(s) == []
  {
    if s != [] {
      SubtitlesOfSpaces(s[1..]);
    }
  }

  /** A message without whitespace shows each of its characters, in order. */
  lemma {:induction false} SubtitlesOfSpaceFree(s: string)
    requires forall i :: 0 <= i < |s| ==> !IsSpace(s[i])
    ensures |Subtitles(s)| == |s|
    ensures forall i :: 0 <= i < |s| ==> Subtitles(s)[i] == [s[i]]
  {
    if s != [] {
      SubtitlesOfSpaceFree(s[1..]);
    }
  }

  /** `getPinyinForWord`'s table, as a lookup by character: every key of the object
      literal is one character. The literal lists "话" twice with the same value.
      Characters are compared by code point. */
  function PinyinEntry(c: char): Option<string>
  {
    var n := c as int;
    if n == '你' as int then Some("nǐ")
    else if n == '好' as int then Some("hǎo")
    else if n == '很' as int then Some("hěn")
    else if n == '高' as int then Some("gāo")
    else if n == '兴' as int then Some("xìng")
    else if n == '认' as int then Some("rèn")
    else if n == '识' as int then Some("shí")
    else if n == '今' as int then Some("jīn")
    else if n == '天' as int then Some("tiān")
    else if n == '气' as int then Some("qì")
    else if n == '真' as int then Some("zhēn")
    else if n == '觉' as int then Some("jué")
    else if n == '得' as int then Some("dé")
    else if n == '呢' as int then Some("ne")
    else if n == '想' as int then Some("xiǎng")
    else if n == '学' as int then Some("xué")
    else if n == '习' as int then Some("xí")
    else if n == '什' as int then Some("shén")
    else if n == '么' as int then Some("me")
    else if n == '话' as int then Some("huà")
    else if n == '题' as int then Some("tí")
    else if n == '我' as int then Some("wǒ")
    else if n == '可' as int then Some("kě")
    else if n == '以' as int then Some("yǐ")
    else if n == '帮' as int then Some("bāng")
    else if n == '助' as int then Some("zhù")
    else if n == '请' as int then Some("qǐng")
    else if n == '告' as int then Some("gào")
    else if n == '诉' as int then Some("sù")
    else if n == '的' as int then Some("de")
    else if n == '名' as int then Some("míng")
    else if n == '字' as int then Some("zì")
    else if n == '们' as int then Some("men")
    else if n == '开' as int then Some("kāi")
    else if n == '始' as int then Some("shǐ")
    else if n == '对' as int then Some("duì")
    else if n == '吧' as int then Some("ba")
    else if n == '中' as int then Some("zhōng")
    else if n == '文' as int then Some("wén")
    else if n == '有' as int then Some("yǒu")
    else if n == '趣' as int then Some("qù")
    else if n == '吗' as int then Some("ma")
    else if n == '！' as int then Some("!")
    else if n == '？' as int then Some("?")
    else if n == '，' as int then Some(",")
    else None
  }

  /** `getDefinitionForWord`'s table, keyed the same way. */
  function DefinitionEntry(c: char): Option<string>
  {
    var n := c as int;
    if n == '你' as int then Some("you")
    else if n == '好' as int then Some("good")
    else if n == '很' as int then Some("very")
    else if n == '高' as int then Some("tall/high")
    else if n == '兴' as int then Some("happy/excited")
    else if n == '认' as int then Some("to recognize")
    else if n == '识' as int then Some("to know")
    else if n == '今' as int then Some("today/present")
    else if n == '天' as int then Some("day/sky")
    else if n == '气' as int then Some("air/gas")
    else if n == '真' as int then Some("real/true")
    else if n == '觉' as int then Some("to feel/think")
    else if n == '得' as int then Some("auxiliary word")
    else if n == '呢' as int then Some("question particle")
    else if n == '想' as int then Some("to think/want")
    else if n == '学' as int then Some("to learn")
    else if n == '习' as int then Some("to practice")
    else if n == '什' as int then Some("what")
    else if n == '么' as int then Some("what (with 什)")
    else if n == '话' as int then Some("speech/words")
    else if n == '题' as int then Some("topic/subject")
    else if n == '我' as int then Some("I/me")
    else if n == '可' as int then Some("can/able to")
    else if n == '以' as int then Some("by means of")
    else if n == '帮' as int then Some("to help")
    else if n == '助' as int then Some("to assist")
    else if n == '请' as int then Some("please")
    else if n == '告' as int then Some("to tell")
    else if n == '诉' as int then Some("to inform")
    else if n == '的' as int then Some("possessive particle")
    else if n == '名' as int then Some("name")
    else if n == '字' as int then Some("character/word")
    else if n == '们' as int then Some("plural marker")
    else if n == '开' as int then Some("to open")
    else if n == '始' as int then Some("to begin")
    else if n == '对' as int then Some("correct/right")
    else if n == '吧' as int then Some("suggestion particle")
    else if n == '中' as int then Some("middle/center")
    else if n == '文' as int then Some("language/culture")
    else if n == '有' as int then Some("to have")
    else if n == '趣' as int then Some("interesting")
    else if n == '吗' as int then Some("question particle")
    else if n == '！' as int then Some("exclamation mark")
    else if n == '？' as int then Some("question mark")
    else if n == '，' as int then Some("comma")
    else None
  }

  /** `pinyinMap[word] || word`: the mapped pinyin when there is a non-empty one, else the
      word itself. */
  function PinyinFor(word: string): (p: string)
    ensures |word| == 1 && PinyinEntry(word[0]).Some? && PinyinEntry(word[0]).value != "" ==>
      p == PinyinEntry(word[0]).value
    ensures !(|word| == 1 && PinyinEntry(word[0]).Some? && PinyinEntry(word[0]).value != "") ==> p == word
  {
    if |word| == 1 && PinyinEntry(word[0]).Some? && PinyinEntry(word[0]).value != "" then
      PinyinEntry(word[0]).value
    else word
  }

  /** `definitionMap[word] || ""`: the mapped definition, or "" when there is none. */
  function DefinitionFor(word: string): (d: string)
    ensures |word| == 1 && DefinitionEntry(word[0]).Some? ==> d == DefinitionEntry(word[0]).value
    ensures !(|word| == 1 && DefinitionEntry(word[0]).Some?) ==> d == ""
  {
    if |word| == 1 && DefinitionEntry(word[0]).Some? then DefinitionEntry(word[0]).value else ""
  }

  /** `word` is a one-character string with an entry in the pinyin table. */
  predicate Known(word: string)
  {
    |word| == 1 && PinyinEntry(word[0]).Some?
  }

  /** Both tables have the same keys and no empty value, so a word either gets both its
      pinyin and a definition or falls back on both counts. */
  lemma LookupsAgree(word: string)
    ensures Known(word) <==> |word| == 1 && DefinitionEntry(word[0]).Some?
    ensures Known(word) ==>
      PinyinFor(word) == PinyinEntry(word[0]).value && PinyinFor(word) != "" && DefinitionFor(word) != ""
    ensures !Known(word) ==> PinyinFor(word) == word && DefinitionFor(word) == ""
  {
    if |word| == 1 {
      PinyinKeysHaveDefinitions(word[0]);
      DefinitionKeysHavePinyin(word[0]);
      PinyinValuesNonEmpty(word[0]);
      DefinitionValuesNonEmpty(word[0]);
    }
  }

  /** Every pinyin key has a definition. */
  lemma PinyinKeysHaveDefinitions(c: char)
    ensures PinyinEntry(c).Some? ==> DefinitionEntry(c).Some?
  {
  }

  /** Every definition key has a pinyin. */
  lemma DefinitionKeysHavePinyin(c: char)
    ensures DefinitionEntry(c).Some? ==> PinyinEntry(c).Some?
  {
  }

  /** No pinyin in the table is empty, so `|| word` never replaces a listed one. */
  lemma PinyinValuesNonEmpty(c: char)
    ensures PinyinEntry(c).Some? ==> PinyinEntry(c).value != ""
  {
  }

  /** No definition in the table is empty. */
  lemma DefinitionValuesNonEmpty(c: char)
    ensures DefinitionEntry(c).Some? ==> DefinitionEntry(c).value != ""
  {
  }

  /** Every character of the tables lies at or above U+4E00, where the only whitespace
      character is U+FEFF, which the tables do not hold. */
  lemma KnownIsWide(c: char)
    ensures PinyinEntry(c).Some? ==> '\U{4E00}' <= c && c != '\U{FEFF}'
  {
  }

  /** No character of the tables is whitespace. */
  lemma {:induction false} KnownIsNotSpace(c: char)
    ensures PinyinEntry(c).Some? ==> !IsSpace(c)
  {
    KnownIsWide(c);
  }

  /** Every character of `m` has an entry in the tables. */
  predicate AllKnown(m: string)
  {
    forall i :: 0 <= i < |m| ==> PinyinEntry(m[i]).Some?
  }

  /** A message of known characters gets one known bubble per character. */
  lemma CoveredMessage(m: string)
    requires AllKnown(m)
    ensures var words := Subtitles(m);
      |words| == |m| && forall i :: 0 <= i < |words| ==> Known(words[i])
  {
    forall i | 0 <= i < |m| ensures !IsSpace(m[i]) {
      KnownIsNotSpace(m[i]);
    }
    SubtitlesOfSpaceFree(m);
  }

  /** The characters of reply 0 are all in the tables. */
  lemma ReplyKnown0()
    ensures AllKnown("你好！很高兴认识你！")
  {
  }

  /** The characters of reply 1 are all in the tables. */
  lemma ReplyKnown1()
    ensures AllKnown("今天天气真好，你觉得呢？")
  {
  }

  /** The characters of reply 2 are all in the tables. */
  lemma ReplyKnown2()
    ensures AllKnown("你想学习什么话题？我可以帮助你！")
  {
  }

  /** The characters of reply 3 are all in the tables. */
  lemma ReplyKnown3()
    ensures AllKnown("请告诉我你的名字，我们开始对话吧！")
  {
  }

  /** The characters of reply 4 are all in the tables. */
  lemma ReplyKnown4()
    ensures AllKnown("学习中文很有趣，对吗？")
  {
  }

  /** Every reply's message is non-empty and made of characters of the tables. */
  lemma ReplyMessagesKnown(choice: nat)
    requires choice < |Responses|
    ensures Responses[choice].message != [] && AllKnown(Responses[choice].message)
  {
    if choice == 0 {
      ReplyKnown0();
    } else if choice == 1 {
      ReplyKnown1();
    } else if choice == 2 {
      ReplyKnown2();
    } else if choice == 3 {
      ReplyKnown3();
    } else {
      ReplyKnown4();
    }
  }

  /** Every reply has a non-empty message. */
  lemma ReplyIsListed(choice: nat)
    requires choice < |Responses|
    ensures Responses[choice].message != []
  {
  }

  /** Every subtitle of every reply has its own pinyin and definition: no bubble falls
      back on the character itself. */
  lemma RepliesAreCovered(choice: nat)
    requires choice < |Responses|
    ensures var words := Subtitles(Responses[choice].message);
      |words| == |Responses[choice].message| && forall i :: 0 <= i < |words| ==> Known(words[i])
  {
    ReplyMessagesKnown(choice);
    CoveredMessage(Responses[choice].message);
  }

  /** The overlay's state; `isBrowserSupported` records whether a recogniser exists. */
  class VoiceInterface {
    var isBrowserSupported: bool
    var isListening: bool
    var isFullScreen: bool
    var message: string
    var pinyin: string
    var translation: string
    var showSubtitles: bool
    var userSpeech: string
    var error: Option<string>
    /** Index of the reply on screen, or -1 when there is none. */
    ghost var shown: int

    /** The message, pinyin and translation are blank or come from one and the same reply;
        shown subtitles are that reply's; nothing listens without a recogniser. */
    ghost predicate Valid()
      reads this
    {
      && -1 <= shown < |Responses|
      && (shown == -1 ==> (message, pinyin, translation) == ("", "", ""))
      && (shown >= 0 ==> Reply(message, pinyin, translation) == Responses[shown])
      && (showSubtitles ==> message != "")
      && (!isBrowserSupported ==> !isListening)
    }

    /** The bubbles on screen. `subtitles` is only ever set to the split of `message`, in
        the same step that raises `showSubtitles`, and is rendered only while that flag is
        up, so it is modelled as derived from the message. */
    function SubtitleWords(): (words: seq<string>)
      reads this
      ensures showSubtitles ==> words == Subtitles(message)
      ensures !showSubtitles ==> words == []
      ensures |words| <= |message|
    {
      if showSubtitles then Subtitles(message) else []
    }

    /** Whenever bubbles are on screen, they are a reply's characters, one per character,
        and each has its own pinyin and definition. */
    lemma ShownWordsAreKnown()
      requires Valid()
      ensures showSubtitles ==> 0 <= shown && SubtitleWords() == Subtitles(Responses[shown].message)
      ensures showSubtitles ==> |SubtitleWords()| == |Responses[shown].message|
      ensures forall w :: w in SubtitleWords() ==> Known(w)
    {
      if showSubtitles {
        RepliesAreCovered(shown);
      }
    }

    /** Mounting: the recognition effect reports an unsupported browser, and then, in the
        same commit, the close effect clears the error again when the overlay is closed. */
    constructor (supported: bool, isOpen: bool)
      ensures Valid()
      ensures isBrowserSupported == supported
      ensures error == (if !supported && isOpen then Some(UnsupportedMessage) else None)
      ensures !isListening && !isFullScreen && !showSubtitles
      ensures message == "" && pinyin == "" && translation == "" && userSpeech == ""
    {
      isBrowserSupported := supported;
      isListening := false;
      isFullScreen := false;
      message, pinyin, translation := "", "", "";
      showSubtitles := false;
      userSpeech := "";
      error := if supported || !isOpen then None else Some(UnsupportedMessage);
      shown := -1;
    }

    /** `handleMicClick`; `startThrows` says whether `recognition.start()` throws. */
    method HandleMicClick(startThrows: bool)
      requires Valid()
      modifies this
      ensures Valid()
      ensures !isBrowserSupported ==>
        error == Some(UnsupportedMessage) && isListening == old(isListening) && userSpeech == old(userSpeech)
      ensures isBrowserSupported && old(isListening) ==>
        !isListening && error.None? && userSpeech == old(userSpeech)
      ensures isBrowserSupported && !old(isListening) ==>
        && userSpeech == ""
        && isListening == !startThrows
        && error == (if startThrows then Some(StartFailedMessage) else None)
      ensures isBrowserSupported == old(isBrowserSupported) && isFullScreen == old(isFullScreen)
      ensures message == old(message) && pinyin == old(pinyin) && translation == old(translation)
      ensures showSubtitles == old(showSubtitles)
    {
      error := None;
      if !isBrowserSupported {
        error := Some(UnsupportedMessage);
        return;
      }
      if isListening {
        isListening := false;
      } else {
        userSpeech := "";
        isListening := true;
        if startThrows {
          error := Some(StartFailedMessage);
          isListening := false;
        }
      }
    }

    /** `recognition.onresult`: the transcript is shown; a final one is handed over. */
    method RecognitionResult(transcript: string, isFinal: bool) returns (handOver: bool)
      requires Valid()
      modifies this
      ensures Valid()
      ensures userSpeech == transcript && handOver == isFinal
      ensures isListening == old(isListening) && error == old(error)
      ensures message == old(message) && showSubtitles == old(showSubtitles)
      ensures isBrowserSupported == old(isBrowserSupported) && isFullScreen == old(isFullScreen)
      ensures pinyin == old(pinyin) && translation == old(translation)
    {
      userSpeech := transcript;
      handOver := isFinal;
    }

    /** `recognition.onerror`, with the event's error code. */
    method RecognitionError(code: string)
      requires Valid()
      modifies this
      ensures Valid()
      ensures error == Some("Recognition error: " + code) && !isListening
      ensures userSpeech == old(userSpeech) && message == old(message) && showSubtitles == old(showSubtitles)
      ensures isBrowserSupported == old(isBrowserSupported) && isFullScreen == old(isFullScreen)
      ensures pinyin == old(pinyin) && translation == old(translation)
    {
      error := Some("Recognition error: " + code);
      isListening := false;
    }

    /** `recognition.onend`. */
    method RecognitionEnded()
      requires Valid()
      modifies this
      ensures Valid()
      ensures !isListening
      ensures error == old(error) && userSpeech == old(userSpeech) && message == old(message)
      ensures showSubtitles == old(showSubtitles)
      ensures isBrowserSupported == old(isBrowserSupported) && isFullScreen == old(isFullScreen)
      ensures pinyin == old(pinyin) && translation == old(translation)
    {
      isListening := false;
    }

    /** `handleUserInput`'s delayed step; `choice` stands for the random pick. Message,
        pinyin and translation are set from one reply and its subtitles are shown. */
    method RespondAfterDelay(choice: nat)
      requires Valid()
      requires choice < |Responses|
      modifies this
      ensures Valid()
      ensures Reply(message, pinyin, translation) == Responses[choice]
      ensures showSubtitles
      ensures isListening == old(isListening) && error == old(error) && userSpeech == old(userSpeech)
      ensures isBrowserSupported == old(isBrowserSupported) && isFullScreen == old(isFullScreen)
    {
      var r := Responses[choice];
      ReplyIsListed(choice);
      message := r.message;
      pinyin := r.pinyin;
      translation := r.translation;
      showSubtitles := true;
      shown := choice;
    }

    /** The effect that runs while the overlay is closed. It clears the conversation and
        the error; `stop` says whether it also stops a running recogniser. */
    method CloseReset() returns (stop: bool)
      requires Valid()
      modifies this
      ensures Valid()
      ensures !isListening && !showSubtitles && error.None?
      ensures message == "" && pinyin == "" && translation == "" && userSpeech == ""
      ensures stop == (old(isBrowserSupported) && old(isListening))
      ensures isBrowserSupported == old(isBrowserSupported) && isFullScreen == old(isFullScreen)
    {
      stop := isBrowserSupported && isListening;
      isListening := false;
      message, pinyin, translation := "", "", "";
      showSubtitles := false;
      userSpeech := "";
      error := None;
      shown := -1;
    }

    /** The full-screen button. */
    method ToggleFullScreen()
      requires Valid()
      modifies this
      ensures Valid()
      ensures isFullScreen == !old(isFullScreen)
      ensures isListening == old(isListening) && error == old(error) && message == old(message)
      ensures showSubtitles == old(showSubtitles) && userSpeech == old(userSpeech)
      ensures isBrowserSupported == old(isBrowserSupported)
      ensures pinyin == old(pinyin) && translation == old(translation)
    {
      isFullScreen := !isFullScreen;
    }
  }
}
