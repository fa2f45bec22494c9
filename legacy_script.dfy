/** `public/script.js`: the legacy single-page script and its module-level globals
    (points, conversation count, campaign progress, the flashcard dictionary, the
    auto-pause switch), with the page elements it writes reduced to fields. */
module LegacyScript {
  import opened Text

  /** A flashcard of the global dictionary: its `example` (absent or a string) and the
      rest of its properties. */
  datatype Card = Card(example: Option<string>, other: map<string, string>)

  /** A line of the chat window. */
  datatype Sender = User | Bot
  datatype ChatLine = ChatLine(text: string, sender: Sender)

  /** A step of the campaign track. */
  datatype Step = Step(number: int, completed: bool)

  const BotReply := "你好！这是一个示例回复。"
  const NoExample := "No example available."
  const Milestones: seq<int> := [5, 10, 15, 20, 25, 50, 75, 100, 125, 150, 500]
  const UnlockThreshold := 50
  const CampaignLength := 10

  const AlertNoFile := "Please select a file to import."
  const AlertImported := "Flashcards imported successfully!"
  const AlertBadImport := "Error importing flashcards. Please use a valid format."

  /** `flashcards[word]?.example || "No example available."`. */
  function ExampleText(flashcards: map<string, Card>, word: string): (t: string)
    ensures t != ""
    ensures word in flashcards && flashcards[word].example.Some? && flashcards[word].example.value != "" ==>
      t == flashcards[word].example.value
    ensures !(word in flashcards && flashcards[word].example.Some? && flashcards[word].example.value != "") ==>
      t == NoExample
  {
    if word in flashcards && flashcards[word].example.Some? && flashcards[word].example.value != "" then
      flashcards[word].example.value
    else NoExample
  }

  /** After an edit, hovering the word shows the new example. */
  lemma EditShowsOnHover(flashcards: map<string, Card>, word: string, example: string)
    requires word in flashcards && example != ""
    ensures ExampleText(flashcards[word := flashcards[word].(example := Some(example))], word) == example
  {
  }

  /** `Object.assign(flashcards, data)` twice with the same data is the same as once. */
  lemma ImportIdempotent(flashcards: map<string, Card>, data: map<string, Card>)
    ensures (flashcards + data) + data == flashcards + data
  {
  }

  /** The page's globals and the parts of the page the script writes. */
  class Globals {
    var userPoints: int
    var currentConversationCount: int
    var campaignProgress: int
    var flashcards: map<string, Card>
    var isAutoPauseEnabled: bool
    var chatInput: string
    var chatLog: seq<ChatLine>
    var subtitle: Option<string>
    var sendDisabled: bool
    var shownWord: string
    var shownExample: string

    constructor ()
      ensures userPoints == 0 && currentConversationCount == 0 && campaignProgress == 0
      ensures flashcards == map[] && !isAutoPauseEnabled
      ensures chatInput == "" && chatLog == [] && subtitle.None? && !sendDisabled
      ensures shownWord == "" && shownExample == ""
    {
      userPoints, currentConversationCount, campaignProgress := 0, 0, 0;
      flashcards := map[];
      isAutoPauseEnabled := false;
      chatInput := "";
      chatLog := [];
      subtitle := None;
      sendDisabled := false;
      shownWord, shownExample := "", "";
    }

    /** The auto-pause checkbox. */
    method SetAutoPause(checked: bool)
      modifies this
      ensures isAutoPauseEnabled == checked
      ensures chatLog == old(chatLog) && sendDisabled == old(sendDisabled) && flashcards == old(flashcards)
      ensures chatInput == old(chatInput) && subtitle == old(subtitle)
      ensures shownWord == old(shownWord) && shownExample == old(shownExample)
      ensures userPoints == old(userPoints) && currentConversationCount == old(currentConversationCount)
      ensures campaignProgress == old(campaignProgress)
    {
      isAutoPauseEnabled := checked;
    }

    /** Typing into the chat input. */
    method Type(text: string)
      modifies this
      ensures chatInput == text && chatLog == old(chatLog) && sendDisabled == old(sendDisabled)
      ensures flashcards == old(flashcards) && isAutoPauseEnabled == old(isAutoPauseEnabled) && subtitle == old(subtitle)
      ensures shownWord == old(shownWord) && shownExample == old(shownExample)
      ensures userPoints == old(userPoints) && currentConversationCount == old(currentConversationCount)
      ensures campaignProgress == old(campaignProgress)
    {
      chatInput := text;
    }

    /** `sendChatMessage`: blank input is ignored; otherwise the trimmed text is added as
        a user line, the input is cleared and the bot's reply is scheduled. */
    method SendChatMessage() returns (replyScheduled: bool)
      modifies this
      ensures replyScheduled <==> Trim(old(chatInput)) != ""
      ensures replyScheduled ==> chatLog == old(chatLog) + [ChatLine(Trim(old(chatInput)), User)] && chatInput == ""
      ensures !replyScheduled ==> chatLog == old(chatLog) && chatInput == old(chatInput)
      ensures sendDisabled == old(sendDisabled) && subtitle == old(subtitle) && flashcards == old(flashcards)
      ensures isAutoPauseEnabled == old(isAutoPauseEnabled)
      ensures shownWord == old(shownWord) && shownExample == old(shownExample)
      ensures userPoints == old(userPoints) && currentConversationCount == old(currentConversationCount)
      ensures campaignProgress == old(campaignProgress)
    {
      var userMsg := Trim(chatInput);
      if userMsg == "" {
        return false;
      }
      chatLog := chatLog + [ChatLine(userMsg, User)];
      chatInput := "";
      replyScheduled := true;
    }

    /** The scheduled reply: a bot line and its subtitle. With auto-pause on the send
        button is disabled; otherwise hiding the subtitle is scheduled. */
    method BotReplyArrives() returns (hideScheduled: bool)
      modifies this
      ensures chatLog == old(chatLog) + [ChatLine(BotReply, Bot)] && subtitle == Some(BotReply)
      ensures isAutoPauseEnabled ==> sendDisabled && !hideScheduled
      ensures !isAutoPauseEnabled ==> sendDisabled == old(sendDisabled) && hideScheduled
      ensures isAutoPauseEnabled == old(isAutoPauseEnabled) && chatInput == old(chatInput)
      ensures flashcards == old(flashcards)
      ensures shownWord == old(shownWord) && shownExample == old(shownExample)
      ensures userPoints == old(userPoints) && currentConversationCount == old(currentConversationCount)
      ensures campaignProgress == old(campaignProgress)
    {
      chatLog := chatLog + [ChatLine(BotReply, Bot)];
      subtitle := Some(BotReply);
      if isAutoPauseEnabled {
        sendDisabled := true;
        hideScheduled := false;
      } else {
        hideScheduled := true;
      }
    }

    /** The 3000 ms timer that hides the subtitle. */
    method HideSubtitle()
      modifies this
      ensures subtitle.None? && chatLog == old(chatLog) && sendDisabled == old(sendDisabled)
      ensures flashcards == old(flashcards) && isAutoPauseEnabled == old(isAutoPauseEnabled) && chatInput == old(chatInput)
      ensures shownWord == old(shownWord) && shownExample == old(shownExample)
      ensures userPoints == old(userPoints) && currentConversationCount == old(currentConversationCount)
      ensures campaignProgress == old(campaignProgress)
    {
      subtitle := None;
    }

    /** The edit button: `answer` is what `prompt` returned (None when cancelled). A
        non-empty answer replaces the shown word's example and nothing else; when that word
        has no card the assignment throws and nothing changes. */
    method EditExample(answer: Option<string>) returns (threw: bool)
      modifies this
      ensures var word := old(shownWord);
        && (answer.Some? && answer.value != "" && word in old(flashcards) ==>
              && !threw
              && flashcards == old(flashcards)[word := old(flashcards)[word].(example := answer)]
              && shownExample == answer.value)
        && (answer.Some? && answer.value != "" && word !in old(flashcards) ==>
              threw && flashcards == old(flashcards) && shownExample == old(shownExample))
        && (!(answer.Some? && answer.value != "") ==>
              !threw && flashcards == old(flashcards) && shownExample == old(shownExample))
      ensures shownWord == old(shownWord) && chatLog == old(chatLog)
      ensures isAutoPauseEnabled == old(isAutoPauseEnabled) && chatInput == old(chatInput)
      ensures subtitle == old(subtitle) && sendDisabled == old(sendDisabled)
      ensures userPoints == old(userPoints) && currentConversationCount == old(currentConversationCount)
      ensures campaignProgress == old(campaignProgress)
    {
      threw := false;
      if answer.Some? && answer.value != "" {
        if shownWord !in flashcards {
          return true;
        }
        flashcards := flashcards[shownWord := flashcards[shownWord].(example := answer)];
        shownExample := answer.value;
      }
    }

    /** `showHoverFlashcard(word)`. */
    method ShowHoverFlashcard(word: string)
      modifies this
      ensures shownWord == word && shownExample == ExampleText(flashcards, word)
      ensures flashcards == old(flashcards) && chatLog == old(chatLog)
      ensures isAutoPauseEnabled == old(isAutoPauseEnabled) && chatInput == old(chatInput)
      ensures subtitle == old(subtitle) && sendDisabled == old(sendDisabled)
      ensures userPoints == old(userPoints) && currentConversationCount == old(currentConversationCount)
      ensures campaignProgress == old(campaignProgress)
    {
      shownWord := word;
      shownExample := ExampleText(flashcards, word);
    }

    /** The import button and the reader's `onload`: `hasFile` says whether a file was
        chosen, `parsed` is `JSON.parse`'s object or None when it throws. The parsed keys
        overwrite equal keys; every other card stays. */
    method ImportAnki(hasFile: bool, parsed: Option<map<string, Card>>) returns (alert: string)
      modifies this
      ensures !hasFile ==> alert == AlertNoFile && flashcards == old(flashcards)
      ensures hasFile && parsed.None? ==> alert == AlertBadImport && flashcards == old(flashcards)
      ensures hasFile && parsed.Some? ==> alert == AlertImported && flashcards == old(flashcards) + parsed.value
      ensures chatLog == old(chatLog) && shownWord == old(shownWord) && shownExample == old(shownExample)
      ensures isAutoPauseEnabled == old(isAutoPauseEnabled) && chatInput == old(chatInput)
      ensures subtitle == old(subtitle) && sendDisabled == old(sendDisabled)
      ensures userPoints == old(userPoints) && currentConversationCount == old(currentConversationCount)
      ensures campaignProgress == old(campaignProgress)
    {
      if !hasFile {
        return AlertNoFile;
      }
      if parsed.None? {
        return AlertBadImport;
      }
      flashcards := flashcards + parsed.value;
      alert := AlertImported;
    }

    /** `initCampaignMode`'s loop: steps 1 to 10, each completed iff its number is at
        most `campaignProgress`. */
    method CampaignSteps() returns (steps: seq<Step>)
      ensures |steps| == CampaignLength
      ensures forall k :: 0 <= k < |steps| ==> steps[k] == Step(k + 1, k + 1 <= campaignProgress)
    {
      steps := [];
      var i := 1;
      while i <= CampaignLength
        invariant 1 <= i <= CampaignLength + 1
        invariant |steps| == i - 1
        invariant forall k :: 0 <= k < |steps| ==> steps[k] == Step(k + 1, k + 1 <= campaignProgress)
      {
        steps := steps + [Step(i, i <= campaignProgress)];
        i := i + 1;
      }
    }

    /** `checkBackgroundUnlocks`: the unlock alert fires iff the points reach 50. */
    method CheckBackgroundUnlocks() returns (unlocked: bool)
      ensures unlocked <==> userPoints >= UnlockThreshold
    {
      unlocked := userPoints >= UnlockThreshold;
    }

    /** `checkConversationMilestones`: the alert fires iff the count is a milestone. */
    method CheckConversationMilestones() returns (milestone: bool)
      ensures milestone <==> currentConversationCount in Milestones
    {
      milestone := currentConversationCount in Milestones;
    }
  }

  /** The completed steps form a prefix of the track: every step before a completed one
      is completed too, and their number is the progress clamped to 0..10. */
  lemma CompletedStepsArePrefix(steps: seq<Step>, progress: int)
    requires |steps| == CampaignLength
    requires forall k :: 0 <= k < |steps| ==> steps[k] == Step(k + 1, k + 1 <= progress)
    ensures forall j, k :: 0 <= j < k < |steps| && steps[k].completed ==> steps[j].completed
    ensures forall k :: 0 <= k < |steps| ==> (steps[k].completed <==> k < progress)
  {
  }
}
