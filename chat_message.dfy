/** `components/chat-message.tsx`: one rendered chat entry with its own play button. */
module ChatMessageComponent {
  import opened Text
  import opened ChatDisplay

  /** `getChineseText`: user entries never have anything to speak; assistant entries speak
      the Chinese part of their content. */
  function GetChineseText(role: Role, content: string): (r: string)
    ensures role != Assistant ==> r == ""
    ensures role == Assistant ==> r == ChineseText(content)
  {
    if role != Assistant then "" else ChineseText(content)
  }

  /** What the user can still hear from an entry: only the text before the first `(`,
      and never anything for a user entry, whatever it says. */
  lemma GetChineseTextIsPrefix(role: Role, head: string, tail: string)
    requires '(' !in head
    ensures GetChineseText(role, head + "(" + tail) == (if role == Assistant then Trim(head) else "")
  {
    if role == Assistant {
      ChineseTextIgnoresAfterParen(head, tail);
    }
  }

  /** One rendered entry: its props and its `isPlayingAudio` state. */
  class ChatMessageView {
    const role: Role
    const content: string
    var isPlayingAudio: bool

    constructor (role: Role, content: string)
      ensures this.role == role && this.content == content && !isPlayingAudio
    {
      this.role := role;
      this.content := content;
      isPlayingAudio := false;
    }

    /** `handlePlayAudio` up to its `await`: with nothing to speak it returns at once;
        otherwise the flag goes up and `onPlayAudio` receives the extracted text. */
    method StartPlayAudio() returns (call: Option<string>)
      modifies this
      ensures GetChineseText(role, content) == "" ==> call.None? && isPlayingAudio == old(isPlayingAudio)
      ensures GetChineseText(role, content) != "" ==>
        call == Some(GetChineseText(role, content)) && isPlayingAudio
    {
      var chineseText := GetChineseText(role, content);
      if chineseText == "" {
        return None;
      }
      isPlayingAudio := true;
      call := Some(chineseText);
    }

    /** `handlePlayAudio` after `onPlayAudio` settles: the `finally` lowers the flag, and a
        failure of `onPlayAudio` propagates unchanged. */
    method FinishPlayAudio(threw: bool) returns (rethrown: bool)
      modifies this
      ensures !isPlayingAudio
      ensures rethrown == threw
    {
      isPlayingAudio := false;
      rethrown := threw;
    }

    /** The play button: present only when there is Chinese text to speak (so never on a
        user entry); the value is whether it is disabled. */
    function PlayButton(isProcessingAudio: bool): (disabled: Option<bool>)
      reads this
      ensures disabled.Some? <==> role == Assistant && ChineseText(content) != ""
      ensures disabled.Some? ==> (disabled.value <==> isPlayingAudio || isProcessingAudio)
    {
      var chineseText := GetChineseText(role, content);
      if chineseText != "" then Some(isPlayingAudio || isProcessingAudio) else None
    }
  }
}
