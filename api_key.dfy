/** `components/api-key-input.tsx`: the key field with its show/hide, save and copy
    buttons. Saving and copying ignore a key that is blank after trimming. */
module ApiKeyInputComponent {
  import opened Text

  const DefaultButtonText := "Save Key"
  const DefaultSuccessMessage := "API key saved successfully!"

  /** A key that trims to nothing: neither saved nor copied. */
  predicate Blank(key: string)
  {
    Trim(key) == ""
  }

  /** The copy button is shown for every key the handlers act on, and also for a key of
      whitespace, on which copying does nothing. */
  lemma CopyButtonCoversNonBlank(key: string)
    ensures !Blank(key) ==> key != ""
    ensures Blank(key) <==> AllSpace(key)
  {
  }

  /** The component's state; `hasOnSave` says whether the `onSave` prop was given. */
  class ApiKeyInput {
    const hasOnSave: bool
    const buttonText: string
    const successMessage: string
    var apiKey: string
    var showKey: bool
    var isSaved: bool
    var isCopied: bool

    constructor (hasOnSave: bool, buttonText: Option<string>, successMessage: Option<string>)
      ensures this.hasOnSave == hasOnSave
      ensures this.buttonText == (if buttonText.Some? then buttonText.value else DefaultButtonText)
      ensures this.successMessage == (if successMessage.Some? then successMessage.value else DefaultSuccessMessage)
      ensures apiKey == "" && !showKey && !isSaved && !isCopied
    {
      this.hasOnSave := hasOnSave;
      this.buttonText := if buttonText.Some? then buttonText.value else DefaultButtonText;
      this.successMessage := if successMessage.Some? then successMessage.value else DefaultSuccessMessage;
      apiKey := "";
      showKey := false;
      isSaved := false;
      isCopied := false;
    }

    /** The input's `onChange`. */
    method Type(text: string)
      modifies this
      ensures apiKey == text
      ensures showKey == old(showKey) && isSaved == old(isSaved) && isCopied == old(isCopied)
    {
      apiKey := text;
    }

    /** `handleSave`: a blank key does nothing; otherwise `onSave`, when given, receives
        the key as typed (untrimmed) and the saved flag goes up. */
    method HandleSave() returns (saved: Option<string>)
      modifies this
      ensures Blank(apiKey) ==> saved.None? && isSaved == old(isSaved)
      ensures !Blank(apiKey) ==> isSaved && (saved.Some? <==> hasOnSave)
      ensures saved.Some? ==> saved.value == apiKey
      ensures apiKey == old(apiKey) && showKey == old(showKey) && isCopied == old(isCopied)
    {
      saved := None;
      if Trim(apiKey) == "" {
        return;
      }
      if hasOnSave {
        saved := Some(apiKey);
      }
      isSaved := true;
    }

    /** The 3000 ms timer after a save. */
    method SavedTimerFires()
      modifies this
      ensures !isSaved
      ensures apiKey == old(apiKey) && showKey == old(showKey) && isCopied == old(isCopied)
    {
      isSaved := false;
    }

    /** `handleCopy`: a blank key does nothing; otherwise the key as typed goes to the
        clipboard and the copied flag goes up. */
    method HandleCopy() returns (clipboard: Option<string>)
      modifies this
      ensures Blank(apiKey) ==> clipboard.None? && isCopied == old(isCopied)
      ensures !Blank(apiKey) ==> clipboard == Some(apiKey) && isCopied
      ensures apiKey == old(apiKey) && showKey == old(showKey) && isSaved == old(isSaved)
    {
      if Trim(apiKey) == "" {
        return None;
      }
      clipboard := Some(apiKey);
      isCopied := true;
    }

    /** The 2000 ms timer after a copy. */
    method CopiedTimerFires()
      modifies this
      ensures !isCopied
      ensures apiKey == old(apiKey) && showKey == old(showKey) && isSaved == old(isSaved)
    {
      isCopied := false;
    }

    /** The eye button flips only whether the key is shown. */
    method ToggleShow()
      modifies this
      ensures showKey == !old(showKey)
      ensures apiKey == old(apiKey) && isSaved == old(isSaved) && isCopied == old(isCopied)
    {
      showKey := !showKey;
    }

    /** The input's `type`: the key is masked unless shown. */
    function InputType(): (t: string)
      reads this
      ensures t == "text" <==> showKey
      ensures t == "password" <==> !showKey
    {
      if showKey then "text" else "password"
    }

    /** The save button's label: the success message while saved. */
    function SaveLabel(): (l: string)
      reads this
      ensures isSaved ==> l == successMessage
      ensures !isSaved ==> l == buttonText
    {
      if isSaved then successMessage else buttonText
    }

    /** `{apiKey && …}`: the copy button exists iff the key is non-empty. */
    function CopyButtonShown(): (shown: bool)
      reads this
      ensures shown <==> |apiKey| > 0
    {
      apiKey != ""
    }
  }
}
