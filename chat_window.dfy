/** The chat window's logic: the three event handlers, which work by calling
    the store's mutators, and the conditions that disable the controls and
    show the typing indicator. The rendering itself is not modelled. */
module ChatWindow {
  import opened JsTrim
  import opened ChatStore

  /** The send button's `disabled` attribute: the trimmed draft is empty or the AI is typing. */
  function SendDisabled(s: Store): (d: bool)
    reads s
    ensures d <==> IsBlank(s.inputText) || s.isAiTyping
  {
    TrimEmptyIffBlank(s.inputText);
    Trim(s.inputText) == [] || s.isAiTyping
  }

  /** The text input's `disabled` attribute; whenever the input is disabled,
      so is the send button. */
  function InputDisabled(s: Store): (d: bool)
    reads s
    ensures d ==> SendDisabled(s)
  {
    s.isAiTyping
  }

  /** Whether the "L'IA écrit..." indicator is rendered: exactly while the
      text input is disabled. */
  function TypingIndicatorShown(s: Store): (shown: bool)
    reads s
    ensures shown <==> InputDisabled(s)
  {
    s.isAiTyping
  }

  /** Under the gate, the input is disabled and the typing indicator shown
      exactly while a reply is pending. */
  lemma GatedControlsTrackPending(s: Store)
    requires s.Gated()
    ensures InputDisabled(s) <==> s.pending != []
    ensures TypingIndicatorShown(s) <==> s.pending != []
    ensures s.pending != [] ==> SendDisabled(s)
  {
  }

  /** What a send does to the store: nothing for a blank draft; otherwise the
      untrimmed draft becomes a new user message, one reply is scheduled, the
      typing flag is raised and the draft is cleared. */
  twostate predicate SendEffect(s: Store)
    reads s
  {
    if IsBlank(old(s.inputText)) then
      unchanged(s)
    else
      s.messages == old(s.messages) + [Message(old(s.nextId), old(s.inputText), User)] && s.nextId == old(s.nextId) + 1 &&
      s.inputText == "" && s.isAiTyping && s.pending == old(s.pending) + [old(s.inputText)]
  }

  /** `handleInputChange`: the draft becomes the input's value. */
  method HandleInputChange(s: Store, value: string)
    modifies s`inputText
    ensures s.inputText == value
  {
    s.SetInputText(value);
  }

  /** `handleSendMessage`: ignores a blank draft; otherwise adds the draft as
      a user message and then clears the draft. It does not look at the
      typing flag. */
  method HandleSendMessage(s: Store)
    requires s.Valid()
    modifies s
    ensures s.Valid() && SendEffect(s)
  {
    TrimEmptyIffBlank(s.inputText);
    if Trim(s.inputText) == [] {
      return;
    }
    s.AddMessage(MessageContent(s.inputText, User));
    s.SetInputText("");
  }

  /** `handleKeyPress`: Enter sends, any other key does nothing. */
  method HandleKeyPress(s: Store, key: string)
    requires s.Valid()
    modifies s
    ensures s.Valid()
    ensures key == "Enter" ==> SendEffect(s)
    ensures key != "Enter" ==> unchanged(s)
  {
    if key == "Enter" {
      HandleSendMessage(s);
    }
  }

  /** A click on the send button: the browser delivers it to
      `handleSendMessage` only while the button is enabled. */
  method ClickSend(s: Store)
    requires s.Valid()
    modifies s
    ensures s.Valid()
    ensures old(SendDisabled(s)) ==> unchanged(s)
    ensures !old(SendDisabled(s)) ==> SendEffect(s)
    ensures old(s.Gated()) ==> s.Gated()
  {
    if !SendDisabled(s) {
      HandleSendMessage(s);
    }
  }

  /** A key press in the text input: delivered to `handleKeyPress` only while
      the input is enabled. */
  method PressKeyInInput(s: Store, key: string)
    requires s.Valid()
    modifies s
    ensures s.Valid()
    ensures old(InputDisabled(s)) || key != "Enter" ==> unchanged(s)
    ensures !old(InputDisabled(s)) && key == "Enter" ==> SendEffect(s)
    ensures old(s.Gated()) ==> s.Gated()
  {
    if !InputDisabled(s) {
      HandleKeyPress(s, key);
    }
  }

  /** An edit of the text input: delivered to `handleInputChange` only while
      the input is enabled. */
  method ChangeInput(s: Store, value: string)
    requires s.Valid()
    modifies s`inputText
    ensures s.Valid()
    ensures s.inputText == if old(InputDisabled(s)) then old(s.inputText) else value
    ensures old(s.Gated()) ==> s.Gated()
  {
    if !InputDisabled(s) {
      HandleInputChange(s, value);
    }
  }
}
