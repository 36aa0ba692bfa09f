/** Scenarios of the store and the chat window from a fresh store, each
    proved by the verifier. */
module ChatScenarios {
  import opened ChatStore
  import opened ChatWindow

  /** A fresh store holds only the greeting, an empty draft and a lowered flag;
      setting the draft twice to the same text is the same as setting it once. */
  method FreshStore() returns (messages: seq<Message>, draft: string, typing: bool, draftTwice: string)
    ensures messages == [Message(0, Greeting, Ai)] && draft == "" && !typing
    ensures draftTwice == "x"
  {
    var s := new Store();
    messages, draft, typing := s.messages, s.inputText, s.isAiTyping;
    s.SetInputText("x");
    s.SetInputText("x");
    draftTwice := s.inputText;
  }

  /** Typing "Hello" and pressing Enter adds the user message, raises the flag
      and clears the draft; when the reply fires the transcript gains a reply
      to "Hello" and the flag is lowered. */
  method HelloExchange() returns (afterSend: seq<Message>, typingAfterSend: bool, draftAfterSend: string,
                                   afterReply: seq<Message>, typingAfterReply: bool)
    ensures |afterSend| == 2 && afterSend[0] == Message(0, Greeting, Ai) && afterSend[1] == Message(1, "Hello", User)
    ensures typingAfterSend && draftAfterSend == ""
    ensures afterReply == afterSend + [Message(2, ReplyText("Hello"), Ai)]
    ensures !typingAfterReply
  {
    var s := new Store();
    ChangeInput(s, "Hello");
    assert !JsTrim.IsWhitespace("Hello"[0]);
    ghost var greeting := s.messages;
    assert greeting == [Message(0, Greeting, Ai)];
    PressKeyInInput(s, "Enter");
    assert s.pending == ["Hello"] && s.nextId == 2;
    assert s.messages == greeting + [Message(1, "Hello", User)];
    afterSend, typingAfterSend, draftAfterSend := s.messages, s.isAiTyping, s.inputText;
    s.FireReply();
    afterReply, typingAfterReply := s.messages, s.isAiTyping;
  }

  /** The store appends a whitespace-only user message it is handed directly. */
  method BlankPassthrough() returns (messages: seq<Message>, typing: bool)
    ensures |messages| == 2 && messages[0] == Message(0, Greeting, Ai) && messages[1] == Message(1, "  ", User)
    ensures typing
  {
    var s := new Store();
    ghost var greeting := s.messages;
    s.AddMessage(MessageContent("  ", User));
    assert s.messages == greeting + [Message(1, "  ", User)];
    messages, typing := s.messages, s.isAiTyping;
  }

  /** The chat window refuses to send a whitespace-only draft: the transcript,
      the draft and the pending replies stay as they were. */
  method BlankDraftRefused() returns (messages: seq<Message>, draft: string, pending: seq<string>)
    ensures messages == [Message(0, Greeting, Ai)] && draft == "  " && pending == []
  {
    var s := new Store();
    HandleInputChange(s, "  ");
    assert JsTrim.IsBlank("  ");
    HandleSendMessage(s);
    messages, draft, pending := s.messages, s.inputText, s.pending;
  }

  /** A key other than Enter sends nothing, whatever the draft. */
  method OtherKeyIgnored() returns (messages: seq<Message>, draft: string)
    ensures messages == [Message(0, Greeting, Ai)] && draft == "Hi"
  {
    var s := new Store();
    HandleInputChange(s, "Hi");
    HandleKeyPress(s, "a");
    messages, draft := s.messages, s.inputText;
  }

  /** Two user messages added while the first reply is still pending (the
      store does not refuse the second) leave two replies pending. The first
      reply to fire lowers the flag although the second is still pending. */
  method OverlappingReplies() returns (typingMidway: bool, pendingMidway: seq<string>, messagesMidway: seq<Message>)
    ensures !typingMidway && pendingMidway == ["b"]
    ensures |messagesMidway| == 4 && messagesMidway[1] == Message(1, "a", User) &&
            messagesMidway[2] == Message(2, "b", User) && messagesMidway[3] == Message(3, ReplyText("a"), Ai)
  {
    var s := new Store();
    ghost var greeting := s.messages;
    s.AddMessage(MessageContent("a", User));
    s.AddMessage(MessageContent("b", User));
    assert s.pending == ["a", "b"] && s.nextId == 3;
    ghost var sent := s.messages;
    assert sent == greeting + [Message(1, "a", User)] + [Message(2, "b", User)];
    s.FireReply();
    assert s.messages == sent + [Message(3, ReplyText("a"), Ai)];
    typingMidway, pendingMidway, messagesMidway := s.isAiTyping, s.pending, s.messages;
  }

  /** With two replies pending, the replies come in the order of the user
      messages they answer, and the second also lowers the flag. */
  method RepliesInOrder() returns (typing: bool, pending: seq<string>, transcript: seq<Message>)
    ensures !typing && pending == []
    ensures |transcript| == 5 && transcript[3] == Message(3, ReplyText("a"), Ai) &&
            transcript[4] == Message(4, ReplyText("b"), Ai)
  {
    var s := new Store();
    s.AddMessage(MessageContent("a", User));
    s.AddMessage(MessageContent("b", User));
    assert s.pending == ["a", "b"] && s.nextId == 3 && |s.messages| == 3;
    ghost var sent := s.messages;
    s.FireReply();
    assert s.pending == ["b"] && s.nextId == 4;
    ghost var firstReplied := s.messages;
    assert firstReplied == sent + [Message(3, ReplyText("a"), Ai)];
    s.FireReply();
    assert s.messages == firstReplied + [Message(4, ReplyText("b"), Ai)];
    typing, pending, transcript := s.isAiTyping, s.pending, s.messages;
  }
}
