/** The conversation store: the message transcript, the draft being typed,
    the "AI is typing" flag, and the simulated AI reply that every user
    message schedules. The reply timers of the running program are modelled
    as a FIFO of the user texts still waiting for their reply: every timer
    has the same delay, so they fire in the order they were scheduled. */
module ChatStore {

  datatype Sender = User | Ai

  /** What a caller hands to AddMessage: a message without id or timestamp. */
  datatype MessageContent = MessageContent(text: string, sender: Sender)

  datatype Message = Message(id: nat, text: string, sender: Sender)

  datatype Option<T> = None | Some(value: T)

  /** The text of the message the store starts with. */
  const Greeting: string := "Bonjour ! Comment puis-je vous aider à automatiser aujourd'hui ?"

  const ReplyPrefix: string := "J'ai bien noté votre demande concernant : \""
  const ReplySuffix: string := "\". Je suis en train de traiter cela."

  /** The canned AI reply to the user text `u`: it opens with the fixed
      prefix, closes with the fixed suffix, and is exactly as much longer
      than `u` as the two together. */
  function ReplyText(u: string): (r: string)
    ensures |r| == |ReplyPrefix| + |u| + |ReplySuffix|
    ensures r[..|ReplyPrefix|] == ReplyPrefix && IsSuffix(ReplySuffix, r)
  {
    ReplyPrefix + u + ReplySuffix
  }

  /** The user text a canned reply refers to, or None if `r` does not have
      the shape of a canned reply. */
  function ReplyTopic(r: string): Option<string>
  {
    if |ReplyPrefix| + |ReplySuffix| <= |r| &&
       r[..|ReplyPrefix|] == ReplyPrefix && r[|r| - |ReplySuffix|..] == ReplySuffix
    then Some(r[|ReplyPrefix|..|r| - |ReplySuffix|])
    else None
  }

  /** A reply can be traced back to exactly the user text that caused it. */
  lemma ReplyTopicOfReplyText(u: string)
    ensures ReplyTopic(ReplyText(u)) == Some(u)
  {
    var r := ReplyText(u);
    assert r[..|ReplyPrefix|] == ReplyPrefix;
    assert r[|r| - |ReplySuffix|..] == ReplySuffix;
    assert r[|ReplyPrefix|..|r| - |ReplySuffix|] == u;
  }

  /** Every text with the shape of a reply is the reply to its topic. */
  lemma ReplyTextOfReplyTopic(r: string, u: string)
    requires ReplyTopic(r) == Some(u)
    ensures ReplyText(u) == r
  {
    assert r == r[..|ReplyPrefix|] + r[|ReplyPrefix|..|r| - |ReplySuffix|] + r[|r| - |ReplySuffix|..];
  }

  /** Different user texts get different replies. */
  lemma ReplyTextInjective(u: string, v: string)
    requires ReplyText(u) == ReplyText(v)
    ensures u == v
  {
    ReplyTopicOfReplyText(u);
    ReplyTopicOfReplyText(v);
  }

  /** The texts of the user messages of `ms`, in transcript order. */
  function UserTexts(ms: seq<Message>): (r: seq<string>)
    ensures |r| <= |ms|
  {
    if ms == [] then []
    else (if ms[0].sender == User then [ms[0].text] else []) + UserTexts(ms[1..])
  }

  /** Appending a message adds its text to UserTexts exactly when it is a user message. */
  lemma {:induction false} UserTextsAppend(ms: seq<Message>, m: Message)
    ensures UserTexts(ms + [m]) == UserTexts(ms) + (if m.sender == User then [m.text] else [])
  {
    if ms != [] {
      assert (ms + [m])[1..] == ms[1..] + [m];
      UserTextsAppend(ms[1..], m);
    } else {
      assert [m][1..] == [];
    }
  }

  /** Every entry of UserTexts comes from a user message of the transcript. */
  lemma {:induction false} UserTextsFrom(ms: seq<Message>, k: nat)
    requires k < |UserTexts(ms)|
    ensures exists i :: 0 <= i < |ms| && ms[i] == Message(ms[i].id, UserTexts(ms)[k], User)
  {
    if ms[0].sender == User && k == 0 {
      assert ms[0] == Message(ms[0].id, UserTexts(ms)[0], User);
    } else {
      var j := if ms[0].sender == User then k - 1 else k;
      UserTextsFrom(ms[1..], j);
      var i :| 0 <= i < |ms[1..]| && ms[1..][i] == Message(ms[1..][i].id, UserTexts(ms[1..])[j], User);
      assert ms[i + 1] == Message(ms[i + 1].id, UserTexts(ms)[k], User);
    }
  }

  /** `p` is a suffix of `s`. */
  predicate IsSuffix<T(==)>(p: seq<T>, s: seq<T>)
  {
    |p| <= |s| && s[|s| - |p|..] == p
  }

  /** The user texts of the transcript are the answered ones followed by the
      pending ones, so each pending text is the text of a user message. */
  lemma PendingHeadWasSent(pending: seq<string>, ms: seq<Message>)
    requires pending != [] && IsSuffix(pending, UserTexts(ms))
    ensures exists i :: 0 <= i < |ms| && ms[i] == Message(ms[i].id, pending[0], User)
  {
    UserTextsFrom(ms, |UserTexts(ms)| - |pending|);
  }

  /** Each message's id is its position in the transcript: the id source is
      a counter that every append advances. */
  predicate IdsArePositions(ms: seq<Message>)
  {
    forall i :: 0 <= i < |ms| ==> ms[i].id == i
  }

  /** No two messages of `ms` share an id. */
  predicate IdsDistinct(ms: seq<Message>)
  {
    forall i, j :: 0 <= i < j < |ms| ==> ms[i].id != ms[j].id
  }

  /** Ids handed out by the counter are pairwise distinct. */
  lemma PositionIdsDistinct(ms: seq<Message>)
    requires IdsArePositions(ms)
    ensures IdsDistinct(ms)
  {
  }

  class Store {
    var messages: seq<Message>
    var inputText: string
    var isAiTyping: bool
    /** The user texts whose simulated reply has been scheduled and has not fired yet, oldest first. */
    var pending: seq<string>
    /** The id source: the id the next message receives. */
    var nextId: nat

    /** The store's invariant: the greeting is first, each id is the
        message's position (so ids are distinct, see PositionIdsDistinct),
        and the pending replies are for the most recent user messages. */
    ghost predicate Valid()
      reads this`messages, this`nextId, this`pending
    {
      |messages| >= 1 && messages[0].text == Greeting && messages[0].sender == Ai &&
      nextId == |messages| && IdsArePositions(messages) &&
      IsSuffix(pending, UserTexts(messages))
    }

    /** The state the chat window keeps the store in when sends go only
        through its enabled controls: the flag is raised exactly while a
        reply is pending, and at most one is. */
    ghost predicate Gated()
      reads this`isAiTyping, this`pending
    {
      (isAiTyping <==> pending != []) && |pending| <= 1
    }

    /** In a valid store no two messages share an id. */
    lemma DistinctIds()
      requires Valid()
      ensures IdsDistinct(messages)
    {
      PositionIdsDistinct(messages);
    }

    constructor ()
      ensures Valid() && Gated()
      ensures messages == [Message(0, Greeting, Ai)]
      ensures inputText == "" && !isAiTyping && pending == [] && nextId == 1
    {
      messages := [Message(0, Greeting, Ai)];
      nextId := 1;
      inputText := "";
      isAiTyping := false;
      pending := [];
    }

    /** Replaces the draft verbatim. */
    method SetInputText(text: string)
      modifies this`inputText
      ensures inputText == text
    {
      inputText := text;
    }

    /** Sets the typing flag. */
    method SetAiTyping(isTyping: bool)
      modifies this`isAiTyping
      ensures isAiTyping == isTyping
    {
      isAiTyping := isTyping;
    }

    /** Appends the message with a fresh id, whatever its text; a user message
        also raises the typing flag and schedules one reply. */
    method AddMessage(c: MessageContent)
      requires Valid()
      modifies this`messages, this`nextId, this`isAiTyping, this`pending
      ensures Valid()
      ensures messages == old(messages) + [Message(old(nextId), c.text, c.sender)] && nextId == old(nextId) + 1
      ensures forall i :: 0 <= i < old(|messages|) ==> messages[i].id != old(nextId)
      ensures c.sender == User ==> isAiTyping && pending == old(pending) + [c.text]
      ensures c.sender == Ai ==> isAiTyping == old(isAiTyping) && pending == old(pending)
    {
      var m := Message(nextId, c.text, c.sender);
      UserTextsAppend(messages, m);
      messages := messages + [m];
      nextId := nextId + 1;
      if c.sender == User {
        SetAiTyping(true);
        pending := pending + [c.text];
      }
    }

    /** The oldest scheduled reply fires: it appends the canned AI reply to
        its user text, then clears the typing flag, even when other replies
        are still pending. */
    method FireReply()
      requires Valid() && pending != []
      modifies this`messages, this`nextId, this`isAiTyping, this`pending
      ensures Valid()
      ensures pending == old(pending)[1..]
      ensures messages == old(messages) + [Message(old(nextId), ReplyText(old(pending)[0]), Ai)] && nextId == old(nextId) + 1
      ensures exists i :: 0 <= i < old(|messages|) && messages[i] == Message(messages[i].id, old(pending)[0], User)
      ensures !isAiTyping
      ensures old(Gated()) ==> Gated()
    {
      var u := pending[0];
      PendingHeadWasSent(pending, messages);
      ghost var i :| 0 <= i < |messages| && messages[i] == Message(messages[i].id, u, User);
      pending := pending[1..];
      AddMessage(MessageContent(ReplyText(u), Ai));
      SetAiTyping(false);
      assert messages[i] == old(messages)[i];
    }
  }
}
