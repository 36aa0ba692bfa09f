# Chat conversation store and chat window, in Dafny

This project models the conversation core of the ConvoFlow chat front end:
the Zustand store of `frontend/src/store/chatStore.ts` and the event handlers
and control conditions of `frontend/src/components/ChatWindow/ChatWindow.tsx`.

- `chat_store.dfy` (module `ChatStore`): the store as a class `Store` with the
  source's fields `messages`, `inputText` and `isAiTyping`, its three mutators
  `SetInputText`, `AddMessage` and `SetAiTyping`, and the simulated AI reply.
  The `setTimeout` callback that `addMessage` registers for a user message is
  modelled explicitly: the class keeps a FIFO `pending` of the user texts whose
  reply is scheduled, and `FireReply` is the callback of the oldest timer
  (all timers share the same 1500 ms delay, so they fire in the order they
  were set). Firing appends the canned reply `J'ai bien noté votre demande
  concernant : "<text>". Je suis en train de traiter cela.` and then lowers the
  flag, even when other replies are still pending, as the source does.
  The invariant `Valid()` says the greeting is the first message, ids are
  distinct, and the pending texts are exactly the texts of the most recent
  user messages, so replies never schedule replies and a reply always follows
  the user message it answers.
- `chat_window.dfy` (module `ChatWindow`): `handleInputChange`,
  `handleSendMessage` and `handleKeyPress` as methods over a `Store`, the
  `disabled` conditions of the send button and of the text input, and the
  typing-indicator condition. The browser only delivers clicks and key
  presses to enabled controls; `ClickSend`, `PressKeyInInput` and
  `ChangeInput` model that gate, and they keep the store in `Gated()`: the
  flag is raised exactly while a reply is pending, and at most one is.
- `js_trim.dfy` (module `JsTrim`): `String.prototype.trim` with the white-space
  set of ECMAScript (WhiteSpace and LineTerminator), so that `trim() === ''`
  is proved to mean "every character is white space".
- `scenarios.dfy` (module `ChatScenarios`): scenarios from a fresh store,
  proved by the verifier.

Two behaviours of the source are modelled as written. The comments at
`frontend/src/store/chatStore.ts:57` and `:68` present the flag as "the AI is
writing", but once two replies are pending the first one to fire lowers it
while the second is still outstanding (`ChatScenarios.OverlappingReplies`).
And `addMessage` appends whatever text it is given, blank user text included;
only the chat window refuses blank drafts and, through its disabled controls,
prevents sends while a reply is pending.

## Model

| member | source | states |
|---|---|---|
| ChatStore.Store.constructor | frontend/src/store/chatStore.ts:29-38 | a fresh store holds exactly the greeting message from the AI, an empty draft, a lowered flag and no pending reply; it satisfies the invariant and the gated state |
| ChatStore.Store.SetInputText | frontend/src/store/chatStore.ts:41 | the draft becomes the given text verbatim; only the draft may change |
| ChatStore.Store.SetAiTyping | frontend/src/store/chatStore.ts:74 | the flag becomes the given value; only the flag may change |
| ChatStore.Store.AddMessage | frontend/src/store/chatStore.ts:44-61 | exactly one message with the given text and sender and a fresh id, differing from every id already in the transcript, is appended after the unchanged old transcript, with no check of the text; a user message raises the flag and schedules exactly one reply; an AI message schedules nothing and leaves the flag alone; the draft is untouched |
| ChatStore.Store.FireReply | frontend/src/store/chatStore.ts:61-69 | the oldest pending reply is removed, the canned reply to its user text is appended, that user text is a user message already in the transcript, the flag ends lowered whether or not replies remain, no new reply is scheduled, and the gated state is kept |
| ChatStore.ReplyText | frontend/src/store/chatStore.ts:63 | the canned reply opens with the fixed prefix, closes with the fixed suffix and is as much longer than the user text as the two together; ReplyTopicOfReplyText and ReplyTextInjective show it determines the user text |
| ChatStore.ReplyTopicOfReplyText | frontend/src/store/chatStore.ts:63 | the user text can be read back out of its canned reply |
| ChatStore.ReplyTextOfReplyTopic | frontend/src/store/chatStore.ts:63 | every text of the reply's shape is the canned reply to the text read out of it |
| ChatStore.ReplyTextInjective | frontend/src/store/chatStore.ts:63 | different user texts get different replies |
| ChatStore.UserTextsAppend | frontend/src/store/chatStore.ts:51-53 | appending a message adds its text to the user texts of the transcript exactly when its sender is the user |
| ChatStore.PendingHeadWasSent | frontend/src/store/chatStore.ts:56-61 | when the pending texts are the latest user texts, the oldest pending text is the text of a user message of the transcript |
| ChatStore.PositionIdsDistinct | frontend/src/store/chatStore.ts:44-49 | ids drawn from the counter are pairwise distinct |
| ChatStore.Store.DistinctIds | frontend/src/store/chatStore.ts:44-53 | no two messages of a valid store's transcript share an id |
| ChatWindow.SendDisabled | frontend/src/components/ChatWindow/ChatWindow.tsx:88 | the send button is disabled exactly when the draft is all white space or the AI is typing |
| ChatWindow.InputDisabled | frontend/src/components/ChatWindow/ChatWindow.tsx:84 | the text input is disabled while the AI is typing, and then the send button is disabled too; GatedControlsTrackPending ties it to the pending reply |
| ChatWindow.TypingIndicatorShown | frontend/src/components/ChatWindow/ChatWindow.tsx:65 | the typing indicator is shown exactly while the text input is disabled; GatedControlsTrackPending ties it to the pending reply |
| ChatWindow.GatedControlsTrackPending | frontend/src/components/ChatWindow/ChatWindow.tsx:65-88 | in the gated state the input is disabled and the typing indicator shown exactly while a reply is pending, and the send button is then disabled |
| ChatWindow.HandleInputChange | frontend/src/components/ChatWindow/ChatWindow.tsx:24-26 | the draft becomes the input's value verbatim and nothing else changes |
| ChatWindow.HandleSendMessage | frontend/src/components/ChatWindow/ChatWindow.tsx:28-36 | a blank draft changes nothing; otherwise the untrimmed draft is appended as one user message, one reply is scheduled, the flag is raised and then the draft is cleared, whatever the flag was before |
| ChatWindow.HandleKeyPress | frontend/src/components/ChatWindow/ChatWindow.tsx:38-42 | Enter has exactly the effect of a send; any other key changes nothing |
| ChatWindow.ClickSend | frontend/src/components/ChatWindow/ChatWindow.tsx:86-88 | a click on a disabled button changes nothing, on an enabled one it sends; the gated state is kept |
| ChatWindow.PressKeyInInput | frontend/src/components/ChatWindow/ChatWindow.tsx:77-84 | a key press in a disabled input changes nothing, in an enabled one it is handled as a key press; the gated state is kept |
| ChatWindow.ChangeInput | frontend/src/components/ChatWindow/ChatWindow.tsx:77-84 | an edit reaches the draft only while the input is enabled; the gated state is kept |
| JsTrim.TrimStart | frontend/src/components/ChatWindow/ChatWindow.tsx:29 | the result is the suffix of the text starting at its first non-white-space character |
| JsTrim.TrimEnd | frontend/src/components/ChatWindow/ChatWindow.tsx:29 | the result is the prefix of the text ending at its last non-white-space character |
| JsTrim.Trim | frontend/src/components/ChatWindow/ChatWindow.tsx:29 | the trimmed text is no longer than the text and neither starts nor ends with white space; TrimIsMiddle and TrimEmptyIffBlank characterise it fully |
| JsTrim.TrimIsMiddle | frontend/src/components/ChatWindow/ChatWindow.tsx:29 | trim keeps a contiguous piece of the text whose ends are not white space and cuts away only white space |
| JsTrim.TrimEmptyIffBlank | frontend/src/components/ChatWindow/ChatWindow.tsx:29 | the trimmed text is empty exactly when every character is white space |
| ChatScenarios.FreshStore | frontend/src/store/chatStore.ts:29-41 | a fresh store holds only the greeting with id 0, an empty draft and a lowered flag; setting the draft twice to "x" leaves "x" |
| ChatScenarios.HelloExchange | frontend/src/store/chatStore.ts:44-69 | typing "Hello" and pressing Enter gives the transcript greeting then "Hello" from the user, a raised flag and an empty draft; when the reply fires the canned reply to "Hello" is appended after them and the flag is lowered |
| ChatScenarios.BlankPassthrough | frontend/src/store/chatStore.ts:44-57 | the store appends a whitespace-only user message it is handed directly and raises the flag |
| ChatScenarios.BlankDraftRefused | frontend/src/components/ChatWindow/ChatWindow.tsx:28-29 | the window's send on a whitespace-only draft leaves the transcript, the draft and the pending replies as they were |
| ChatScenarios.OtherKeyIgnored | frontend/src/components/ChatWindow/ChatWindow.tsx:38-42 | a key other than Enter sends nothing and leaves the draft |
| ChatScenarios.OverlappingReplies | frontend/src/store/chatStore.ts:56-69 | two user messages in a row leave two replies pending; the first to fire appends the reply to the first message and lowers the flag although one reply is still pending |
| ChatScenarios.RepliesInOrder | frontend/src/store/chatStore.ts:56-69 | with two replies pending, they are appended in the order of the user messages they answer, and afterwards nothing is pending and the flag is lowered |

## Left out

- Timestamps (`timestamp: new Date()`): they carry no logic; messages have no timestamp field.
- The 1500 ms delay and the timer machinery: replaced by the `pending` FIFO and the `FireReply` step; `FireReply` requires a pending reply because a callback only exists once scheduled.
- `generateUniqueId` (`Date.now` and `Math.random`): ids come from a counter, so the id of a message is its position; the source's ids are only unique with high probability, so distinctness is an idealisation.
- Zustand's `create`, selector hooks and re-render notification: the store is a plain object whose fields the methods assign.
- The handlers read `inputText` from the last render; the model reads the store's current draft, which is the same value once React has re-rendered.
- JSX rendering, CSS classes, `scrollToBottom`, `useRef` and `useEffect`: presentation with no effect on the state.
- `frontend/src/App.tsx` and `frontend/src/main.tsx`: page chrome and React mounting, with no logic.
- JavaScript strings are UTF-16; the model works on Unicode scalar values, so lone surrogates are not representable (none of them is white space for trim).
