# Customer-support inbox with an AI copilot — Dafny model

This project models the logic of a single-agent support inbox written in
TypeScript/React:

- the in-memory store of conversations and AI side-conversations, with the
  selected conversation, the one-slot pending "selected text action" and the
  composer text;
- the chat view, which turns selected text and an action key into an AI
  prompt, and which sends composed messages;
- the message composer: its Markdown shortcuts, its send keys and its AI
  action guard;
- the Fin AI panel, which consumes the pending action, asks a completion
  service and records the question and the response;
- the inbox search filter;
- what a conversation row, the chat header and an avatar derive from a
  conversation.

The store is the class `Store.AppStore`. Its fields are the store's state
(`seq` lists for the two conversation lists), and each action is a method
that states the whole new state. The copy-on-write `map` that every action
builds is a function over the old list (`Store.MarkRead`,
`Store.AppendMessage`, `Store.AddQuestion`, `Store.AddResponse`).
Frames, ordering and the one-AI-conversation-per-conversation invariant are
proved about those functions.

The chat view is the class `Chat.ChatSection`: its own selection and
processing flag, plus the store. The Fin AI panel's handlers are methods on
the store that take the completion service as a parameter
(`FinAI.CompletionService`: a prompt goes in, and the reply text or an
error comes out).

The composer's handlers only call the callbacks its parent passes in, so
each is a function returning the ordered list of callback calls
(`Composer.ComposerCall`). `Chat.ChatSection.ComposerSend` wires them the way
the chat view does: `onSend` is `handleSendMessage` and `onChange` is the
store's `setComposerContent`.

JavaScript semantics the code relies on are modelled once:

- `map`, `filter` and `find` are in `JsArray`;
- `toLowerCase`, `toUpperCase`, `includes`, `trim`, `substring`, `split` and
  `join` are in `JsString`;
- the truthiness of a `string | undefined` is `Types.Truthy`: present and
  not `""`.

Ids and timestamps come from `Math.random` and the clock in the source.
Here every method that creates a message or an AI conversation takes them as
parameters.

A few behaviours of the code are kept as written:

- `addAIResponse` does nothing when the conversation has no AI
  conversation yet.
- `unreadCount` is only ever reset, never raised by a new message.
- An empty-string id is stored as selected but does not mark anything read.
- The chat view's composer is cleared on send even when no message could be
  built, because the conversation had no other participant.

## Model

| member | source | states |
|---|---|---|
| Store.MarkRead | project/src/store/index.ts:80-97 | the list keeps its length; conversations with another id are unchanged; the matching one has `unreadCount` 0, the same number of messages, each of them the old one with `read` true, and all its other fields unchanged |
| Store.MarkReadIdempotent | project/src/store/index.ts:80-97 | marking the same conversation read twice gives the same list as once |
| Store.AppendMessage | project/src/store/index.ts:66-75 | the list keeps its length; other conversations are unchanged; the matching one gets exactly the new message at the end of its old messages, `lastMessage` becomes it, and `unreadCount` is unchanged; with no matching id the list is unchanged |
| Store.AddQuestion | project/src/store/index.ts:99-134 | with an AI conversation for the id, the question is appended to the end of its messages and nothing else changes; otherwise one new AI conversation holding only the question is appended; in both cases an AI conversation for the id exists afterwards |
| Store.AddResponse | project/src/store/index.ts:136-160 | the response is appended to the AI conversation for the id; other entries are unchanged; with no such AI conversation the list is exactly the old one |
| Store.AddQuestionKeepsOnePer | project/src/store/index.ts:99-134 | if no two AI conversations share a conversation id, `addAIQuestion` keeps it so (no second AI conversation is ever created) |
| Store.AddResponseKeepsOnePer | project/src/store/index.ts:136-160 | `addAIResponse` keeps at most one AI conversation per conversation |
| Store.AddResponseKeepsLookup | project/src/store/index.ts:148-159 | recording a response moves no AI conversation: the first-match lookup for any conversation id finds the same position as before |
| Store.TwoQuestionsOneConversation | project/src/store/index.ts:99-134 | two questions about a conversation without an AI conversation give one new entry holding both questions in order, after the unchanged old entries |
| Store.AppStore.constructor | project/src/store/index.ts:30-36 | the initial state: the given lists, nothing selected, nothing pending, an empty composer |
| Store.AppStore.SetSelectedConversation | project/src/store/index.ts:38-43 | the id is stored as selected; a truthy id also marks that conversation read; null or "" leaves the conversations unchanged; the other fields are unchanged |
| Store.AppStore.SelectTextForAI | project/src/store/index.ts:45-47 | the pending slot holds exactly the given text and message id, replacing what was there; nothing else changes |
| Store.AppStore.ClearSelectedText | project/src/store/index.ts:49-51 | the pending slot is empty; nothing else changes |
| Store.AppStore.AddMessageToConversation | project/src/store/index.ts:53-78 | the conversations become `AppendMessage` of a message holding exactly the given sender, recipient, content, read flag and attachments; the composer becomes "" even when no conversation has that id |
| Store.AppStore.MarkConversationAsRead | project/src/store/index.ts:80-97 | the conversations become `MarkRead` of the old ones; nothing else changes |
| Store.AppStore.AddAIQuestion | project/src/store/index.ts:99-134 | the AI list becomes `AddQuestion` of a `question` with the given text and `originalMessageId`; the one-per-conversation invariant is preserved; nothing else changes |
| Store.AppStore.AddAIResponse | project/src/store/index.ts:136-160 | the AI list becomes `AddResponse` of a `response` with no `originalMessageId`; the invariant is preserved; nothing else changes |
| Store.AppStore.SetComposerContent | project/src/store/index.ts:162-164 | the composer holds exactly the content; nothing else changes |
| Store.AppStore.GetSelectedConversation | project/src/store/index.ts:166-171 | none when the selected id is not truthy; otherwise the first conversation with that id, and none exactly when no conversation has it |
| Store.AppStore.GetAIConversationForSelected | project/src/store/index.ts:173-178 | none when the selected id is not truthy; otherwise the first AI conversation whose `conversationId` is that id, and none exactly when there is no such entry |
| JsArray.Map | project/src/store/index.ts:67-75 | `map` keeps the length and puts `f` of the i-th element at position i |
| JsArray.Filter | project/src/components/inbox/InboxSection.tsx:19-36 | every kept element is from the list and satisfies the predicate, and every element of the list that satisfies it is kept |
| JsArray.KeptIndices | project/src/components/inbox/InboxSection.tsx:19-36 | the kept positions are strictly increasing and are exactly the positions whose element satisfies the predicate |
| JsArray.FilterKeepsOrder | project/src/components/inbox/InboxSection.tsx:19-36 | the filter's result is the list read at the kept positions, in order |
| JsArray.FilterAgrees | project/src/components/inbox/InboxSection.tsx:19-36 | two predicates that agree on every element keep the same elements |
| JsArray.FindIndex | project/src/store/index.ts:101 | the first position whose element satisfies the predicate, and none exactly when no element satisfies it |
| JsArray.Find | project/src/store/index.ts:101 | `find` returns none exactly when nothing matches, else the element at the first matching position |
| JsArray.FindIndexIs | project/src/store/index.ts:101 | a matching position with no match before it is what `find` reports |
| JsArray.FindIndexMap | project/src/store/index.ts:114-121 | a `map` that keeps each element's match status keeps the first match where it was |
| JsString.ToLowerCaseIdempotent | project/src/components/inbox/InboxSection.tsx:20-33 | lower-casing twice is lower-casing once |
| JsString.Includes | project/src/components/inbox/InboxSection.tsx:24 | `s.includes(t)` holds exactly when `t` starts at some position of `s` |
| JsString.TrimStart | project/src/components/chat/MessageComposer.tsx:76 | the result is a suffix of the string, everything dropped is whitespace, and the result does not start with whitespace |
| JsString.TrimEnd | project/src/components/chat/MessageComposer.tsx:76 | the result is a prefix of the string, everything dropped is whitespace, and the result does not end with whitespace |
| JsString.TrimEmptyIff | project/src/components/chat/MessageComposer.tsx:76 | `trim()` is empty exactly when every character is whitespace |
| JsString.Substring | project/src/components/chat/MessageComposer.tsx:100 | the result is never longer than the string; with both bounds inside the string it is the slice between them in either order; a bound past the end reads to the end, and bounds around the whole string give it all |
| JsString.SubstringSwap | project/src/components/chat/MessageComposer.tsx:100 | swapping the two arguments of `substring` gives the same string |
| JsString.Split | project/src/components/ui/Avatar.tsx:42 | `split` gives at least one part and no part holds the separator |
| JsString.JoinSplit | project/src/components/ui/Avatar.tsx:42-44 | joining the parts of a split with its separator gives back the string |
| Prompts.ParseActionKey | project/src/components/chat/ChatSection.tsx:54-72 | a key selects a rewrite action exactly when it is that action's exact spelling |
| Prompts.AskFinAIIsNoRewrite | project/src/components/chat/ChatSection.tsx:73-75 | "Ask Fin AI" is none of the six rewrite actions |
| Prompts.ChatPrompt | project/src/components/chat/ChatSection.tsx:52-78 | for the six rewrite keys and "Ask Fin AI", the prompt is the key's fixed instruction followed by the text in double quotes; any other key gives the raw text |
| Prompts.SelectedTextOfChatPrompt | project/src/components/chat/ChatSection.tsx:52-78 | the selected text can be read back out of the prompt built for every key |
| Prompts.ChatPromptInjective | project/src/components/chat/ChatSection.tsx:52-78 | under one key, different selected texts give different prompts |
| Prompts.FormalExample | project/src/components/chat/ChatSection.tsx:64-65 | `formal` with "thanks for reaching out" gives exactly `Make this message more formal and professional: "thanks for reaching out"` |
| Prompts.KeysAreCaseSensitive | project/src/components/chat/ChatSection.tsx:54-77 | "Formal", "REPHRASE" and "ask fin ai" fall through to the raw text |
| Chat.OutgoingMessage | project/src/components/chat/ChatSection.tsx:86-101 | a message exists exactly when a conversation is selected, the content is not blank and some participant is not the current user; it goes to the selected conversation, from the current user to the first such participant, with the content untrimmed, marked read and without attachments |
| Chat.ChatSection.constructor | project/src/components/chat/ChatSection.tsx:11-13 | the view starts with no selection and not processing |
| Chat.ChatSection.HandleTextSelection | project/src/components/chat/ChatSection.tsx:22-47 | a non-blank selection inside a message is kept trimmed with that message's id; one outside any message changes nothing; an empty selection clears it unless the click was on the menu |
| Chat.ChatSection.HandleAIAction | project/src/components/chat/ChatSection.tsx:49-84 | with a selection, a selected conversation and nothing processing, the store's pending slot receives the key's prompt and the selection's message id, the selection is dropped and processing is false; otherwise nothing changes |
| Chat.ChatSection.HandleSendMessage | project/src/components/chat/ChatSection.tsx:86-101 | the store's conversations become `AppendMessage` of `OutgoingMessage` when there is one, and the composer is then cleared; otherwise the store is unchanged |
| Chat.ChatSection.ComposerSend | project/src/components/chat/ChatSection.tsx:234-238 | the composer's send with this view's callbacks: the outgoing message, if any, is appended, and a non-blank text is cleared even when nothing was sent |
| Composer.ParseFormat | project/src/components/chat/MessageComposer.tsx:104-122 | a recognised format key is the exact name of its format |
| Composer.ParseFormatName | project/src/components/chat/MessageComposer.tsx:104-122 | each format's name is recognised as that format |
| Composer.InsertFormat | project/src/components/chat/MessageComposer.tsx:94-133 | there is no edit exactly when the textarea is missing or the format key is unknown |
| Composer.InsertFormatSplice | project/src/components/chat/MessageComposer.tsx:100-124 | for a selection within the text, the text before and after it is kept, the selection wrapped in `**…**` or `_…_` or prefixed by `# ` or `## ` goes between, and the length grows by 4, 2, 2 or 3 |
| Composer.InsertFormatNewValue | project/src/components/chat/MessageComposer.tsx:124 | for a selection inside the text, the new text is the part before it, the marked-up selection and the part after it |
| Composer.InsertFormatCursorIs | project/src/components/chat/MessageComposer.tsx:130 | the new cursor is `start` plus the offset when nothing is selected, else `start` plus the length of the marked-up selection |
| Composer.InsertFormatCursor | project/src/components/chat/MessageComposer.tsx:102-130 | the cursor stays within the new text; with nothing selected it lands right after the opening marker (offset 2, 1, 2 or 3), and with a selection right after the whole marked-up text |
| Composer.SpliceCursor | project/src/components/chat/MessageComposer.tsx:130 | on a spliced text the cursor formula lands inside the markers for an empty selection and after the marked-up text otherwise |
| Composer.HandleSend | project/src/components/chat/MessageComposer.tsx:75-83 | when some character is not whitespace, `onSend` gets the untrimmed value and then `onChange("")` is called; otherwise no call is made |
| Composer.KeyCommandOf | project/src/components/chat/MessageComposer.tsx:49-72 | Enter without Shift sends; otherwise Ctrl or Meta with b, i, 1 or 2 applies bold, italic, h1 or h2; everything else does nothing |
| Composer.HandleKeyDown | project/src/components/chat/MessageComposer.tsx:49-73 | a send key makes `handleSend`'s calls; a shortcut with a textarea makes one `onChange` with the formatted text; anything else makes no call |
| Composer.HandleAIAction | project/src/components/chat/MessageComposer.tsx:135-164 | no call exactly when the selection, the conversation or the callback is missing or an action is processing; otherwise one `selectTextForAI` call with the action's template and the selection's message id |
| Composer.ComposerPromptsMatchChat | project/src/components/chat/MessageComposer.tsx:141-160 | the composer's six templates are the chat view's prompts for the same keys |
| FinAI.ResponseText | project/src/components/ai/FinAIChatbot.tsx:65-71 | the reply text on success, the fixed apology on any failure |
| FinAI.QuestionThenResponse | project/src/components/ai/FinAIChatbot.tsx:29-37 | recording a question and then its response leaves the conversation's AI conversation as its earlier messages followed by exactly the question and the response, or a new AI conversation holding just those two |
| FinAI.SuggestionsHiddenAfterQuestion | project/src/components/ai/FinAIChatbot.tsx:108 | a recorded question hides the suggestion buttons |
| FinAI.GetAIResponse | project/src/components/ai/FinAIChatbot.tsx:39-72 | nothing happens without a selected conversation; otherwise exactly one response, the reply for that prompt or the apology, is given to `addAIResponse` for the selected conversation |
| FinAI.ConsumePendingAction | project/src/components/ai/FinAIChatbot.tsx:29-37 | with a pending action and a selected conversation: one question with the action's text and message id is recorded, one response to that same text follows, and the slot is emptied; otherwise nothing changes |
| FinAI.AskSuggestion | project/src/components/ai/FinAIChatbot.tsx:118-139 | with a selected conversation, the button's fixed prompt is recorded as a question and a response to that same prompt follows |
| FinAI.SubmitInput | project/src/components/ai/FinAIChatbot.tsx:174-178 | a non-empty input asks for a response without recording a question and the input is emptied, so without an AI conversation nothing is recorded |
| FinAI.SubmitQuestion | project/src/components/ai/FinAIChatbot.tsx:121-126 | the corrected Enter path: the input is recorded as a question before its response, so the AI conversation ends with both |
| FinAI.EnterWithoutAIConversationRecordsNothing | project/src/components/ai/FinAIChatbot.tsx:174-178 | with no AI conversation for the selected conversation, the Enter path's response leaves the AI list exactly as it was |
| FinAI.AddToComposer | project/src/components/ai/FinAIChatbot.tsx:74-76 | the composer holds exactly the AI message's content; nothing else changes |
| Inbox.FilterConversations | project/src/components/inbox/InboxSection.tsx:19-36 | every shown conversation is from the inbox and matches the search, and every matching one is shown |
| Inbox.FilterKeepsInboxOrder | project/src/components/inbox/InboxSection.tsx:19 | the result is the inbox read at strictly increasing positions, which are exactly those of the matching conversations |
| Inbox.SearchIgnoresCase | project/src/components/inbox/InboxSection.tsx:20-33 | two terms with the same lower-case form show the same conversations |
| Inbox.SearchLowerCasedTerm | project/src/components/inbox/InboxSection.tsx:20 | searching a term and its lower-cased form shows the same conversations |
| Inbox.UpperAndLowerTermsAgree | project/src/components/inbox/InboxSection.tsx:20-33 | "ABC" and "abc" show the same conversations |
| Inbox.EmptyTermMatches | project/src/components/inbox/InboxSection.tsx:23-35 | the empty term matches exactly the conversations with a participant, a message or a subject |
| Inbox.AbsentSubjectNeverMatches | project/src/components/inbox/InboxSection.tsx:33 | without a subject, a conversation matches exactly when a participant name or a message content does |
| Inbox.NoResultsHint | project/src/components/inbox/InboxSection.tsx:116 | the empty-result hint depends only on whether the term is non-empty |
| Inbox.HandleSelectConversation | project/src/components/inbox/InboxSection.tsx:38-42 | the clicked conversation is selected and, for a non-empty id, marked read |
| Display.OtherParticipant | project/src/components/inbox/ConversationItem.tsx:20 | the first participant whose id is not `current-user`; if all are, the first participant; none exactly when there are no participants; the chat header picks its participant the same way |
| Display.LastMessage | project/src/components/inbox/ConversationItem.tsx:23 | the preview is the last of the messages, and none exactly when there are none |
| Display.TimeLabel | project/src/components/inbox/ConversationItem.tsx:26-28 | "" without messages, otherwise the formatted time of the last message |
| Display.PriorityBadge | project/src/components/inbox/ConversationItem.tsx:31-35 | shown exactly when a priority is set: error exactly for high, warning exactly for medium, default exactly for low |
| Display.StatusBadge | project/src/components/chat/ChatHeader.tsx:46-57 | shown exactly when a status is set: success exactly for open, warning exactly for pending, default exactly for closed |
| Display.SubjectShownOnlyWhenPresent | project/src/components/chat/ChatHeader.tsx:39-44 | the subject segment is rendered exactly when a non-empty subject is present; an empty subject is not shown |
| Display.UnreadBadge | project/src/components/inbox/ConversationItem.tsx:93-97 | the badge shows the count, and appears exactly when the row is highlighted, i.e. when `unreadCount > 0` |
| Display.ReadConversationNotHighlighted | project/src/components/inbox/ConversationItem.tsx:42 | a conversation just marked read shows neither the highlighting nor the badge |
| Display.AppendShowsNewMessage | project/src/components/inbox/ConversationItem.tsx:23 | after an append, the row's unread state is unchanged and it previews the new message, which is also the stored `lastMessage` |
| Avatar.FirstChar | project/src/components/ui/Avatar.tsx:43 | an empty part contributes nothing, any other part its first character |
| Avatar.GetInitials | project/src/components/ui/Avatar.tsx:40-47 | the initials have at most two characters |
| Avatar.WordStarts | project/src/components/ui/Avatar.tsx:41-44 | the word starts hold no space |
| Avatar.SplitFirstChars | project/src/components/ui/Avatar.tsx:41-44 | the first characters of the space-separated parts, joined, are the characters that start a word, in order; empty parts from extra spaces add nothing |
| Avatar.InitialsAreWordStarts | project/src/components/ui/Avatar.tsx:40-47 | the initials are the upper-cased first two word starts of the name |
| Avatar.WordStartsOfWord | project/src/components/ui/Avatar.tsx:41-44 | a word without spaces contributes only its first character |
| Avatar.TwoWordInitials | project/src/components/ui/Avatar.tsx:40-47 | a first and a last name give the upper-cased first letter of each |
| Avatar.Content | project/src/components/ui/Avatar.tsx:55-77 | the initials of `alt` are shown exactly when `src` is missing or empty, otherwise the image |

## Findings

| source | as written | input that shows it | evidently intended | confidence | as-written member | corrected member |
|---|---|---|---|---|---|---|
| project/src/components/ai/FinAIChatbot.tsx:174-178 | Enter in "Ask Fin AI a question…" sends the input for a response but never records it as a question | a selected conversation with no AI conversation yet, input "Summarize": nothing is recorded and the reply is lost | record the input as a question, then ask for the response, as the suggestion buttons do | medium, not executed | FinAI.SubmitInput | FinAI.SubmitQuestion |

`FinAI.EnterWithoutAIConversationRecordsNothing` states the lost reply for
every input. `FinAI.SubmitQuestion`'s contract states the intended result:
the question, then its response, at the end of the AI conversation.

## Left out

- The completion request itself is not modelled: the endpoint, the headers,
  the API key, the JSON body and the `await`. It is the parameter `service`.
- FinAI.GetAIResponse: the request is not awaited by its callers, so in the
  code the pending slot is cleared (FinAIChatbot.tsx:35) and the input is
  emptied (line 177) before the reply is recorded. The model treats the
  request as synchronous. The final state still agrees, because the slot,
  the input and the AI list are separate fields. Replies from several
  requests in flight at once, and the order they arrive in, are not
  modelled.
- FinAI.GetAIResponse: the `console.error` logging of a failure is left
  out, because it is output only and changes no state.
- FinAI.ResponseText: a reply whose `choices[0].message.content` is missing
  would be recorded as `undefined`. The model's service returns either a
  string or an error, so this case is not modelled.
- React effect scheduling (dependency re-runs, batching), scrolling, the
  `setTimeout` cursor restore and the textarea auto-resize are not modelled.
  `Composer.InsertFormat` computes the cursor position the timeout would set.
- Chat.ChatSection.HandleTextSelection: the DOM selection is given as its
  outcome, and the selection-menu position is not modelled. The outcome is
  the selected text, whether it has an anchor, the enclosing message id and
  whether the click was on the menu. The document-wide click-outside
  listener is the same clearing branch and has no member of its own.
- Composer `isProcessing`: it is set and reset inside one handler, so it is
  a parameter of `Composer.HandleAIAction`. The composer's AI props are
  never passed by the chat view, so that path is reachable only in isolation.
- Composer.InsertFormatSplice and Composer.InsertFormatCursor assume
  `start <= end <= value.length`, as a textarea reports them.
  `Composer.InsertFormat` itself accepts any integers.
- Times are not formatted: `formatDistanceToNow` is the parameter of
  `Display.TimeLabel`. Ids and timestamps are method parameters.
- Composer.InsertFormat, Avatar.FirstChar and Avatar.GetInitials: positions
  and lengths count characters, not UTF-16 code units as JavaScript's
  `selectionStart`, `substring`, `length` and `part[0]` do. So text holding
  emoji or other characters outside the Basic Multilingual Plane is spliced
  and abbreviated differently from the code. For example, the code takes
  only the first half of a surrogate pair as an initial.
- Case mapping is ASCII only. Full Unicode `toLowerCase`/`toUpperCase`,
  which can change a string's length, is not modelled.
- Display.OtherParticipant: with no participants the components read
  `.avatar` of `undefined` and fail. The model returns none.
- The tag badges of a row, the selected-row styling and all class names are
  not modelled. They are plain rendering.
- `Attachment.size` and `Conversation.unreadCount` are JavaScript numbers.
  The model keeps them as unbounded integers, so fractions, `NaN` and
  floating-point rounding are not modelled.
- The seed data in `project/src/data/mockData.ts` is not part of this model.
