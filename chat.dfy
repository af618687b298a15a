/**
 * The chat view (`ChatSection`): its own selection state, the selected-text
 * AI actions it dispatches to the store, and the sending of messages from
 * the composer it renders.
 */
module Chat {
  import opened Wrappers
  import opened Types
  import opened Store
  import JsArray
  import JsString
  import Prompts
  import Composer

  /** `p => p.id !== id` */
  function NotUser(id: string): User -> bool
  {
    (p: User) => p.id != id
  }

  /** The conversation and message `handleSendMessage` adds. */
  datatype Outgoing = Outgoing(conversationId: string, message: Message)

  /**
   * What `handleSendMessage(content)` sends: a message is sent only when a
   * conversation is selected, the content is not blank and some participant
   * is not the current user; it goes from the current user to the first such
   * participant, with the content untrimmed and marked read.
   */
  function OutgoingMessage(selected: Option<Conversation>, me: User, content: string,
                           messageId: string, timestamp: string): (r: Option<Outgoing>)
    ensures r.Some? <==>
              && selected.Some?
              && JsString.Trim(content) != []
              && exists i :: 0 <= i < |selected.value.participants| && selected.value.participants[i].id != me.id
    ensures r.Some? ==>
              && r.value.conversationId == selected.value.id
              && r.value.message.id == messageId && r.value.message.timestamp == timestamp
              && r.value.message.senderId == me.id
              && r.value.message.content == content
              && r.value.message.read
              && r.value.message.attachments.None?
              && exists k :: 0 <= k < |selected.value.participants| &&
                             r.value.message.recipientId == selected.value.participants[k].id != me.id &&
                             forall j :: 0 <= j < k ==> selected.value.participants[j].id == me.id
  {
    if selected.Some? && JsString.Trim(content) != [] then
      match JsArray.Find(selected.value.participants, NotUser(me.id))
      case Some(other) =>
        Some(Outgoing(selected.value.id,
                      NewMessage(MessageData(me.id, other.id, content, true, None), messageId, timestamp)))
      case None => None
    else None
  }

  class ChatSection {
    const store: AppStore
    var selection: Option<SelectedTextAction>
    var isProcessing: bool

    constructor (store: AppStore)
      ensures this.store == store && selection == None && !isProcessing
    {
      this.store := store;
      selection := None;
      isProcessing := false;
    }

    /**
     * `handleTextSelection`, given what the DOM reported: the selected text,
     * whether it has an anchor element, the `data-message-id` of the message
     * around it, and whether the click was on the selection menu or the
     * "Ask Fin AI" button. A non-blank selection inside a message is kept
     * trimmed; one outside any message changes nothing; an empty selection
     * clears the kept one unless the click was on the menu.
     */
    method HandleTextSelection(selectedText: string, hasAnchor: bool, messageId: Option<string>, onMenu: bool)
      modifies this
      ensures var text := JsString.Trim(selectedText);
        selection == if text != [] && hasAnchor then
                       (if Truthy(messageId) then Some(SelectedTextAction(text, messageId.value)) else old(selection))
                     else if onMenu then old(selection) else None
      ensures isProcessing == old(isProcessing)
    {
      var text := JsString.Trim(selectedText);
      if text != [] && hasAnchor {
        if Truthy(messageId) {
          selection := Some(SelectedTextAction(text, messageId.value));
        }
      } else if !onMenu {
        selection := None;
      }
    }

    /**
     * `handleAIAction(action)`: with a selection, a selected conversation and
     * no action processing, puts the action's prompt and the selection's
     * message id in the store's pending slot, then drops the selection and
     * ends processing. Otherwise nothing changes.
     */
    method HandleAIAction(action: string)
      modifies this, store
      ensures var go := old(selection).Some? && old(store.GetSelectedConversation()).Some? && !old(isProcessing);
        && (go ==> store.selectedTextAction == Some(SelectedTextAction(Prompts.ChatPrompt(action, old(selection).value.text),
                                                                       old(selection).value.messageId)))
        && (go ==> selection == None && !isProcessing)
        && (!go ==> store.selectedTextAction == old(store.selectedTextAction))
        && (!go ==> selection == old(selection) && isProcessing == old(isProcessing))
      ensures store.conversations == old(store.conversations) && store.aiConversations == old(store.aiConversations)
      ensures store.selectedConversationId == old(store.selectedConversationId)
      ensures store.composerContent == old(store.composerContent)
    {
      if selection.Some? && store.GetSelectedConversation().Some? && !isProcessing {
        isProcessing := true;
        var prompt := Prompts.ChatPrompt(action, selection.value.text);
        store.SelectTextForAI(prompt, selection.value.messageId);
        selection := None;
        isProcessing := false;
      }
    }

    /**
     * `handleSendMessage(content)`, with the new message's id and time passed
     * in: adds OutgoingMessage to the store (which also empties the composer),
     * or does nothing.
     */
    method HandleSendMessage(content: string, messageId: string, timestamp: string)
      modifies store
      ensures var out := OutgoingMessage(old(store.GetSelectedConversation()), store.currentUser, content, messageId, timestamp);
        && store.conversations == (if out.Some? then AppendMessage(old(store.conversations), out.value.conversationId, out.value.message)
                                   else old(store.conversations))
        && store.composerContent == (if out.Some? then "" else old(store.composerContent))
      ensures store.aiConversations == old(store.aiConversations)
      ensures store.selectedConversationId == old(store.selectedConversationId)
      ensures store.selectedTextAction == old(store.selectedTextAction)
    {
      var out := OutgoingMessage(store.GetSelectedConversation(), store.currentUser, content, messageId, timestamp);
      if out.Some? {
        var m := out.value.message;
        store.AddMessageToConversation(out.value.conversationId,
                                       MessageData(m.senderId, m.recipientId, m.content, m.read, m.attachments),
                                       messageId, timestamp);
      }
    }

    /**
     * The composer's send (button or Enter) as this view wires it: `onSend`
     * is HandleSendMessage and `onChange` is the store's setComposerContent.
     * A non-blank text is always cleared, even when no message could be sent
     * because the conversation has no other participant.
     */
    method ComposerSend(messageId: string, timestamp: string)
      modifies store
      ensures var value := old(store.composerContent);
        var out := OutgoingMessage(old(store.GetSelectedConversation()), store.currentUser, value, messageId, timestamp);
        && store.conversations == (if out.Some? then AppendMessage(old(store.conversations), out.value.conversationId, out.value.message)
                                   else old(store.conversations))
        && store.composerContent == (if JsString.Trim(value) != [] then "" else value)
      ensures store.aiConversations == old(store.aiConversations)
      ensures store.selectedConversationId == old(store.selectedConversationId)
      ensures store.selectedTextAction == old(store.selectedTextAction)
    {
      var value := store.composerContent;
      var calls := Composer.HandleSend(value);
      JsString.TrimEmptyIff(value);
      if calls != [] {
        HandleSendMessage(calls[0].content, messageId, timestamp);
        store.SetComposerContent(calls[1].value);
      }
    }
  }
}
