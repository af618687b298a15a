/**
 * The application store (`useAppStore`): the conversations, the AI
 * side-conversations, the selected conversation, the pending selected-text
 * action and the composer text. Every action replaces a list by a
 * copy-on-write `map` in which the matching entries are rebuilt and the others
 * kept; the functions below are those new lists, and the class `AppStore`
 * holds the state the actions overwrite.
 */
module Store {
  import opened Wrappers
  import opened Types
  import JsArray

  /** The message `addMessageToConversation` builds from the caller's data. */
  function NewMessage(data: MessageData, id: string, timestamp: string): Message
  {
    Message(id, data.senderId, data.recipientId, data.content, timestamp, data.read, data.attachments)
  }

  /** The entry `addAIQuestion` appends. */
  function NewQuestion(conversationId: string, text: string, messageId: Option<string>, id: string, timestamp: string): AIMessage
  {
    AIMessage(id, conversationId, messageId, text, timestamp, Question)
  }

  /** The entry `addAIResponse` appends: it is never anchored to a message. */
  function NewResponse(conversationId: string, content: string, id: string, timestamp: string): AIMessage
  {
    AIMessage(id, conversationId, None, content, timestamp, Response)
  }

  /** `conv => conv.id === id` */
  function HasId(id: string): Conversation -> bool
  {
    (c: Conversation) => c.id == id
  }

  /** `conv => conv.conversationId === id` */
  function ForConversation(id: string): AIConversation -> bool
  {
    (a: AIConversation) => a.conversationId == id
  }

  // ----- markConversationAsRead

  function ReadMessage(m: Message): Message
  {
    m.(read := true)
  }

  function ReadConversation(c: Conversation): Conversation
  {
    c.(unreadCount := 0, messages := JsArray.Map(c.messages, ReadMessage))
  }

  function MarkReadIn(id: string): Conversation -> Conversation
  {
    (c: Conversation) => if c.id == id then ReadConversation(c) else c
  }

  /**
   * The conversations after `markConversationAsRead(id)`: each conversation
   * with that id has a zero counter and all its messages read, with nothing
   * else about it changed; every other conversation is kept as it was.
   */
  function MarkRead(cs: seq<Conversation>, id: string): (r: seq<Conversation>)
    ensures |r| == |cs|
    ensures forall i :: 0 <= i < |cs| && cs[i].id != id ==> r[i] == cs[i]
    ensures forall i :: 0 <= i < |cs| && cs[i].id == id ==>
              && r[i].unreadCount == 0
              && |r[i].messages| == |cs[i].messages|
              && (forall j :: 0 <= j < |r[i].messages| ==> r[i].messages[j].read)
              && (forall j :: 0 <= j < |r[i].messages| ==> r[i].messages[j] == cs[i].messages[j].(read := true))
              && r[i] == cs[i].(unreadCount := 0, messages := r[i].messages)
  {
    JsArray.Map(cs, MarkReadIn(id))
  }

  /** Marking a conversation read a second time changes nothing. */
  lemma MarkReadIdempotent(cs: seq<Conversation>, id: string)
    ensures MarkRead(MarkRead(cs, id), id) == MarkRead(cs, id)
  {
    var once := MarkRead(cs, id);
    var twice := MarkRead(once, id);
    forall i | 0 <= i < |cs| ensures twice[i] == once[i] {
      if cs[i].id == id {
        assert twice[i].messages == once[i].messages;
      }
    }
  }

  // ----- addMessageToConversation

  function WithMessage(c: Conversation, m: Message): Conversation
  {
    c.(messages := c.messages + [m], lastMessage := Some(m))
  }

  function AppendMessageIn(id: string, m: Message): Conversation -> Conversation
  {
    (c: Conversation) => if c.id == id then WithMessage(c, m) else c
  }

  /**
   * The conversations after `addMessageToConversation(id, …)` has built `m`:
   * each conversation with that id gets `m` at the end of its messages (the
   * earlier ones kept in order) and as its last message; its unread counter
   * is not touched. Every other conversation, and the list's length, is kept.
   */
  function AppendMessage(cs: seq<Conversation>, id: string, m: Message): (r: seq<Conversation>)
    ensures |r| == |cs|
    ensures forall i :: 0 <= i < |cs| && cs[i].id != id ==> r[i] == cs[i]
    ensures forall i :: 0 <= i < |cs| && cs[i].id == id ==>
              && r[i].messages == cs[i].messages + [m]
              && r[i].lastMessage == Some(m)
              && r[i].unreadCount == cs[i].unreadCount
              && r[i] == cs[i].(messages := r[i].messages, lastMessage := Some(m))
    ensures (forall i :: 0 <= i < |cs| ==> cs[i].id != id) ==> r == cs
  {
    JsArray.Map(cs, AppendMessageIn(id, m))
  }

  // ----- addAIQuestion and addAIResponse

  /** `aiConversations.find(conv => conv.conversationId === id)` is truthy. */
  predicate HasAIConversation(ais: seq<AIConversation>, id: string)
  {
    exists i :: 0 <= i < |ais| && ais[i].conversationId == id
  }

  function AppendAIIn(id: string, m: AIMessage): AIConversation -> AIConversation
  {
    (a: AIConversation) => if a.conversationId == id then a.(messages := a.messages + [m]) else a
  }

  /**
   * The AI conversations after `addAIQuestion(id, …)` has built `q`: when one
   * for `id` exists, `q` goes at the end of its messages and nothing else
   * changes; otherwise one new AI conversation `newId` holding just `q` is
   * appended at the end of the list.
   */
  function AddQuestion(ais: seq<AIConversation>, id: string, q: AIMessage, newId: string): (r: seq<AIConversation>)
    ensures HasAIConversation(ais, id) ==> |r| == |ais|
    ensures HasAIConversation(ais, id) ==> forall i :: 0 <= i < |ais| ==>
              r[i] == if ais[i].conversationId == id then ais[i].(messages := ais[i].messages + [q]) else ais[i]
    ensures !HasAIConversation(ais, id) ==> r == ais + [AIConversation(newId, id, [q])]
    ensures HasAIConversation(r, id)
  {
    if HasAIConversation(ais, id) then JsArray.Map(ais, AppendAIIn(id, q))
    else
      var r := ais + [AIConversation(newId, id, [q])];
      assert r[|ais|].conversationId == id;
      r
  }

  /**
   * The AI conversations after `addAIResponse(id, …)` has built `resp`: when
   * one for `id` exists, `resp` goes at the end of its messages; otherwise the
   * list is left exactly as it was (no AI conversation is created).
   */
  function AddResponse(ais: seq<AIConversation>, id: string, resp: AIMessage): (r: seq<AIConversation>)
    ensures |r| == |ais|
    ensures forall i :: 0 <= i < |ais| ==>
              r[i] == if ais[i].conversationId == id then ais[i].(messages := ais[i].messages + [resp]) else ais[i]
    ensures !HasAIConversation(ais, id) ==> r == ais
  {
    if HasAIConversation(ais, id) then JsArray.Map(ais, AppendAIIn(id, resp)) else ais
  }

  /**
   * Recording a response moves no AI conversation: the lookup for any
   * conversation id finds its entry at the same position as before.
   */
  lemma {:induction false} AddResponseKeepsLookup(ais: seq<AIConversation>, id: string, resp: AIMessage, other: string)
    ensures JsArray.FindIndex(AddResponse(ais, id, resp), ForConversation(other))
         == JsArray.FindIndex(ais, ForConversation(other))
  {
    if HasAIConversation(ais, id) {
      JsArray.FindIndexMap(ais, AppendAIIn(id, resp), ForConversation(other), ForConversation(other));
    }
  }

  /** No two AI conversations belong to the same conversation. */
  predicate OneAIConversationPer(ais: seq<AIConversation>)
  {
    forall i, j :: 0 <= i < j < |ais| ==> ais[i].conversationId != ais[j].conversationId
  }

  /** `addAIQuestion` never creates a second AI conversation for one conversation. */
  lemma AddQuestionKeepsOnePer(ais: seq<AIConversation>, id: string, q: AIMessage, newId: string)
    requires OneAIConversationPer(ais)
    ensures OneAIConversationPer(AddQuestion(ais, id, q, newId))
  {
    var r := AddQuestion(ais, id, q, newId);
    forall i, j | 0 <= i < j < |r| ensures r[i].conversationId != r[j].conversationId {
      if !HasAIConversation(ais, id) && j == |ais| {
        assert r[i] == ais[i];
      }
    }
  }

  /** `addAIResponse` keeps one AI conversation per conversation. */
  lemma AddResponseKeepsOnePer(ais: seq<AIConversation>, id: string, resp: AIMessage)
    requires OneAIConversationPer(ais)
    ensures OneAIConversationPer(AddResponse(ais, id, resp))
  {
  }

  /**
   * Two questions about a conversation that has no AI conversation yet give
   * one new AI conversation holding both, in order.
   */
  lemma TwoQuestionsOneConversation(ais: seq<AIConversation>, id: string, q1: AIMessage, q2: AIMessage, n1: string, n2: string)
    requires !HasAIConversation(ais, id)
    ensures AddQuestion(AddQuestion(ais, id, q1, n1), id, q2, n2) == ais + [AIConversation(n1, id, [q1, q2])]
  {
    var once := AddQuestion(ais, id, q1, n1);
    var twice := AddQuestion(once, id, q2, n2);
    assert once[|ais|].conversationId == id;
    assert HasAIConversation(once, id);
    forall i | 0 <= i < |ais| ensures twice[i] == ais[i] {
      assert once[i] == ais[i] && ais[i].conversationId != id;
    }
    assert twice[|ais|] == AIConversation(n1, id, [q1] + [q2]);
    assert [q1] + [q2] == [q1, q2];
  }

  /** The first entry for `id`, as both getters and the AI panel look it up. */
  function AIConversationFor(ais: seq<AIConversation>, id: string): Option<AIConversation>
  {
    JsArray.Find(ais, ForConversation(id))
  }

  /** The store's state; every action overwrites some of its fields. */
  class AppStore {
    const currentUser: User
    var conversations: seq<Conversation>
    var aiConversations: seq<AIConversation>
    var selectedConversationId: Option<string>
    var selectedTextAction: Option<SelectedTextAction>
    var composerContent: string

    /** The initial state: the seed lists, nothing selected, nothing pending, an empty composer. */
    constructor (currentUser: User, conversations: seq<Conversation>, aiConversations: seq<AIConversation>)
      ensures this.currentUser == currentUser
      ensures this.conversations == conversations && this.aiConversations == aiConversations
      ensures selectedConversationId == None && selectedTextAction == None && composerContent == ""
    {
      this.currentUser := currentUser;
      this.conversations := conversations;
      this.aiConversations := aiConversations;
      selectedConversationId := None;
      selectedTextAction := None;
      composerContent := "";
    }

    /**
     * `setSelectedConversation(id)`: records the id, then, when the id is
     * truthy, marks that conversation read. `null` (and "") only change the id.
     */
    method SetSelectedConversation(id: Option<string>)
      modifies this
      ensures selectedConversationId == id
      ensures conversations == if Truthy(id) then MarkRead(old(conversations), id.value) else old(conversations)
      ensures aiConversations == old(aiConversations)
      ensures selectedTextAction == old(selectedTextAction) && composerContent == old(composerContent)
    {
      selectedConversationId := id;
      if Truthy(id) {
        MarkConversationAsRead(id.value);
      }
    }

    /** `selectTextForAI(text, messageId)`: the pending slot holds this action, whatever it held. */
    method SelectTextForAI(text: string, messageId: string)
      modifies this
      ensures selectedTextAction == Some(SelectedTextAction(text, messageId))
      ensures conversations == old(conversations) && aiConversations == old(aiConversations)
      ensures selectedConversationId == old(selectedConversationId) && composerContent == old(composerContent)
    {
      selectedTextAction := Some(SelectedTextAction(text, messageId));
    }

    /** `clearSelectedText()`: empties the pending slot. */
    method ClearSelectedText()
      modifies this
      ensures selectedTextAction == None
      ensures conversations == old(conversations) && aiConversations == old(aiConversations)
      ensures selectedConversationId == old(selectedConversationId) && composerContent == old(composerContent)
    {
      selectedTextAction := None;
    }

    /**
     * `addMessageToConversation(id, data)`, with the fresh id and the current
     * time passed in: appends the message and always empties the composer,
     * also when no conversation has that id.
     */
    method AddMessageToConversation(conversationId: string, data: MessageData, messageId: string, timestamp: string)
      modifies this
      ensures conversations == AppendMessage(old(conversations), conversationId, NewMessage(data, messageId, timestamp))
      ensures composerContent == ""
      ensures aiConversations == old(aiConversations)
      ensures selectedConversationId == old(selectedConversationId) && selectedTextAction == old(selectedTextAction)
    {
      var m := NewMessage(data, messageId, timestamp);
      conversations := AppendMessage(conversations, conversationId, m);
      composerContent := "";
    }

    /** `markConversationAsRead(id)`. */
    method MarkConversationAsRead(conversationId: string)
      modifies this
      ensures conversations == MarkRead(old(conversations), conversationId)
      ensures aiConversations == old(aiConversations)
      ensures selectedConversationId == old(selectedConversationId)
      ensures selectedTextAction == old(selectedTextAction) && composerContent == old(composerContent)
    {
      conversations := MarkRead(conversations, conversationId);
    }

    /**
     * `addAIQuestion(id, text, messageId)`, with the fresh ids (the question's
     * and, if one is created, the AI conversation's) and the time passed in.
     */
    method AddAIQuestion(conversationId: string, text: string, messageId: Option<string>,
                         questionId: string, aiConversationId: string, timestamp: string)
      modifies this
      ensures aiConversations == AddQuestion(old(aiConversations), conversationId,
                                             NewQuestion(conversationId, text, messageId, questionId, timestamp), aiConversationId)
      ensures OneAIConversationPer(old(aiConversations)) ==> OneAIConversationPer(aiConversations)
      ensures conversations == old(conversations) && selectedConversationId == old(selectedConversationId)
      ensures selectedTextAction == old(selectedTextAction) && composerContent == old(composerContent)
    {
      var q := NewQuestion(conversationId, text, messageId, questionId, timestamp);
      if OneAIConversationPer(aiConversations) {
        AddQuestionKeepsOnePer(aiConversations, conversationId, q, aiConversationId);
      }
      aiConversations := AddQuestion(aiConversations, conversationId, q, aiConversationId);
    }

    /** `addAIResponse(id, content)`: does nothing when there is no AI conversation for `id`. */
    method AddAIResponse(conversationId: string, content: string, responseId: string, timestamp: string)
      modifies this
      ensures aiConversations == AddResponse(old(aiConversations), conversationId,
                                             NewResponse(conversationId, content, responseId, timestamp))
      ensures OneAIConversationPer(old(aiConversations)) ==> OneAIConversationPer(aiConversations)
      ensures conversations == old(conversations) && selectedConversationId == old(selectedConversationId)
      ensures selectedTextAction == old(selectedTextAction) && composerContent == old(composerContent)
    {
      var resp := NewResponse(conversationId, content, responseId, timestamp);
      aiConversations := AddResponse(aiConversations, conversationId, resp);
    }

    /** `setComposerContent(content)`. */
    method SetComposerContent(content: string)
      modifies this
      ensures composerContent == content
      ensures conversations == old(conversations) && aiConversations == old(aiConversations)
      ensures selectedConversationId == old(selectedConversationId) && selectedTextAction == old(selectedTextAction)
    {
      composerContent := content;
    }

    /**
     * `getSelectedConversation()`: nothing when no id is selected; otherwise
     * the first conversation with the selected id, or nothing if none has it.
     */
    function GetSelectedConversation(): (r: Option<Conversation>)
      reads this
      ensures !Truthy(selectedConversationId) ==> r == None
      ensures Truthy(selectedConversationId) ==>
                (r.None? <==> forall j :: 0 <= j < |conversations| ==> conversations[j].id != selectedConversationId.value)
      ensures r.Some? ==> exists k :: 0 <= k < |conversations| && conversations[k] == r.value &&
                                     r.value.id == selectedConversationId.value &&
                                     forall j :: 0 <= j < k ==> conversations[j].id != selectedConversationId.value
    {
      if Truthy(selectedConversationId) then JsArray.Find(conversations, HasId(selectedConversationId.value)) else None
    }

    /**
     * `getAIConversationForSelected()`: nothing when no id is selected;
     * otherwise the first AI conversation for the selected id, if any.
     */
    function GetAIConversationForSelected(): (r: Option<AIConversation>)
      reads this
      ensures !Truthy(selectedConversationId) ==> r == None
      ensures Truthy(selectedConversationId) ==>
                (r.None? <==> !HasAIConversation(aiConversations, selectedConversationId.value))
      ensures r.Some? ==> exists k :: 0 <= k < |aiConversations| && aiConversations[k] == r.value &&
                                     r.value.conversationId == selectedConversationId.value &&
                                     forall j :: 0 <= j < k ==> aiConversations[j].conversationId != selectedConversationId.value
    {
      if Truthy(selectedConversationId) then AIConversationFor(aiConversations, selectedConversationId.value) else None
    }
  }
}
