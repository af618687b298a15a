/**
 * The Fin AI copilot panel (`FinAIChatbot`): it consumes the store's pending
 * selected-text action, asks the completion service, and records questions
 * and responses in the selected conversation's AI conversation.
 *
 * The HTTP completion call is the parameter `service`: a prompt goes in and
 * either the reply text (`choices[0].message.content`) or a failure comes out.
 * The request is not awaited by its callers, so the reply is recorded after
 * the pending slot is cleared or the input emptied. The model treats it as a
 * synchronous step; the final state agrees because the slot, the input and
 * the AI list are separate fields. Interleaved replies are not modelled.
 */
module FinAI {
  import opened Wrappers
  import opened Types
  import opened Store
  import JsArray

  /** Why no reply text could be read: the request failed, or the body had no `choices[0]`. */
  datatype CompletionError = RequestFailed | NoChoice

  /** The chat completion endpoint, as seen by the panel. */
  type CompletionService = string -> Result<string, CompletionError>

  const Apology: string := "I apologize, but I encountered an error processing your request. Please try again."

  /**
   * The text `getAIResponse` records: the reply on success and the fixed
   * apology on any failure, which is not passed on.
   */
  function ResponseText(outcome: Result<string, CompletionError>): (text: string)
    ensures outcome.Ok? ==> text == outcome.value
    ensures outcome.Err? ==> text == Apology
  {
    match outcome
    case Ok(reply) => reply
    case Err(_) => Apology
  }

  /** The two suggestion buttons of the empty panel. */
  datatype Suggestion = HowToRespond | Summarize

  /** The fixed prompt each suggestion button sends. */
  function SuggestionPrompt(s: Suggestion): string
  {
    match s
    case HowToRespond => "How should I respond to this customer's message?"
    case Summarize => "Can you summarize this conversation?"
  }

  /**
   * The suggestion buttons are shown while a conversation is selected and its
   * AI conversation is missing or empty.
   */
  predicate SuggestionsShown(selectedId: Option<string>, aiConversation: Option<AIConversation>)
  {
    Truthy(selectedId) && (aiConversation.None? || |aiConversation.value.messages| == 0)
  }

  /**
   * Asking a question and then recording the response leaves the AI
   * conversation for `id` with its earlier messages followed by exactly the
   * question and the response, or, when there was none, a new AI conversation
   * holding just those two.
   */
  lemma {:induction false} QuestionThenResponse(ais: seq<AIConversation>, id: string, q: AIMessage, resp: AIMessage, newId: string)
    ensures AIConversationFor(AddResponse(AddQuestion(ais, id, q, newId), id, resp), id)
         == Some(match AIConversationFor(ais, id)
                 case Some(a) => a.(messages := a.messages + [q, resp])
                 case None => AIConversation(newId, id, [q, resp]))
  {
    var once := AddQuestion(ais, id, q, newId);
    var twice := AddResponse(once, id, resp);
    var p := ForConversation(id);
    match JsArray.FindIndex(ais, p)
    case Some(k) =>
      assert HasAIConversation(ais, id) by { assert ais[k].conversationId == id; }
      assert once[k] == ais[k].(messages := ais[k].messages + [q]);
      assert twice[k] == ais[k].(messages := ais[k].messages + [q] + [resp]);
      forall j | 0 <= j < k ensures !p(twice[j]) {
        assert !p(ais[j]);
      }
      JsArray.FindIndexIs(twice, p, k);
      assert ais[k].messages + [q] + [resp] == ais[k].messages + [q, resp];
    case None =>
      assert !HasAIConversation(ais, id) by {
        forall j | 0 <= j < |ais| ensures ais[j].conversationId != id {
          assert !p(ais[j]);
        }
      }
      assert once == ais + [AIConversation(newId, id, [q])];
      assert once[|ais|].conversationId == id;
      assert twice[|ais|] == AIConversation(newId, id, [q] + [resp]);
      forall j | 0 <= j < |ais| ensures !p(twice[j]) {
        assert once[j] == ais[j];
        assert !p(ais[j]);
      }
      JsArray.FindIndexIs(twice, p, |ais|);
      assert [q] + [resp] == [q, resp];
  }

  /** A recorded question always hides the suggestion buttons. */
  lemma SuggestionsHiddenAfterQuestion(ais: seq<AIConversation>, id: string, q: AIMessage, newId: string)
    requires id != ""
    ensures !SuggestionsShown(Some(id), AIConversationFor(AddQuestion(ais, id, q, newId), id))
  {
    var r := AddQuestion(ais, id, q, newId);
    var found := AIConversationFor(r, id);
    assert found.Some?;
    var k :| 0 <= k < |r| && r[k] == found.value && ForConversation(id)(r[k]) &&
             forall j :: 0 <= j < k ==> !ForConversation(id)(r[j]);
    if HasAIConversation(ais, id) {
      assert r[k] == ais[k].(messages := ais[k].messages + [q]);
    } else {
      assert r == ais + [AIConversation(newId, id, [q])];
    }
  }

  /**
   * `getAIResponse(prompt)`, with the response's id and time passed in:
   * without a selected conversation nothing happens; otherwise the service's
   * reply, or the apology, is recorded as one response there (which the store
   * drops when that conversation has no AI conversation yet).
   */
  method GetAIResponse(store: AppStore, service: CompletionService, prompt: string, responseId: string, timestamp: string)
    modifies store
    ensures var sel := old(store.selectedConversationId);
      store.aiConversations == if Truthy(sel) then
                                 AddResponse(old(store.aiConversations), sel.value,
                                             NewResponse(sel.value, ResponseText(service(prompt)), responseId, timestamp))
                               else old(store.aiConversations)
    ensures store.conversations == old(store.conversations)
    ensures store.selectedConversationId == old(store.selectedConversationId)
    ensures store.selectedTextAction == old(store.selectedTextAction)
    ensures store.composerContent == old(store.composerContent)
  {
    var sel := store.selectedConversationId;
    if Truthy(sel) {
      var text := ResponseText(service(prompt));
      store.AddAIResponse(sel.value, text, responseId, timestamp);
    }
  }

  /**
   * The pending-action effect: with a pending action and a selected
   * conversation, records the action's text as a question about its message,
   * asks for a response to that same text, and empties the slot. Otherwise
   * nothing happens.
   */
  method ConsumePendingAction(store: AppStore, service: CompletionService,
                              questionId: string, aiConversationId: string, questionTime: string,
                              responseId: string, responseTime: string)
    modifies store
    ensures var sel := old(store.selectedConversationId);
      var pending := old(store.selectedTextAction);
      && (pending.Some? && Truthy(sel) ==>
            && store.aiConversations
                 == AddResponse(AddQuestion(old(store.aiConversations), sel.value,
                                            NewQuestion(sel.value, pending.value.text, Some(pending.value.messageId), questionId, questionTime),
                                            aiConversationId),
                                sel.value,
                                NewResponse(sel.value, ResponseText(service(pending.value.text)), responseId, responseTime))
            && store.selectedTextAction == None)
      && (!(pending.Some? && Truthy(sel)) ==>
            store.aiConversations == old(store.aiConversations) && store.selectedTextAction == pending)
    ensures var sel := old(store.selectedConversationId);
      var pending := old(store.selectedTextAction);
      pending.Some? && Truthy(sel) ==>
        AIConversationFor(store.aiConversations, sel.value)
          == Some(match AIConversationFor(old(store.aiConversations), sel.value)
                  case Some(a) => a.(messages := a.messages +
                                       [NewQuestion(sel.value, pending.value.text, Some(pending.value.messageId), questionId, questionTime),
                                        NewResponse(sel.value, ResponseText(service(pending.value.text)), responseId, responseTime)])
                  case None => AIConversation(aiConversationId, sel.value,
                                       [NewQuestion(sel.value, pending.value.text, Some(pending.value.messageId), questionId, questionTime),
                                        NewResponse(sel.value, ResponseText(service(pending.value.text)), responseId, responseTime)]))
    ensures store.conversations == old(store.conversations)
    ensures store.selectedConversationId == old(store.selectedConversationId)
    ensures store.composerContent == old(store.composerContent)
  {
    var sel := store.selectedConversationId;
    var pending := store.selectedTextAction;
    if pending.Some? && Truthy(sel) {
      var before := store.aiConversations;
      var q := NewQuestion(sel.value, pending.value.text, Some(pending.value.messageId), questionId, questionTime);
      store.AddAIQuestion(sel.value, pending.value.text, Some(pending.value.messageId), questionId, aiConversationId, questionTime);
      GetAIResponse(store, service, pending.value.text, responseId, responseTime);
      store.ClearSelectedText();
      QuestionThenResponse(before, sel.value, q,
                           NewResponse(sel.value, ResponseText(service(pending.value.text)), responseId, responseTime),
                           aiConversationId);
    }
  }

  /**
   * A suggestion button: with a selected conversation, records the button's
   * fixed prompt as a question (about no message) and asks for a response to
   * that same prompt.
   */
  method AskSuggestion(store: AppStore, service: CompletionService, s: Suggestion,
                       questionId: string, aiConversationId: string, questionTime: string,
                       responseId: string, responseTime: string)
    modifies store
    ensures var sel := old(store.selectedConversationId);
      var prompt := SuggestionPrompt(s);
      store.aiConversations
        == if Truthy(sel) then
             AddResponse(AddQuestion(old(store.aiConversations), sel.value,
                                     NewQuestion(sel.value, prompt, None, questionId, questionTime), aiConversationId),
                         sel.value,
                         NewResponse(sel.value, ResponseText(service(prompt)), responseId, responseTime))
           else old(store.aiConversations)
    ensures store.conversations == old(store.conversations)
    ensures store.selectedConversationId == old(store.selectedConversationId)
    ensures store.selectedTextAction == old(store.selectedTextAction)
    ensures store.composerContent == old(store.composerContent)
  {
    var sel := store.selectedConversationId;
    if Truthy(sel) {
      var prompt := SuggestionPrompt(s);
      store.AddAIQuestion(sel.value, prompt, None, questionId, aiConversationId, questionTime);
      GetAIResponse(store, service, prompt, responseId, responseTime);
    }
  }

  /**
   * Enter in the question input: a non-empty input is sent for a response
   * without recording it as a question, and the input is emptied; so with no
   * AI conversation yet nothing is recorded at all. An empty input does nothing.
   */
  method SubmitInput(store: AppStore, service: CompletionService, input: string, responseId: string, timestamp: string)
    returns (remaining: string)
    modifies store
    ensures remaining == ""
    ensures var sel := old(store.selectedConversationId);
      store.aiConversations == if input != "" && Truthy(sel) then
                                 AddResponse(old(store.aiConversations), sel.value,
                                             NewResponse(sel.value, ResponseText(service(input)), responseId, timestamp))
                               else old(store.aiConversations)
    ensures var sel := old(store.selectedConversationId);
      !Truthy(sel) || !HasAIConversation(old(store.aiConversations), sel.value) ==>
        store.aiConversations == old(store.aiConversations)
    ensures store.conversations == old(store.conversations)
    ensures store.selectedConversationId == old(store.selectedConversationId)
    ensures store.selectedTextAction == old(store.selectedTextAction)
    ensures store.composerContent == old(store.composerContent)
  {
    remaining := input;
    if input != "" {
      GetAIResponse(store, service, input, responseId, timestamp);
      remaining := "";
    }
  }

  /**
   * Enter in the question input as the panel evidently means it, the way
   * the suggestion buttons work: a non-empty input is first recorded as a
   * question, so the AI conversation then ends with that question and its
   * response, and one is created when there was none.
   */
  method SubmitQuestion(store: AppStore, service: CompletionService, input: string,
                        questionId: string, aiConversationId: string, questionTime: string,
                        responseId: string, responseTime: string)
    returns (remaining: string)
    modifies store
    ensures remaining == ""
    ensures var sel := old(store.selectedConversationId);
      input != "" && Truthy(sel) ==>
        AIConversationFor(store.aiConversations, sel.value)
          == Some(match AIConversationFor(old(store.aiConversations), sel.value)
                  case Some(a) => a.(messages := a.messages +
                                       [NewQuestion(sel.value, input, None, questionId, questionTime),
                                        NewResponse(sel.value, ResponseText(service(input)), responseId, responseTime)])
                  case None => AIConversation(aiConversationId, sel.value,
                                       [NewQuestion(sel.value, input, None, questionId, questionTime),
                                        NewResponse(sel.value, ResponseText(service(input)), responseId, responseTime)]))
    ensures var sel := old(store.selectedConversationId);
      !(input != "" && Truthy(sel)) ==> store.aiConversations == old(store.aiConversations)
    ensures store.conversations == old(store.conversations)
    ensures store.selectedConversationId == old(store.selectedConversationId)
    ensures store.selectedTextAction == old(store.selectedTextAction)
    ensures store.composerContent == old(store.composerContent)
  {
    remaining := "";
    var sel := store.selectedConversationId;
    if input != "" && Truthy(sel) {
      var before := store.aiConversations;
      store.AddAIQuestion(sel.value, input, None, questionId, aiConversationId, questionTime);
      GetAIResponse(store, service, input, responseId, responseTime);
      QuestionThenResponse(before, sel.value, NewQuestion(sel.value, input, None, questionId, questionTime),
                           NewResponse(sel.value, ResponseText(service(input)), responseId, responseTime),
                           aiConversationId);
    }
  }

  /**
   * The Enter path as written loses the reply whenever the selected
   * conversation has no AI conversation yet: nothing at all is recorded.
   */
  lemma EnterWithoutAIConversationRecordsNothing(ais: seq<AIConversation>, id: string, input: string,
                                                 service: CompletionService, responseId: string, timestamp: string)
    requires !HasAIConversation(ais, id)
    ensures AddResponse(ais, id, NewResponse(id, ResponseText(service(input)), responseId, timestamp)) == ais
    ensures AIConversationFor(ais, id).None?
  {
  }

  /** "Add to composer" on an AI message: the composer now holds exactly that content. */
  method AddToComposer(store: AppStore, content: string)
    modifies store
    ensures store.composerContent == content
    ensures store.conversations == old(store.conversations)
    ensures store.aiConversations == old(store.aiConversations)
    ensures store.selectedConversationId == old(store.selectedConversationId)
    ensures store.selectedTextAction == old(store.selectedTextAction)
  {
    store.SetComposerContent(content);
  }
}
