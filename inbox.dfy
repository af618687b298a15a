/**
 * The inbox list (`InboxSection`): the search filter over the store's
 * conversations and the selection of one of them.
 */
module Inbox {
  import opened Wrappers
  import opened Types
  import opened Store
  import JsArray
  import JsString

  /** `haystack.toLowerCase().includes(needle)` for an already lower-cased needle. */
  predicate Contains(haystack: string, needle: string)
  {
    JsString.Includes(JsString.ToLowerCase(haystack), needle)
  }

  /**
   * The filter predicate for a search term: the lower-cased term occurs in
   * some participant's name, some message's content or the subject, each
   * lower-cased. An absent subject gives `undefined`, which is false.
   */
  predicate MatchesSearch(c: Conversation, term: string)
  {
    var t := JsString.ToLowerCase(term);
    || (exists i :: 0 <= i < |c.participants| && Contains(c.participants[i].name, t))
    || (exists i :: 0 <= i < |c.messages| && Contains(c.messages[i].content, t))
    || (c.subject.Some? && Contains(c.subject.value, t))
  }

  function Matching(term: string): Conversation -> bool
  {
    (c: Conversation) => MatchesSearch(c, term)
  }

  /**
   * `filteredConversations`: every kept conversation is one of `cs` and
   * matches, and every matching one of `cs` is kept.
   */
  function FilterConversations(cs: seq<Conversation>, term: string): (r: seq<Conversation>)
    ensures |r| <= |cs|
    ensures forall k :: 0 <= k < |r| ==> r[k] in cs && MatchesSearch(r[k], term)
    ensures forall i :: 0 <= i < |cs| && MatchesSearch(cs[i], term) ==> cs[i] in r
  {
    JsArray.Filter(cs, Matching(term))
  }

  /**
   * The result lists the matching conversations in their inbox order: it is
   * `cs` at the strictly increasing positions that match, and at no others.
   */
  lemma FilterKeepsInboxOrder(cs: seq<Conversation>, term: string)
    ensures var r, ix := FilterConversations(cs, term), JsArray.KeptIndices(cs, Matching(term));
      && |ix| == |r|
      && (forall k :: 0 <= k < |r| ==> ix[k] < |cs| && r[k] == cs[ix[k]])
      && (forall k, l :: 0 <= k < l < |ix| ==> ix[k] < ix[l])
      && (forall i :: 0 <= i < |cs| ==> (MatchesSearch(cs[i], term) <==> i in ix))
  {
    JsArray.FilterKeepsOrder(cs, Matching(term));
  }

  /** Two terms with the same lower-case form give the same result. */
  lemma SearchIgnoresCase(cs: seq<Conversation>, t1: string, t2: string)
    requires JsString.ToLowerCase(t1) == JsString.ToLowerCase(t2)
    ensures FilterConversations(cs, t1) == FilterConversations(cs, t2)
  {
    JsArray.FilterAgrees(cs, Matching(t1), Matching(t2));
  }

  /** A term and its lower-case form show the same conversations. */
  lemma SearchLowerCasedTerm(cs: seq<Conversation>, term: string)
    ensures FilterConversations(cs, JsString.ToLowerCase(term)) == FilterConversations(cs, term)
  {
    JsString.ToLowerCaseIdempotent(term);
    SearchIgnoresCase(cs, JsString.ToLowerCase(term), term);
  }

  /** Searching "ABC" and "abc" shows the same conversations. */
  lemma UpperAndLowerTermsAgree(cs: seq<Conversation>)
    ensures FilterConversations(cs, "ABC") == FilterConversations(cs, "abc")
  {
    assert JsString.ToLowerCase("ABC") == "abc";
    assert JsString.ToLowerCase("abc") == "abc";
    SearchIgnoresCase(cs, "ABC", "abc");
  }

  /** The empty string occurs in every string. */
  lemma IncludesEmpty(s: string)
    ensures JsString.Includes(s, "")
  {
    assert "" <= s[0..];
  }

  /**
   * The empty term matches exactly the conversations with a participant, a
   * message or a subject (even an empty one).
   */
  lemma EmptyTermMatches(c: Conversation)
    ensures MatchesSearch(c, "") <==> |c.participants| > 0 || |c.messages| > 0 || c.subject.Some?
  {
    assert JsString.ToLowerCase("") == "";
    if |c.participants| > 0 {
      IncludesEmpty(JsString.ToLowerCase(c.participants[0].name));
    } else if |c.messages| > 0 {
      IncludesEmpty(JsString.ToLowerCase(c.messages[0].content));
    } else if c.subject.Some? {
      IncludesEmpty(JsString.ToLowerCase(c.subject.value));
    }
  }

  /** Without a subject only participant names and message contents can match. */
  lemma AbsentSubjectNeverMatches(c: Conversation, term: string)
    requires c.subject.None?
    ensures MatchesSearch(c, term) <==>
              var t := JsString.ToLowerCase(term);
              || (exists i :: 0 <= i < |c.participants| && Contains(c.participants[i].name, t))
              || (exists i :: 0 <= i < |c.messages| && Contains(c.messages[i].content, t))
  {
  }

  /** The hint under "No conversations found". */
  function NoResultsHint(term: string): (hint: string)
    ensures term != "" ==> hint == "Try a different search term"
    ensures term == "" ==> hint == "Your inbox is empty"
  {
    if term != "" then "Try a different search term" else "Your inbox is empty"
  }

  /** `handleSelectConversation(id)`: selects `id`, which also marks it read. */
  method HandleSelectConversation(store: AppStore, id: string)
    modifies store
    ensures store.selectedConversationId == Some(id)
    ensures store.conversations == if id != "" then MarkRead(old(store.conversations), id) else old(store.conversations)
    ensures store.aiConversations == old(store.aiConversations)
    ensures store.selectedTextAction == old(store.selectedTextAction)
    ensures store.composerContent == old(store.composerContent)
  {
    store.SetSelectedConversation(Some(id));
  }
}
