/**
 * What a conversation row (`ConversationItem`) and the chat header
 * (`ChatHeader`) derive from a conversation: the participant shown, the
 * preview, the badges and the unread highlighting.
 */
module Display {
  import opened Wrappers
  import opened Types
  import opened Store
  import JsArray

  /** The id both components treat as the signed-in agent. */
  const CurrentUserId: string := "current-user"

  /** The `variant` values of `Badge`. */
  datatype BadgeVariant = DefaultVariant | PrimaryVariant | SuccessVariant | WarningVariant | ErrorVariant

  function NotCurrentUser(): User -> bool
  {
    (p: User) => p.id != CurrentUserId
  }

  /**
   * `participants.find(p => p.id !== 'current-user') || participants[0]`:
   * the first participant who is not the agent, else the first one. With no
   * participants there is none (the component then fails on `.avatar`).
   */
  function OtherParticipant(ps: seq<User>): (r: Option<User>)
    ensures r.None? <==> ps == []
    ensures (exists i :: 0 <= i < |ps| && ps[i].id != CurrentUserId) ==>
              exists k :: 0 <= k < |ps| && r == Some(ps[k]) && ps[k].id != CurrentUserId &&
                          forall j :: 0 <= j < k ==> ps[j].id == CurrentUserId
    ensures ps != [] && (forall i :: 0 <= i < |ps| ==> ps[i].id == CurrentUserId) ==> r == Some(ps[0])
  {
    match JsArray.Find(ps, NotCurrentUser())
    case Some(u) => Some(u)
    case None => if ps == [] then None else Some(ps[0])
  }

  /**
   * `messages[messages.length - 1]`: the preview is the newest message, and
   * there is none exactly when there are no messages.
   */
  function LastMessage(c: Conversation): (r: Option<Message>)
    ensures r.None? <==> c.messages == []
    ensures r.Some? ==> r.value in c.messages
    ensures r.Some? ==> r.value == c.messages[|c.messages| - 1]
  {
    if c.messages == [] then None else Some(c.messages[|c.messages| - 1])
  }

  /**
   * The row's time text, given the relative-time formatter: empty without a
   * last message, else the formatted time of the last message.
   */
  function TimeLabel(c: Conversation, relative: string -> string): (time: string)
    ensures c.messages == [] ==> time == ""
    ensures c.messages != [] ==> time == relative(c.messages[|c.messages| - 1].timestamp)
  {
    match LastMessage(c)
    case None => ""
    case Some(m) => relative(m.timestamp)
  }

  /** The row's priority colour: high is an error, medium a warning, the rest default. */
  function PriorityVariant(p: Option<Priority>): BadgeVariant
  {
    match p
    case Some(High) => ErrorVariant
    case Some(Medium) => WarningVariant
    case _ => DefaultVariant
  }

  /** The priority badge of a row, shown only when a priority is set. */
  function PriorityBadge(c: Conversation): (b: Option<BadgeVariant>)
    ensures b.Some? <==> c.priority.Some?
    ensures b.Some? ==> b.value in {DefaultVariant, WarningVariant, ErrorVariant}
    ensures b == Some(ErrorVariant) <==> c.priority == Some(High)
    ensures b == Some(WarningVariant) <==> c.priority == Some(Medium)
    ensures b == Some(DefaultVariant) <==> c.priority == Some(Low)
  {
    if c.priority.Some? then Some(PriorityVariant(c.priority)) else None
  }

  /** The header's status colour: open is a success, pending a warning, the rest default. */
  function StatusVariant(s: Option<Status>): BadgeVariant
  {
    match s
    case Some(Open) => SuccessVariant
    case Some(Pending) => WarningVariant
    case _ => DefaultVariant
  }

  /** The header's status badge, shown only when a status is present. */
  function StatusBadge(c: Conversation): (b: Option<BadgeVariant>)
    ensures b.Some? <==> c.status.Some?
    ensures b == Some(SuccessVariant) <==> c.status == Some(Open)
    ensures b == Some(WarningVariant) <==> c.status == Some(Pending)
    ensures b == Some(DefaultVariant) <==> c.status == Some(Closed)
  {
    if c.status.Some? then Some(StatusVariant(c.status)) else None
  }

  /** `conversation.subject && …`: an empty subject is not shown either. */
  predicate SubjectShown(c: Conversation)
  {
    Truthy(c.subject)
  }

  /**
   * The subject segment appears only for a present, non-empty subject; an
   * empty subject, which the search still matches on, is not shown.
   */
  lemma SubjectShownOnlyWhenPresent(c: Conversation)
    ensures SubjectShown(c) <==> c.subject.Some? && |c.subject.value| > 0
    ensures c.subject == Some("") ==> !SubjectShown(c)
  {
  }

  /** The row is highlighted while it has unread messages. */
  predicate Highlighted(c: Conversation)
  {
    c.unreadCount > 0
  }

  /** The unread badge of a row: the count, shown only while it is positive. */
  function UnreadBadge(c: Conversation): (b: Option<int>)
    ensures b.Some? <==> Highlighted(c)
    ensures b.Some? ==> b.value == c.unreadCount > 0
  {
    if c.unreadCount > 0 then Some(c.unreadCount) else None
  }

  /** A conversation marked read shows neither the highlighting nor the badge. */
  lemma ReadConversationNotHighlighted(cs: seq<Conversation>, id: string, i: nat)
    requires i < |cs| && cs[i].id == id
    ensures !Highlighted(MarkRead(cs, id)[i]) && UnreadBadge(MarkRead(cs, id)[i]).None?
  {
  }

  /**
   * Appending a message does not change the unread state a row shows, and
   * the row then previews the new message, which is the stored `lastMessage`.
   */
  lemma AppendShowsNewMessage(cs: seq<Conversation>, id: string, m: Message, i: nat)
    requires i < |cs| && cs[i].id == id
    ensures var c := AppendMessage(cs, id, m)[i];
      && Highlighted(c) == Highlighted(cs[i])
      && UnreadBadge(c) == UnreadBadge(cs[i])
      && LastMessage(c) == Some(m) == c.lastMessage
  {
    var c := AppendMessage(cs, id, m)[i];
    assert c.messages == cs[i].messages + [m];
  }
}
