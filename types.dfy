/** The entities of the inbox: users, messages, conversations and the AI side-conversations. */
module Types {
  import opened Wrappers

  datatype User = User(id: string, name: string, email: string, avatar: Option<string>)

  datatype AttachmentType = Image | File | Link

  /** `size` is a JavaScript number; the model keeps whole numbers only. */
  datatype Attachment = Attachment(id: string, kind: AttachmentType, url: string, name: string, size: Option<int>)

  /** `timestamp` is the ISO-8601 text the store stamps on creation. */
  datatype Message = Message(
    id: string,
    senderId: string,
    recipientId: string,
    content: string,
    timestamp: string,
    read: bool,
    attachments: Option<seq<Attachment>>)

  /** A message as callers hand it to the store: a Message without id and timestamp. */
  datatype MessageData = MessageData(
    senderId: string,
    recipientId: string,
    content: string,
    read: bool,
    attachments: Option<seq<Attachment>>)

  datatype Priority = Low | Medium | High

  datatype Status = Open | Closed | Pending

  /** `unreadCount` is a stored counter, not derived from the messages' read flags. */
  datatype Conversation = Conversation(
    id: string,
    participants: seq<User>,
    subject: Option<string>,
    lastMessage: Option<Message>,
    messages: seq<Message>,
    unreadCount: int,
    tags: Option<seq<string>>,
    priority: Option<Priority>,
    status: Option<Status>)

  datatype AIMessageType = Question | Response

  datatype AIMessage = AIMessage(
    id: string,
    conversationId: string,
    originalMessageId: Option<string>,
    content: string,
    timestamp: string,
    kind: AIMessageType)

  datatype AIConversation = AIConversation(id: string, conversationId: string, messages: seq<AIMessage>)

  /** The pending request that hands selected text to the AI panel. */
  datatype SelectedTextAction = SelectedTextAction(text: string, messageId: string)

  /** JavaScript truthiness of a `string | null` value: present and not "". */
  predicate Truthy(s: Option<string>)
  {
    s.Some? && s.value != ""
  }
}
