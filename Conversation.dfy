/**
 * The conversation schema (backend/src/models/Conversation.js): message roles, messages,
 * conversations with their defaults, and the in-memory document that handlers change
 * before saving it.
 */
module Model {
  import opened Wrappers
  import opened Structurer

  type UserId = string
  type ConvId = string

  /** The `role` enum of a message. */
  datatype Role = User | Assistant | System

  /** A message sub-document: it has no id of its own. */
  datatype Message = Message(role: Role, content: string, createdAt: int, structured: Option<Structured>)

  /** A stored conversation; `createdAt` and `updatedAt` are the schema's timestamps. */
  datatype Conversation = Conversation(
    userId: UserId,
    title: string,
    messages: seq<Message>,
    createdAt: int,
    updatedAt: int)

  const DefaultTitle := "New chat"

  /** A message as the schema builds it: `createdAt` defaults to now, `structured` to null. */
  function NewMessage(role: Role, content: string, now: int, structured: Option<Structured> := None): (m: Message)
    ensures m.role == role && m.content == content
    ensures m.createdAt == now && m.structured == structured
  {
    Message(role, content, now, structured)
  }

  /** `content` is a required string: an empty one fails validation on save. */
  predicate ValidMessage(m: Message) {
    m.content != ""
  }

  /** `userId` is required and every message validates. */
  predicate ValidConversation(c: Conversation) {
    c.userId != "" && forall i :: 0 <= i < |c.messages| ==> ValidMessage(c.messages[i])
  }

  /**
   * A conversation document held in memory by a request handler: built with `new`
   * or loaded by id, changed in place, then written back by a save.
   */
  class Doc {
    const id: ConvId
    const userId: UserId
    var title: string
    var messages: seq<Message>
    var createdAt: int
    var updatedAt: int
    /** Not yet in the collection: the first save inserts it. */
    var isNew: bool

    /** `new Conversation({ userId, title, messages: [] })` */
    constructor Create(id: ConvId, userId: UserId, title: string)
      ensures this.id == id && this.userId == userId && this.title == title
      ensures messages == [] && isNew
    {
      this.id := id;
      this.userId := userId;
      this.title := title;
      messages := [];
      createdAt := 0;
      updatedAt := 0;
      isNew := true;
    }

    /** The document `findById` returns for a stored conversation. */
    constructor Load(id: ConvId, c: Conversation)
      ensures this.id == id && !isNew && Snapshot() == c
    {
      this.id := id;
      userId := c.userId;
      title := c.title;
      messages := c.messages;
      createdAt := c.createdAt;
      updatedAt := c.updatedAt;
      isNew := false;
    }

    function Snapshot(): Conversation
      reads this
    {
      Conversation(userId, title, messages, createdAt, updatedAt)
    }

    /** `conv.messages.push({...})`: one message at the end, schema defaults filled in. */
    method Push(role: Role, content: string, now: int, structured: Option<Structured>)
      modifies this
      ensures messages == old(messages) + [NewMessage(role, content, now, structured)]
      ensures title == old(title) && createdAt == old(createdAt) && updatedAt == old(updatedAt)
      ensures isNew == old(isNew)
    {
      messages := messages + [NewMessage(role, content, now, structured)];
    }

    /** `conv.title = title` */
    method SetTitle(t: string)
      modifies this
      ensures title == t && messages == old(messages)
      ensures createdAt == old(createdAt) && updatedAt == old(updatedAt) && isNew == old(isNew)
    {
      title := t;
    }
  }
}
