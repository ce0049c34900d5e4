/**
 * The chat request handlers (backend/src/controllers/chatController.js) over an in-memory
 * conversation collection. The provider call is an oracle (a `Script` of outcomes), the
 * clock is `now`, and a new document's id is `newId`.
 */
module ChatController {
  import opened Wrappers
  import opened Text
  import opened Structurer
  import opened Model
  import opened Gateway
  import opened ChatService

  /** The HTTP statuses the handlers answer with. */
  datatype Status = Ok | Created | BadRequest | Forbidden | NotFound
  {
    function Code(): int {
      match this
      case Ok => 200
      case Created => 201
      case BadRequest => 400
      case Forbidden => 403
      case NotFound => 404
    }
  }

  const HistoryLimit := 20
  const ReplyCap := 8000
  const AssistantPreviewCap := 120
  const LastMessageCap := 200
  /** The handler's own fallback reply (with a typographic apostrophe). */
  const Sorry := "Sorry, I couldn\U{2019}t generate a reply."

  /** The body of a successful `sendMessage` answer. */
  datatype SendResponse = SendResponse(
    convId: ConvId,
    reply: string,
    assistant: Option<Structured>,
    updatedAt: int,
    assistantPreview: string,
    error: Option<string>)

  /** A status with the JSON body a handler sends along with it, if any. */
  datatype Response<T> = Response(status: Status, body: Option<T>)

  /** The body of a rename or create answer. */
  datatype Named = Named(id: ConvId, title: string)

  datatype LastMessage = LastMessage(role: Role, content: string)
  datatype ListItem = ListItem(id: ConvId, title: string, updatedAt: int, lastMessage: Option<LastMessage>)

  predicate IsHexDigit(c: char) {
    '0' <= c <= '9' || 'a' <= c <= 'f' || 'A' <= c <= 'F'
  }

  /** An object id as the delete handler accepts it: twenty-four hexadecimal digits. */
  predicate ValidObjectId(s: string) {
    |s| == 24 && forall i :: 0 <= i < |s| ==> IsHexDigit(s[i])
  }

  /** The error flag: `/error|network|forbidden|quota|authentication/i` finds a match. */
  predicate IsErrorReply(reply: string) {
    || ContainsIgnoreCase(reply, "error")
    || ContainsIgnoreCase(reply, "network")
    || ContainsIgnoreCase(reply, "forbidden")
    || ContainsIgnoreCase(reply, "quota")
    || ContainsIgnoreCase(reply, "authentication")
  }

  /** The reply before the cap: the gateway's answer, or the fallback when it is empty. */
  function RawReply(answer: string): (r: string)
    ensures r != ""
    ensures answer != "" ==> r == answer
    ensures answer == "" ==> r == Sorry
  {
    if answer == "" then Sorry else answer
  }

  /** The stored reply: at most 8000 characters, plus "..." when it was longer. */
  function StoredReply(answer: string): (r: string)
    ensures r != "" && |r| <= ReplyCap + 3
    ensures |RawReply(answer)| <= ReplyCap ==> r == RawReply(answer)
    ensures |RawReply(answer)| > ReplyCap ==>
      |r| == ReplyCap + 3 && r[..ReplyCap] == RawReply(answer)[..ReplyCap] && r[ReplyCap..] == "..."
  {
    Ellipsize(RawReply(answer), ReplyCap)
  }

  /** `assistantPreview`: the structured preview, or the reply cut to 120 plus "..." when that is empty. */
  function AssistantPreview(reply: string, structured: Option<Structured>): string {
    if structured.Some? && structured.value.preview != "" then structured.value.preview
    else Ellipsize(reply, AssistantPreviewCap)
  }

  /** `lastMessage` of a listing entry: none for an empty conversation, else role and content cut to 200. */
  function LastOf(c: Conversation): (l: Option<LastMessage>)
    ensures l.None? <==> c.messages == []
    ensures l.Some? ==> var last := c.messages[|c.messages| - 1];
      && l.value.role == last.role
      && |l.value.content| == Min(LastMessageCap, |last.content|)
      && l.value.content == last.content[..|l.value.content|]
  {
    if c.messages == [] then None
    else
      var last := c.messages[|c.messages| - 1];
      Some(LastMessage(last.role, Take(last.content, LastMessageCap)))
  }

  /** How a handler's lookup of `convId` ends (no id at all is `NoId`). */
  datatype Lookup = NoId | Missing | Foreign | Owned(conv: Conversation)

  function Find(store: map<ConvId, Conversation>, user: UserId, convId: string): (l: Lookup)
    ensures l.NoId? <==> convId == ""
    ensures l.Missing? <==> convId != "" && convId !in store
    ensures l.Foreign? <==> convId != "" && convId in store && store[convId].userId != user
    ensures l.Owned? ==> convId in store && l.conv == store[convId] && l.conv.userId == user
  {
    if convId == "" then NoId
    else if convId !in store then Missing
    else if store[convId].userId != user then Foreign
    else Owned(store[convId])
  }

  /** The history the handler passes on: the last twenty messages once the user turn is in. */
  function ModelHistory(before: seq<Message>, text: string, now: int): seq<Turn> {
    HistoryWindow(before + [NewMessage(User, text, now)], HistoryLimit)
  }

  /** The two messages one exchange adds: the user turn, then the assistant turn with its structure. */
  function Exchange(text: string, answer: string, now: int): (ms: seq<Message>)
    ensures |ms| == 2
    ensures ms[0] == NewMessage(User, text, now)
    ensures ms[1].role == Assistant && ms[1].content == StoredReply(answer) && ms[1].createdAt == now
    ensures ms[1].structured.Some? && ms[1].structured == Structure(ms[1].content, now)
  {
    var reply := StoredReply(answer);
    [NewMessage(User, text, now), NewMessage(Assistant, reply, now, Structure(reply, now))]
  }

  /** A conversation after one exchange and the save that follows it. */
  function Appended(c: Conversation, text: string, answer: string, now: int): (d: Conversation)
    ensures d.userId == c.userId && d.title == c.title && d.createdAt == c.createdAt && d.updatedAt == now
    ensures d.messages == c.messages + Exchange(text, answer, now)
  {
    c.(messages := c.messages + Exchange(text, answer, now), updatedAt := now)
  }

  /** The body of the success answer for a gateway answer `answer`. */
  function SendResult(id: ConvId, answer: string, now: int): (r: SendResponse)
    ensures r.convId == id && r.updatedAt == now && r.reply == StoredReply(answer)
    ensures r.assistant == Structure(r.reply, now)
    ensures r.assistantPreview == AssistantPreview(r.reply, r.assistant)
    ensures r.error.Some? <==> IsErrorReply(RawReply(answer))
    ensures r.error.Some? ==> r.error.value == r.reply
  {
    var reply := StoredReply(answer);
    var structured := Structure(reply, now);
    SendResponse(id, reply, structured, now, AssistantPreview(reply, structured),
                 if IsErrorReply(RawReply(answer)) then Some(reply) else None)
  }

  /** An exchange keeps a conversation valid: both new messages have content. */
  lemma AppendedValid(c: Conversation, text: string, answer: string, now: int)
    requires ValidConversation(c) && text != ""
    ensures ValidConversation(Appended(c, text, answer, now))
  {
    var ex := Exchange(text, answer, now);
    assert ex == [ex[0], ex[1]];
    AllValidAppendPair(c.messages, ex[0], ex[1]);
  }

  lemma AllValidAppendPair(ms: seq<Message>, a: Message, b: Message)
    requires forall i :: 0 <= i < |ms| ==> ValidMessage(ms[i])
    requires ValidMessage(a) && ValidMessage(b)
    ensures forall i :: 0 <= i < |ms + [a, b]| ==> ValidMessage((ms + [a, b])[i])
  {
  }

  /** When both attempts throw, the stored reply is the gateway's sentinel and it is flagged as an error. */
  lemma BothAttemptsFailFlagged(id: ConvId, script: Script, now: int)
    requires script.first.Throws? && script.second.Throws?
    ensures var r := SendResult(id, ReplyOf(script), now);
      r.reply == FailureSentinel && r.error == Some(FailureSentinel)
  {
    var s := FailureSentinel;
    var head := "Error: Could not fetch response ";
    assert head[0..5] == "Error";
    assert s[0..5] == head[0..5];
    assert LowerString(s[0..5]) == "error";
    assert OccursAtIgnoreCase(s, "error", 0);
    assert IsErrorReply(RawReply(ReplyOf(script)));
  }

  /**
   * The history already ends with the new user turn and the gateway appends the same
   * message again: the model input ends with the message twice.
   */
  lemma {:induction false} ModelInputEndsTwice(before: seq<Message>, text: string, now: int)
    ensures var ms := BuildMessages(text, Some(ModelHistory(before, text, now)));
      && |ms| >= 3
      && ms[|ms| - 1] == Turn(User, text)
      && ms[|ms| - 2] == Turn(User, text)
  {
    var h := ModelHistory(before, text, now);
    WindowKeepsNewest(before, NewMessage(User, text, now));
    var ms := BuildMessages(text, Some(h));
    assert ms[1..|ms| - 1] == h;
    assert ms[|ms| - 2] == h[|h| - 1];
  }

  /** A non-empty text has a non-empty summary. */
  lemma SummaryNonEmpty(text: string)
    requires text != ""
    ensures Summary(text) != ""
  {
    var ps := Paragraphs(text);
    var src := if ps != [] then ps[0] else text;
    assert src != "";
    assert |Take(src, SummaryCap)| == Min(SummaryCap, |src|);
  }

  /** A non-empty reply has a non-empty structured preview. */
  lemma StructuredPreviewNonEmpty(text: string, now: int)
    requires text != ""
    ensures Structure(text, now).Some? && Structure(text, now).value.preview != ""
  {
    var st := Structure(text, now).value;
    SummaryNonEmpty(text);
    assert st.summary == Summary(text);
  }

  /** The preview in a success answer is always the structured preview (the fallback is never used). */
  lemma PreviewIsStructured(id: ConvId, answer: string, now: int)
    ensures var r := SendResult(id, answer, now);
      && r.assistant.Some?
      && r.assistantPreview == r.assistant.value.preview
      && |r.assistantPreview| <= PreviewCap + 3
  {
    StructuredPreviewNonEmpty(StoredReply(answer), now);
  }

  /**
   * The service helper and the handler disagree on a missing or foreign id: the handler
   * answers 404 or 403, the helper quietly starts a fresh conversation. On an owned id
   * both yield the stored conversation, and on no id both start one with the same title.
   */
  lemma LookupDivergence(store: map<ConvId, Conversation>, user: UserId, convId: string, text: string)
    requires text != ""
    ensures var found := Find(store, user, convId);
      var r := GetOrCreateConversation(store, user, convId, text);
      && (found.Missing? || found.Foreign? ==> r.Fresh?)
      && (found.Owned? ==> r == Stored(convId, found.conv))
      && (found.NoId? ==> r == Fresh(user, Ellipsize(text, FreshTitleCap)))
  {
  }

  lemma AppendPair<T>(s: seq<T>, x: T, y: T)
    ensures s + [x] + [y] == s + [x, y]
  {
  }

  /**
   * The order the listing query yields: each of the user's conversations exactly once,
   * most recently updated first.
   */
  predicate IsListing(store: map<ConvId, Conversation>, user: UserId, order: seq<ConvId>) {
    && (forall i, j :: 0 <= i < j < |order| ==> order[i] != order[j])
    && (forall i :: 0 <= i < |order| ==> order[i] in store && store[order[i]].userId == user)
    && (forall id :: id in store && store[id].userId == user ==> id in order)
    && (forall i, j :: 0 <= i < j < |order| ==> store[order[i]].updatedAt >= store[order[j]].updatedAt)
  }

  /** Every id is an object id and every stored conversation validates against the schema. */
  predicate ValidStore(store: map<ConvId, Conversation>) {
    forall id :: id in store ==> ValidObjectId(id) && ValidConversation(store[id])
  }

  lemma PutKeepsValid(store: map<ConvId, Conversation>, id: ConvId, c: Conversation)
    requires ValidStore(store) && ValidObjectId(id) && ValidConversation(c)
    ensures ValidStore(store[id := c])
  {
  }

  class ChatServer {
    /** The conversation collection, by id. */
    var conversations: map<ConvId, Conversation>

    predicate Valid()
      reads this
    {
      ValidStore(conversations)
    }

    constructor ()
      ensures conversations == map[] && Valid()
    {
      conversations := map[];
    }

    /** `conv.save()`: the timestamps are set and the document is written under its id. */
    method Save(doc: Doc, now: int)
      modifies this, doc
      ensures doc.updatedAt == now && doc.createdAt == (if old(doc.isNew) then now else old(doc.createdAt))
      ensures !doc.isNew && doc.title == old(doc.title) && doc.messages == old(doc.messages)
      ensures conversations == old(conversations)[doc.id := doc.Snapshot()]
    {
      if doc.isNew {
        doc.createdAt := now;
        doc.isNew := false;
      }
      doc.updatedAt := now;
      conversations := conversations[doc.id := doc.Snapshot()];
    }

    /**
     * The reply steps of `sendMessage`: the model call, the fallback, the error flag on the
     * uncapped reply, the 8000-character cap and the structured form.
     */
    method Reply(text: string, history: seq<Turn>, env: string, script: Script, now: int)
      returns (reply: string, structured: Option<Structured>, isError: bool, requests: seq<Request>)
      ensures requests != [] && |requests| <= 2
      ensures forall i :: 0 <= i < |requests| ==> requests[i] == RequestFor(text, Some(history), DefaultOptions, env)
      ensures reply == StoredReply(ReplyOf(script)) && structured == Structure(reply, now)
      ensures isError == IsErrorReply(RawReply(ReplyOf(script)))
    {
      var answer;
      answer, requests := SendMessageToOpenAI(text, Some(history), DefaultOptions, env, script);
      reply := RawReply(answer);
      isError := IsErrorReply(reply);
      if |reply| > ReplyCap {
        reply := reply[..ReplyCap] + "...";
      }
      structured := BuildStructured(reply, now);
    }

    /**
     * The part of `sendMessage` after the lookup: the user turn, the reply on the last
     * twenty messages, the assistant turn and one save. `requests` are the provider calls made.
     */
    method Converse(conv: Doc, text: string, env: string, script: Script, now: int)
      returns (response: SendResponse, requests: seq<Request>)
      requires Valid() && ValidObjectId(conv.id) && ValidConversation(conv.Snapshot()) && text != ""
      modifies this, conv
      ensures Valid()
      ensures requests != [] && |requests| <= 2
      ensures forall i :: 0 <= i < |requests| ==>
        requests[i] == RequestFor(text, Some(ModelHistory(old(conv.messages), text, now)), DefaultOptions, env)
      ensures conversations == old(conversations)[conv.id := Appended(
        old(conv.Snapshot()).(createdAt := if old(conv.isNew) then now else old(conv.createdAt)),
        text, ReplyOf(script), now)]
      ensures response == SendResult(conv.id, ReplyOf(script), now)
    {
      ghost var base := conv.Snapshot().(createdAt := if conv.isNew then now else conv.createdAt);
      ghost var answer := ReplyOf(script);
      var reply, structured, isError;
      reply, structured, isError, requests := RecordExchange(conv, text, env, script, now);
      Save(conv, now);
      assert conv.Snapshot() == Appended(base, text, answer, now);
      AppendedValid(base, text, answer, now);
      PutKeepsValid(old(conversations), conv.id, conv.Snapshot());
      var preview := AssistantPreview(reply, structured);
      response := SendResponse(conv.id, reply, structured, conv.updatedAt, preview,
                               if isError then Some(reply) else None);
    }

    /**
     * The exchange on the document, before the save: the user turn, the reply on the last
     * twenty messages (the new turn included), then the assistant turn with its structure.
     */
    method RecordExchange(conv: Doc, text: string, env: string, script: Script, now: int)
      returns (reply: string, structured: Option<Structured>, isError: bool, requests: seq<Request>)
      modifies conv
      ensures conv.messages == old(conv.messages) + Exchange(text, ReplyOf(script), now)
      ensures conv.title == old(conv.title) && conv.isNew == old(conv.isNew)
      ensures conv.createdAt == old(conv.createdAt) && conv.updatedAt == old(conv.updatedAt)
      ensures requests != [] && |requests| <= 2
      ensures forall i :: 0 <= i < |requests| ==>
        requests[i] == RequestFor(text, Some(ModelHistory(old(conv.messages), text, now)), DefaultOptions, env)
      ensures reply == StoredReply(ReplyOf(script)) && structured == Structure(reply, now)
      ensures isError == IsErrorReply(RawReply(ReplyOf(script)))
    {
      ghost var m0 := conv.messages;
      conv.Push(User, text, now, None);
      var history := HistoryWindow(conv.messages, HistoryLimit);
      reply, structured, isError, requests := Reply(text, history, env, script, now);
      ghost var ex := [NewMessage(User, text, now), NewMessage(Assistant, reply, now, structured)];
      assert ex == Exchange(text, ReplyOf(script), now);
      conv.Push(Assistant, reply, now, structured);
      AppendPair(m0, ex[0], ex[1]);
    }

    /**
     * `sendMessage`: validation first, then the lookup (not found before forbidden), and
     * only then the exchange, on the stored conversation or on a new one.
     */
    method SendMessage(user: UserId, convId: string, message: Option<string>, env: string, script: Script,
                       newId: ConvId, now: int)
      returns (status: Status, response: Option<SendResponse>, requests: seq<Request>)
      requires Valid() && user != ""
      requires ValidObjectId(newId) && newId !in conversations
      modifies this
      ensures Valid()
      ensures status == BadRequest <==> message.None? || IsBlank(message.value)
      ensures status == NotFound <==> status != BadRequest && Find(old(conversations), user, convId).Missing?
      ensures status == Forbidden <==> status != BadRequest && Find(old(conversations), user, convId).Foreign?
      ensures status == Ok <==>
        && message.Some? && !IsBlank(message.value)
        && (Find(old(conversations), user, convId).NoId? || Find(old(conversations), user, convId).Owned?)
      ensures status != Ok ==> conversations == old(conversations) && response.None? && requests == []
      ensures status == Ok ==>
        var text := Trim(message.value);
        var found := Find(old(conversations), user, convId);
        var id := if found.Owned? then convId else newId;
        var base := if found.Owned? then found.conv else Conversation(user, Ellipsize(text, FreshTitleCap), [], now, now);
        && requests != [] && |requests| <= 2
        && (forall i :: 0 <= i < |requests| ==>
              requests[i] == RequestFor(text, Some(ModelHistory(base.messages, text, now)), DefaultOptions, env))
        && conversations == old(conversations)[id := Appended(base, text, ReplyOf(script), now)]
        && response == Some(SendResult(id, ReplyOf(script), now))
    {
      response := None;
      requests := [];
      if message.None? {
        return BadRequest, response, requests;
      }
      var text := Trim(message.value);
      if text == "" {
        return BadRequest, response, requests;
      }
      var conv: Doc;
      if convId != "" {
        if convId !in conversations {
          return NotFound, response, requests;
        }
        if conversations[convId].userId != user {
          return Forbidden, response, requests;
        }
        conv := new Doc.Load(convId, conversations[convId]);
      } else {
        conv := new Doc.Create(newId, user, Ellipsize(text, FreshTitleCap));
      }
      var r;
      r, requests := Converse(conv, text, env, script, now);
      response := Some(r);
      status := Ok;
    }

    /** `listConversations`: one entry per conversation of the user, newest first. */
    function ListConversations(user: UserId, order: seq<ConvId>): (items: seq<ListItem>)
      reads this
      requires IsListing(conversations, user, order)
      ensures |items| == |order|
      ensures forall i :: 0 <= i < |items| ==> items[i].id == order[i] && items[i].id in conversations
      ensures forall i :: 0 <= i < |items| ==>
        var c := conversations[order[i]];
        && c.userId == user
        && items[i].title == c.title && items[i].updatedAt == c.updatedAt && items[i].lastMessage == LastOf(c)
      ensures forall i, j :: 0 <= i < j < |items| ==> items[i].id != items[j].id && items[i].updatedAt >= items[j].updatedAt
    {
      seq(|order|, i requires 0 <= i < |order| && IsListing(conversations, user, order) reads this =>
        var c := conversations[order[i]];
        ListItem(order[i], c.title, c.updatedAt, LastOf(c)))
    }

    /** `getConversation`: not found before forbidden; the whole conversation for its owner. */
    function GetConversation(user: UserId, id: string): (r: Response<Conversation>)
      reads this
      ensures r.status == NotFound <==> id !in conversations
      ensures r.status == Forbidden <==> id in conversations && conversations[id].userId != user
      ensures r.status == Ok <==> id in conversations && conversations[id].userId == user
      ensures r.body.Some? <==> r.status == Ok
      ensures r.status == Ok ==> r.body.value == conversations[id]
    {
      if id !in conversations then Response(NotFound, None)
      else if conversations[id].userId != user then Response(Forbidden, None)
      else Response(Ok, Some(conversations[id]))
    }

    /** `renameConversation`: 400 without an id or a string title, then 404, then 403; the owner changes only the title. */
    method RenameConversation(user: UserId, convId: string, title: Option<string>, now: int)
      returns (r: Response<Named>)
      requires Valid()
      modifies this
      ensures Valid()
      ensures r.status == BadRequest <==> convId == "" || title.None?
      ensures r.status == NotFound <==> r.status != BadRequest && convId !in old(conversations)
      ensures r.status == Forbidden <==>
        r.status != BadRequest && convId in old(conversations) && old(conversations)[convId].userId != user
      ensures r.status == Ok <==>
        convId != "" && title.Some? && convId in old(conversations) && old(conversations)[convId].userId == user
      ensures r.status != Ok ==> conversations == old(conversations) && r.body.None?
      ensures r.status == Ok ==>
        && conversations == old(conversations)[convId := old(conversations)[convId].(title := title.value, updatedAt := now)]
        && r.body == Some(Named(convId, title.value))
    {
      if convId == "" || title.None? {
        return Response(BadRequest, None);
      }
      if convId !in conversations {
        return Response(NotFound, None);
      }
      if conversations[convId].userId != user {
        return Response(Forbidden, None);
      }
      var conv := new Doc.Load(convId, conversations[convId]);
      conv.SetTitle(title.value);
      Save(conv, now);
      PutKeepsValid(old(conversations), convId, conv.Snapshot());
      r := Response(Ok, Some(Named(conv.id, conv.title)));
    }

    /** `deleteConversation`: 400 for a malformed id, then 404, then 403; the owner's delete removes that id only. */
    method DeleteConversation(user: UserId, convId: string) returns (r: Response<ConvId>)
      requires Valid()
      modifies this
      ensures Valid()
      ensures r.status == BadRequest <==> !ValidObjectId(convId)
      ensures r.status == NotFound <==> ValidObjectId(convId) && convId !in old(conversations)
      ensures r.status == Forbidden <==>
        ValidObjectId(convId) && convId in old(conversations) && old(conversations)[convId].userId != user
      ensures r.status == Ok <==>
        ValidObjectId(convId) && convId in old(conversations) && old(conversations)[convId].userId == user
      ensures r.status != Ok ==> conversations == old(conversations) && r.body.None?
      ensures r.status == Ok ==> conversations == old(conversations) - {convId} && r.body == Some(convId)
    {
      if convId == "" || !ValidObjectId(convId) {
        return Response(BadRequest, None);
      }
      if convId !in conversations {
        return Response(NotFound, None);
      }
      if conversations[convId].userId != user {
        return Response(Forbidden, None);
      }
      conversations := conversations - {convId};
      r := Response(Ok, Some(convId));
    }

    /** `createConversation`: a new empty conversation, titled "New chat" when no title is given. */
    method CreateConversation(user: UserId, title: string, newId: ConvId, now: int) returns (r: Response<Named>)
      requires Valid() && user != ""
      requires ValidObjectId(newId) && newId !in conversations
      modifies this
      ensures Valid()
      ensures var t := if title == "" then DefaultTitle else title;
        && conversations == old(conversations)[newId := Conversation(user, t, [], now, now)]
        && r == Response(Created, Some(Named(newId, t)))
    {
      var t := if title == "" then DefaultTitle else title;
      var conv := new Doc.Create(newId, user, t);
      Save(conv, now);
      PutKeepsValid(old(conversations), newId, conv.Snapshot());
      r := Response(Created, Some(Named(conv.id, conv.title)));
    }
  }
}
