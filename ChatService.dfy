/**
 * The conversation helpers (backend/src/services/chatService.js): finding or starting a
 * conversation, appending a message in memory, the history window handed to the model,
 * and the never-empty reply wrapper around the gateway.
 */
module ChatService {
  import opened Wrappers
  import opened Text
  import opened Structurer
  import opened Model
  import opened Gateway

  const FreshTitleCap := 60
  const DefaultHistoryLimit := 20
  /** The fallback reply of this module (with an ASCII apostrophe). */
  const ServiceSorry := "Sorry, I couldn't generate a reply."

  /** What `getOrCreateConversation` hands back: a stored document or a new, unsaved one with no messages. */
  datatype Resolved =
    | Stored(id: ConvId, conv: Conversation)
    | Fresh(userId: UserId, title: string)

  /** The title of a fresh conversation: the message cut to 60 characters plus "...", or "New chat" when empty. */
  function FreshTitle(message: string): (t: string)
    ensures t != "" && |t| <= FreshTitleCap + 3
    ensures message == "" ==> t == DefaultTitle
    ensures 0 < |message| <= FreshTitleCap ==> t == message
    ensures |message| > FreshTitleCap ==> t == message[..FreshTitleCap] + "..."
  {
    if message == "" then DefaultTitle else Ellipsize(message, FreshTitleCap)
  }

  /**
   * `getOrCreateConversation`: the stored conversation only when an id is given, it is
   * stored and the caller owns it; a fresh one in every other case, never an error.
   */
  function GetOrCreateConversation(store: map<ConvId, Conversation>, userId: UserId, convId: string, message: string)
    : (r: Resolved)
    ensures r.Stored? <==> convId != "" && convId in store && store[convId].userId == userId
    ensures r.Stored? ==> r.id == convId && r.conv == store[convId]
    ensures r.Fresh? ==> r.userId == userId && r.title == FreshTitle(message)
  {
    if convId != "" && convId in store && store[convId].userId == userId then Stored(convId, store[convId])
    else Fresh(userId, FreshTitle(message))
  }

  /** `addMessage`: one message at the end of a document in memory; nothing when there is no document. */
  method AddMessage(conv: Doc?, role: Role, content: string, now: int, structured: Option<Structured> := None)
    modifies conv
    ensures conv != null ==> conv.messages == old(conv.messages) + [NewMessage(role, content, now, structured)]
    ensures conv != null ==> conv.title == old(conv.title) && conv.isNew == old(conv.isNew)
    ensures conv != null ==> conv.createdAt == old(conv.createdAt) && conv.updatedAt == old(conv.updatedAt)
  {
    if conv == null {
      return;
    }
    conv.Push(role, content, now, structured);
  }

  /** The role and content of a message, as the model sees it. */
  function ToTurn(m: Message): Turn {
    Turn(m.role, m.content)
  }

  /**
   * `messages.slice(-limit)` mapped to role/content pairs: the last `limit` messages for a
   * positive limit, all of them for 0 (as `-0` is `0`), and all but the first `-limit` for
   * a negative one; order is kept.
   */
  function HistoryWindow(msgs: seq<Message>, limit: int): (h: seq<Turn>)
    ensures |h| <= |msgs|
    ensures forall i :: 0 <= i < |h| ==> h[i] == ToTurn(msgs[|msgs| - |h| + i])
    ensures limit > 0 ==> |h| == Min(limit, |msgs|)
    ensures limit == 0 ==> |h| == |msgs|
    ensures limit < 0 ==> |h| == |msgs| - Min(-limit, |msgs|)
  {
    var start := if limit > 0 then |msgs| - Min(limit, |msgs|)
                 else if limit == 0 then 0
                 else Min(-limit, |msgs|);
    seq(|msgs| - start, i requires 0 <= i < |msgs| - start => ToTurn(msgs[start + i]))
  }

  /** `getHistory`: the window of a document's messages, empty when there is no document. */
  function GetHistory(conv: Doc?, limit: int := DefaultHistoryLimit): (h: seq<Turn>)
    reads conv
    ensures conv == null ==> h == []
    ensures conv != null ==> |h| <= |conv.messages|
    ensures conv != null && limit > 0 ==> |h| == Min(limit, |conv.messages|)
    ensures conv != null && limit == 0 ==> |h| == |conv.messages|
    ensures conv != null && limit < 0 ==> |h| == |conv.messages| - Min(-limit, |conv.messages|)
    ensures conv != null ==> forall i :: 0 <= i < |h| ==> h[i] == ToTurn(conv.messages[|conv.messages| - |h| + i])
  {
    if conv == null then [] else HistoryWindow(conv.messages, limit)
  }

  /**
   * `generateReply`: the gateway's answer, or the fallback when it is empty. The gateway
   * never throws, so the handler for a failed call has no counterpart here.
   */
  method GenerateReply(message: string, history: Option<seq<Turn>>, options: Options, env: string, script: Script)
    returns (reply: string)
    ensures reply != ""
    ensures ReplyOf(script) != "" ==> reply == ReplyOf(script)
    ensures ReplyOf(script) == "" ==> reply == ServiceSorry
  {
    var raw, _ := SendMessageToOpenAI(message, history, options, env, script);
    reply := if raw == "" then ServiceSorry else raw;
  }

  /** With the default limit, a conversation of any length gives at most twenty turns, the newest last. */
  lemma {:induction false} WindowKeepsNewest(msgs: seq<Message>, m: Message)
    ensures var h := HistoryWindow(msgs + [m], DefaultHistoryLimit);
      && 1 <= |h| <= DefaultHistoryLimit
      && h[|h| - 1] == ToTurn(m)
  {
    var all := msgs + [m];
    var h := HistoryWindow(all, DefaultHistoryLimit);
    assert all[|all| - 1] == m;
    assert h[|h| - 1] == ToTurn(all[|all| - |h| + |h| - 1]);
  }
}
