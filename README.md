# TalkSphere chat core in Dafny

TalkSphere is a chat application: a React page sends a user's message to an Express
server, the server stores it in a MongoDB conversation, asks a Gemini model (through an
OpenAI-compatible client) for a reply, turns that reply into a structured record (title,
summary, sections, first code block, preview) and stores it as the assistant's turn.

This project models that core and proves its properties:

- `Text.dfy` (module `Text`): the JavaScript string operations the core relies on. These are
  `trim` and the `\s` class, `slice`, the "cut and add ..." idiom, `indexOf` and an
  ASCII case-insensitive search.
- `Structurer.dfy` (module `Structurer`): `extractFirstCodeBlock` and `buildStructured`. Each
  regular expression is written out as the match the JavaScript engine returns (leftmost
  match, greedy and lazy quantifiers, `String.prototype.split`). The fallback sections are
  built by a loop, as in the source.
- `Conversation.dfy` (module `Model`): the Mongoose schema as datatypes (`Role`, `Message`,
  `Conversation`) and a `Doc` class for a document changed in memory before it is saved.
- `Gateway.dfy` (module `Gateway`): `buildMessages` and the one-retry, never-throwing
  `sendMessageToOpenAI`. The provider is an oracle: a `Script` gives the outcome of each
  attempt.
- `ChatService.dfy` (module `ChatService`): `getOrCreateConversation`, `addMessage`,
  `getHistory` and `generateReply`.
- `ChatController.dfy` (module `ChatController`): the six request handlers as methods of a
  `ChatServer` class that holds the conversation collection as a map from id to
  `Conversation`. Statuses are 200/201/400/403/404.
- `ChatPage.dfy` (module `ChatPage`): the page controller as a `ChatPageState` class
  (messages, input, stored draft, active id, sidebar list, typing flag) and
  `generateTitle`. Server answers are parameters, where `None` is a request that throws.

Clock reads (`Date.now()`, `new Date()`), new document ids and the `GEN_MODEL`
environment variable are parameters. A missing (`null`) id on the client is written `""`.

## Model

| member | source | states |
|---|---|---|
| Text.Trim | backend/src/controllers/chatController.js:77 | `trim()` removes white space at both ends only: the result is no longer than the input, has no white space at either end, and is empty exactly when the input is blank |
| Text.TrimIsSlice | backend/src/controllers/chatController.js:77 | what `trim()` keeps is one stretch of the input: it begins right after the leading white space and is taken unchanged |
| Text.TrimDropsBlank | backend/src/controllers/chatController.js:77 | what `trim()` drops is white space only: everything before the kept stretch and everything after it |
| Text.Ellipsize | backend/src/controllers/chatController.js:109-111 | "longer than n: first n characters plus `...`": unchanged up to n, otherwise exactly n+3 characters whose first n are the input's |
| Text.Take | backend/src/controllers/chatController.js:22 | `slice(0, n)`: the first min(n, length) characters, a prefix of the input |
| Text.FindIgnoreCase | backend/src/controllers/chatController.js:106 | a case-insensitive regex test finds the leftmost position where the word occurs ignoring ASCII case, and reports none only when no position matches |
| Text.IndexOf | backend/src/controllers/chatController.js:10 | the leftmost occurrence of a pattern from a given position, or none when it does not occur |
| Structurer.FindFence | backend/src/controllers/chatController.js:10-11 | the match of the fence regex is the leftmost opening fence: three backquotes, a word-character tag, a newline, then the shortest body up to the next three backquotes. There is none exactly when no position opens a fence |
| Structurer.FenceFrom | backend/src/controllers/chatController.js:10-11 | a match at p consists of three backquotes, a tag of word characters and a newline, then a body with no three backquotes in it, closed by three backquotes |
| Structurer.FenceFoundAt | backend/src/controllers/chatController.js:10-11 | a text with no backquote before p, a fence opening at p and no backquote in the body before k yields exactly that fence |
| Structurer.ExtractFirstCodeBlock | backend/src/controllers/chatController.js:8-14 | a block is returned exactly when the text contains a fence (never for empty text), and its value is trimmed |
| Structurer.ExtractAtFence | backend/src/controllers/chatController.js:10-13 | the block comes from the first fence: its language is the tag, or "text" when the newline follows the backquotes directly, and its value is the trimmed text between the newline and the closing backquotes |
| Structurer.FirstBlock | backend/src/controllers/chatController.js:20 | the text before the first blank line, or the whole text when that piece is empty or there is no blank line |
| Structurer.FirstSentenceEnd | backend/src/controllers/chatController.js:21 | the lazy group ends at the first sentence mark followed by white space on the first line, and nowhere earlier |
| Structurer.Title | backend/src/controllers/chatController.js:20-22 | the title is at most 120 characters: the first block's first sentence (mark included) when one ends on its first line, else the block, cut to 120 |
| Structurer.Split | backend/src/controllers/chatController.js:25 | `split` on a separator pattern always yields at least one piece |
| Structurer.SplitPieces | backend/src/controllers/chatController.js:25 | the pieces of `split` are consecutive stretches of the text from its first character to its last. No separator match starts inside a piece, and exactly one match lies between each piece and the next |
| Structurer.TrimNonEmptyConcat | backend/src/controllers/chatController.js:25 | `.map(trim).filter(Boolean)` works piece by piece and keeps the order: on a + b it gives its result on a followed by its result on b, and one piece gives its trim, or nothing when it is blank |
| Structurer.TrimNonEmptyMembers | backend/src/controllers/chatController.js:25 | `.map(trim).filter(Boolean)` keeps exactly the trimmed forms of the pieces that are not blank |
| Structurer.Paragraphs | backend/src/controllers/chatController.js:25 | paragraphs are non-empty and trimmed |
| Structurer.ParagraphsOfPieces | backend/src/controllers/chatController.js:25 | the paragraphs are exactly the trimmed forms of the blank-line pieces that are not blank. There are none exactly when every piece is blank |
| Structurer.Summary | backend/src/controllers/chatController.js:26 | the summary is the first paragraph, or the text when there is none, cut to 300 characters |
| Structurer.Preview | backend/src/controllers/chatController.js:51 | the preview is at most 123 characters: the summary itself when it has at most 120, else its first 120 plus "..." |
| Structurer.FilterListLines | backend/src/controllers/chatController.js:31 | the list lines are lines of the text that start like a bullet or a numbered item, and every such line is among them. There are none exactly when no line qualifies |
| Structurer.FilterListLinesConcat | backend/src/controllers/chatController.js:31 | the collection keeps the text's order: on a + b it is the result on a followed by the result on b, and a single line is kept exactly when it is a list line |
| Structurer.CleanItem | backend/src/controllers/chatController.js:35 | a key point, with its leading dashes and number stripped, is trimmed |
| Structurer.DashesRemoved | backend/src/controllers/chatController.js:35 | one or more dashes, at most one white-space character, then text starting with no dash, white space or digit: the key point is that text, trimmed |
| Structurer.NumberMarkerRemoved | backend/src/controllers/chatController.js:35 | a numbered line (digits, then ".", then anything) gives what follows the ".", trimmed |
| Structurer.StarMarkerKept | backend/src/controllers/chatController.js:35 | a "* " bullet keeps its marker: only dashes and numbers are stripped |
| Structurer.Fragments | backend/src/controllers/chatController.js:42 | a paragraph gives at most four fragments, each non-empty and trimmed |
| Structurer.FragmentsOfPieces | backend/src/controllers/chatController.js:42 | the fragments are exactly the trimmed forms of the first four sentence pieces that are not blank; later pieces never contribute |
| Structurer.KeyPointsRule | backend/src/controllers/chatController.js:31-36 | with list lines present there is exactly one "Key points" section holding the first min(10, n) list lines, cleaned, in order |
| Structurer.FallbackSectionsShape | backend/src/controllers/chatController.js:38-45 | for any list of paragraphs: at most three sections, headed "Overview", "Detail 1", "Detail 2", each holding that paragraph's fragments (at most four, non-empty, trimmed) |
| Structurer.FallbackRule | backend/src/controllers/chatController.js:25-45 | without list lines there are min(3, #paragraphs) sections headed "Overview", "Detail 1", "Detail 2", each the paragraph's fragments (at most four, non-empty, trimmed) |
| Structurer.PushParagraphSections | backend/src/controllers/chatController.js:38-45 | the loop that pushes one section per paragraph builds exactly the fallback sections |
| Structurer.Structure | backend/src/controllers/chatController.js:17-65 | no record exactly for empty text. Otherwise the text is kept; the title is `Title` and the summary is `Summary` of the text (title ≤ 120, summary ≤ 300, preview ≤ 123); the preview rule; the sections and code rules; meta is "gemini" with the clock value |
| Structurer.BuildStructured | backend/src/controllers/chatController.js:17-65 | the imperative construction equals the specification `Structure` |
| Model.NewMessage | backend/src/models/Conversation.js:3-9 | a message has the given role and content; `createdAt` defaults to now and `structured` to null |
| Model.Doc.Create | backend/src/models/Conversation.js:11-15 | a new document has its owner, its title and no messages, and is not yet stored |
| Model.Doc.Load | backend/src/models/Conversation.js:11-15 | a loaded document holds exactly the stored conversation |
| Model.Doc.Push | backend/src/controllers/chatController.js:95 | a push appends exactly one message at the end and changes nothing else |
| Model.Doc.SetTitle | backend/src/controllers/chatController.js:175 | assigning the title changes only the title |
| Gateway.ResolveModel | backend/src/services/geminiService.js:61 | the model is the option, else the environment value, else "gemini-2.0-flash"; never empty |
| Gateway.MaxTokens | backend/src/services/geminiService.js:62 | the token limit is the option when non-zero, else 800 |
| Gateway.BuildMessages | backend/src/services/geminiService.js:41-51 | the message list has length \|history\| + 2: first the system message, then the history in order, last the user message. A history that is not an array counts as empty |
| Gateway.NonArrayHistory | backend/src/services/geminiService.js:44-46 | without an array history the list is exactly the system message then the user message |
| Gateway.ReplyOf | backend/src/services/geminiService.js:67-97 | the first answer that does not throw is returned: its string content, or the serialised response. If both attempts throw, the result is the fixed error sentence |
| Gateway.SendMessageToOpenAI | backend/src/services/geminiService.js:60-98 | one or two provider calls, the second exactly when the first throws; both carry the same model, messages and limit; the reply is `ReplyOf` of the outcomes |
| Gateway.TemperatureNeverSent | backend/src/services/geminiService.js:63-72 | the temperature option changes nothing that is sent |
| ChatService.FreshTitle | backend/src/services/chatService.js:13 | a fresh title is the message's first 60 characters plus "..." when longer, the message itself otherwise, and "New chat" for an empty message |
| ChatService.GetOrCreateConversation | backend/src/services/chatService.js:5-15 | the stored conversation exactly when an id is given, it is stored and the caller owns it; otherwise a fresh one for the caller with no messages and the fresh title, never an error |
| ChatService.AddMessage | backend/src/services/chatService.js:18-21 | with a document, exactly one message is appended with the given role and content (structured defaults to null) and nothing else changes; without one nothing happens |
| ChatService.HistoryWindow | backend/src/services/chatService.js:26-29 | `slice(-limit)` as role/content pairs: a suffix of the messages in order, of length min(limit, n) for a positive limit, all of them for 0, and n - min(-limit, n) for a negative one |
| ChatService.GetHistory | backend/src/services/chatService.js:24-30 | no document gives []; otherwise the result is the newest messages as role/content pairs, in order: min(limit, n) of them for a positive limit, all n for a limit of 0 (`slice(-0)` is `slice(0)`), and n - min(-limit, n) for a negative limit (the oldest ones dropped) |
| ChatService.GenerateReply | backend/src/services/chatService.js:33-41 | the reply is never empty: the gateway's answer, or "Sorry, I couldn't generate a reply." when that is empty |
| ChatService.WindowKeepsNewest | backend/src/services/chatService.js:24-30 | with the default limit, the window has between 1 and 20 turns and ends with the message just appended |
| ChatController.RawReply | backend/src/controllers/chatController.js:105 | the reply before capping is the gateway's answer, or the handler's fallback sentence when that is empty |
| ChatController.StoredReply | backend/src/controllers/chatController.js:105-111 | the stored reply is non-empty and at most 8003 characters: the reply when it has at most 8000, else its first 8000 plus "..." |
| ChatController.SendResult | backend/src/controllers/chatController.js:120-129 | the answer body: the conversation id, the stored reply, its structure, `updatedAt`, the preview of the structure; `error` carries the stored reply exactly when the reply before the cap matches the error keywords |
| ChatController.LastOf | backend/src/controllers/chatController.js:139-149 | `lastMessage` is null exactly for an empty conversation. Otherwise it is the last message's role and its content cut to 200 |
| ChatController.Find | backend/src/controllers/chatController.js:82-87 | the lookup distinguishes no id, an id not stored, an id owned by someone else, and an owned conversation |
| ChatController.Exchange | backend/src/controllers/chatController.js:95-116 | one exchange adds two messages: the user turn with the text, then the assistant turn with the stored reply and its structure |
| ChatController.Appended | backend/src/controllers/chatController.js:95-118 | after an exchange and its save, owner, title and creation time are kept, `updatedAt` is now, and the messages are the old ones followed by the exchange |
| ChatController.AppendedValid | backend/src/models/Conversation.js:3-9 | the two messages the send handler pushes keep a conversation valid against the message schema: both have non-empty content (the role enum is the Role type) |
| ChatController.BothAttemptsFailFlagged | backend/src/controllers/chatController.js:103-128 | when both provider attempts throw, the stored reply is the gateway's error sentence and the answer's `error` field carries it |
| ChatController.ModelInputEndsTwice | backend/src/controllers/chatController.js:95-103 | the history already ends with the new user turn and the gateway appends the message again: the model input ends with the user message twice |
| ChatController.SummaryNonEmpty | backend/src/controllers/chatController.js:25-26 | a non-empty text has a non-empty summary |
| ChatController.StructuredPreviewNonEmpty | backend/src/controllers/chatController.js:26-51 | a non-empty reply has a non-empty structured preview |
| ChatController.PreviewIsStructured | backend/src/controllers/chatController.js:125-127 | the answer's `assistantPreview` is always the structured preview (at most 123 characters); the fallback branch is never taken |
| ChatController.LookupDivergence | backend/src/controllers/chatController.js:82-92 | the service helper and the handler disagree: on a missing or foreign id the handler refuses while the helper starts a fresh conversation. On an owned id both use the stored one; with no id both start one with the same title |
| ChatController.PutKeepsValid | backend/src/models/Conversation.js:11-15 | writing a valid conversation under an object id keeps the collection valid |
| ChatController.ChatServer.Save | backend/src/controllers/chatController.js:118 | a save sets `updatedAt` to now, sets `createdAt` on first insert only, and writes the document under its id, leaving every other entry alone |
| ChatController.ChatServer.Reply | backend/src/controllers/chatController.js:103-113 | one or two provider calls on the given history; the stored reply is the capped reply; the structure is that of the stored reply; the error flag is the keyword test on the reply before the cap |
| ChatController.ChatServer.Converse | backend/src/controllers/chatController.js:95-129 | the user turn, the model call on the newest twenty messages (the new turn included), the assistant turn and one save. The collection changes only at this conversation and stays valid; the answer is `SendResult` |
| ChatController.ChatServer.RecordExchange | backend/src/controllers/chatController.js:95-116 | the document gains exactly the exchange (user turn, then assistant turn) and nothing else changes; the model sees the newest twenty messages including the new user turn, in one or two identical requests |
| ChatController.ChatServer.SendMessage | backend/src/controllers/chatController.js:68-130 | missing or blank message gives 400 before any lookup; then 404 for an unknown id, then 403 for another user's; on all three the collection is unchanged and nothing is sent. The answer is 200 exactly in the remaining cases: no id, or an owned id. On success exactly two messages are appended (user with the trimmed text, then assistant). A new conversation is titled with the text cut to 60 plus "...". The collection stays valid |
| ChatController.ChatServer.ListConversations | backend/src/controllers/chatController.js:133-154 | one entry per conversation of the user, each once, newest first, with title, `updatedAt` and `lastMessage` |
| ChatController.ChatServer.GetConversation | backend/src/controllers/chatController.js:157-165 | 404 for an unknown id, then 403 for another user's, else the whole conversation |
| ChatController.ChatServer.RenameConversation | backend/src/controllers/chatController.js:167-179 | 400 without an id or title first, then 404, then 403 with the collection unchanged. The answer is 200 exactly when the caller owns the stored conversation, and then only the title (and `updatedAt`) of that conversation changes |
| ChatController.ChatServer.DeleteConversation | backend/src/controllers/chatController.js:181-196 | 400 for an id that is not an object id, then 404, then 403 with the collection unchanged. The answer is 200 exactly when the caller owns the stored conversation, and then exactly that id is removed |
| ChatController.ChatServer.CreateConversation | backend/src/controllers/chatController.js:199-205 | 201 and a new empty conversation for the caller under a fresh id, titled "New chat" when no title is given |
| ChatPage.Collapse | frontend/src/pages/ChatPage.jsx:216 | replacing white-space runs never lengthens the text |
| ChatPage.CollapseRun | frontend/src/pages/ChatPage.jsx:216 | a maximal white-space run w between a (empty or ending in a non-space) and b (empty or starting with a non-space) becomes exactly one space: `Collapse(a + w + b) == Collapse(a) + " " + Collapse(b)` |
| ChatPage.CollapseNonSpaceHead | frontend/src/pages/ChatPage.jsx:216 | a character that is not white space is kept unchanged at the front |
| ChatPage.CollapseConcat | frontend/src/pages/ChatPage.jsx:216 | the replace works run by run: cutting the text after a non-space character and collapsing both halves gives the same text |
| ChatPage.CollapseSingleSpaced | frontend/src/pages/ChatPage.jsx:216 | after the replace no two white-space characters are adjacent and each one is a plain space |
| ChatPage.CollapseBlank | frontend/src/pages/ChatPage.jsx:216 | the replaced text is blank exactly when the original is |
| ChatPage.CollapseKeepsText | frontend/src/pages/ChatPage.jsx:216 | the replace changes white space only: the characters that are not white space stay, in order |
| ChatPage.CollapseFixed | frontend/src/pages/ChatPage.jsx:216 | a text with no white-space run and only plain spaces is left as it is |
| ChatPage.Cleaned | frontend/src/pages/ChatPage.jsx:216-221 | the cleaned title is the collapsed, trimmed text when it has at most 30 characters, else its first 30 plus "...". It is empty exactly for a blank text, does not start with white space, and is single-spaced |
| ChatPage.GenerateTitle | frontend/src/pages/ChatPage.jsx:215-226 | the title is the cleaned text with its first character upper-cased and the rest unchanged: at most 33 characters, empty exactly for a blank text, starting with neither white space nor a lower-case ASCII letter, single-spaced |
| ChatPage.UpperFirst | frontend/src/pages/ChatPage.jsx:224 | the first character is upper-cased and the rest is kept; the length is unchanged |
| ChatPage.TitleOfCleanText | frontend/src/pages/ChatPage.jsx:215-226 | a single-spaced, trimmed text of at most 30 characters only has its first character upper-cased |
| ChatPage.ToEntry | frontend/src/pages/ChatPage.jsx:70-73 | an entry takes `id`, else `_id`; its title is never empty ("Untitled" when missing); the other fields pass through |
| ChatPage.ListedAs | frontend/src/pages/ChatPage.jsx:65-83 | a reload whose closure saw the active id `guard`: a failed reload changes nothing. Otherwise the list is the mapped answer in order. When `guard` is empty, the first entry becomes active if there is one; otherwise the active id is left as it is |
| ChatPage.Listed | frontend/src/pages/ChatPage.jsx:65-83 | a reload from the current render: a failed reload changes nothing. Otherwise the list is the mapped answer in order; an active id is kept, and with none the first entry becomes active when there is one |
| ChatPage.SettledMembers | frontend/src/pages/ChatPage.jsx:178 | the filter keeps exactly the messages that are not optimistic |
| ChatPage.SettledConcat | frontend/src/pages/ChatPage.jsx:178 | the filter keeps order: `Settled(a + b) == Settled(a) + Settled(b)`, and one message is kept exactly when it is not optimistic |
| ChatPage.MergeKeepsOnlySent | frontend/src/pages/ChatPage.jsx:177-188 | after the merge exactly one optimistic message remains, the one just sent; every earlier optimistic message is dropped |
| ChatPage.SendCalls | frontend/src/pages/ChatPage.jsx:164-190 | the send request is always first. There are further calls exactly when it answered, and for a first message the second call is the rename to the generated title |
| ChatPage.SendBlankIsNoOp | frontend/src/pages/ChatPage.jsx:144 | a blank input changes nothing and sends nothing |
| ChatPage.SendClearsInput | frontend/src/pages/ChatPage.jsx:146-192 | a non-blank send clears the input and the stored draft, ends typing whatever happens, and sends the trimmed text first under the active id. It completes exactly when the reply arrives and, for a first message, the rename succeeds |
| ChatPage.SendFailureKeepsOptimistic | frontend/src/pages/ChatPage.jsx:158-194 | a send that throws, or a failed rename, leaves the optimistic message at the end of the list and the sidebar unchanged |
| ChatPage.SendReconciles | frontend/src/pages/ChatPage.jsx:177-188 | a completed send ends with the sent (still flagged) message and then the reply. It has exactly one optimistic message, keeps every confirmed message, and drops earlier optimistic ones |
| ChatPage.SendRenamesFirstOnly | frontend/src/pages/ChatPage.jsx:156-174 | "first" is decided before the insert. A first message is renamed under the id active at send time, before any reload; other messages make only the send and one reload |
| ChatPage.ChatPageState.constructor | frontend/src/pages/ChatPage.jsx:23-30 | the input starts from the stored draft; nothing is active, the lists are empty and nobody is typing |
| ChatPage.ChatPageState.SaveDraft | frontend/src/pages/ChatPage.jsx:43-49 | the draft is stored exactly when the input is not blank and removed otherwise; nothing else changes |
| ChatPage.ChatPageState.LoadList | frontend/src/pages/ChatPage.jsx:65-83 | the sidebar becomes `Listed` of the answer; messages, input and draft are untouched |
| ChatPage.ChatPageState.LoadListAs | frontend/src/pages/ChatPage.jsx:65-83 | the sidebar becomes `ListedAs` of the answer under the active id the closure saw; messages, input and draft are untouched |
| ChatPage.ChatPageState.OpenConversation | frontend/src/pages/ChatPage.jsx:86-107 | no id clears the messages and the active id. Otherwise the id becomes active, and the fetched messages replace the list unless the request failed |
| ChatPage.ChatPageState.Send | frontend/src/pages/ChatPage.jsx:142-195 | the state, the calls made and whether `send` returned normally are exactly those of `AfterSend`, whose two reloads both test the id active when `send` started (line 77 as closed over by `send`) |
| ChatPage.SendSelectsLastListed | frontend/src/pages/ChatPage.jsx:142-195 | after a completed send an active id that was set stays; with none, the first entry of the last reload becomes active, whatever the reload after the rename selected |
| ChatPage.ChatPageState.BeginSend | frontend/src/pages/ChatPage.jsx:146-159 | the draft is removed, the trimmed text is appended as one optimistic message, the input is cleared, and "first" is decided on the list before the insert |
| ChatPage.ChatPageState.AwaitReply | frontend/src/pages/ChatPage.jsx:161-194 | typing ends however it goes. It completes exactly when the reply arrives and any rename succeeds; on failure messages and sidebar are unchanged; on success the list is merged and the sidebar reloaded twice (first message) or once, each reload guarded by the send-time id `id` |
| ChatPage.ChatPageState.ReplyArrived | frontend/src/pages/ChatPage.jsx:169-192 | once the reply is in: for a first message the rename and a reload, then the merge (confirmed messages, the sent one, the reply), the final reload and typing cleared, both reloads guarded by the send-time id; the calls are send, rename, reload, reload for a first message and send, reload otherwise |
| ChatPage.ChatPageState.Reconcile | frontend/src/pages/ChatPage.jsx:177-190 | the list becomes the confirmed messages, then the sent message, then the reply; then the sidebar is reloaded under the given guard id (`ListedAs`) |

Some functions have no row of their own. They define what the rows above refer to, and
the cited lines are where they come from:

- `ChatController.IsErrorReply`: the error-keyword test (backend/src/controllers/chatController.js:106).
- `ChatController.AssistantPreview`: the `assistantPreview` field (backend/src/controllers/chatController.js:125-127).
- `Structurer.Sections`: the choice between key points and paragraph sections (backend/src/controllers/chatController.js:31-45).
- `Structurer.IsListLine`, `Structurer.StripDashes` and `Structurer.StripNumber`: the bullet pattern and the two replaces (backend/src/controllers/chatController.js:31-35).
- `Structurer.SepLen` and `Structurer.MatchLengths`: where the two split patterns match (backend/src/controllers/chatController.js:25 and 42).
- `ChatPage.Settled`: the filter of optimistic messages (frontend/src/pages/ChatPage.jsx:178).
- `ChatPage.AfterSend`: the outcome of one `send` (frontend/src/pages/ChatPage.jsx:142-195).

## Left out

- Persistence is an in-memory map. This covers `findById`, `save`, `findByIdAndDelete` and the `sort({ updatedAt: -1 })` of the listing; the listing order is a given sequence that satisfies `IsListing`.
- `findById` on a malformed id (a cast error answered with status 500 by the error middleware) is not modelled. A malformed id is simply not in the map, so get, rename and send answer 404 for it.
- ChatController.ValidObjectId accepts exactly 24 hexadecimal digits. The twelve-character strings that some driver versions also accept are not modelled.
- ChatController.ChatServer.SendMessage reads one clock value, `now`, for both messages' `createdAt`, the structure's `meta.time` and `updatedAt`. The source reads the clock separately for each, so their relative order is not modelled.
- `updatedAt` is set on every save, including a rename to the same title. The database leaves it alone when nothing changed.
- The text of the system prompt (backend/src/services/geminiService.js:11-38) is a placeholder constant. Only its position in the message list is modelled.
- `JSON.stringify(response)` is not computed. A response without string content carries its serialisation as a given string.
- `console.error` logging, the provider client, the network and the API key are not modelled.
- `generateReply`'s exception handler (backend/src/services/chatService.js:37-39) has no counterpart, because the gateway it wraps never throws.
- `saveConversation` (backend/src/services/chatService.js:44-47) is the store write that `ChatServer.Save` models; it is not a separate member.
- Lengths and slices count characters (Unicode scalar values), not UTF-16 code units. Text outside the Basic Multilingual Plane is cut at different places in the source.
- `toUpperCase` is modelled on ASCII letters only. `generateTitle` leaves other first characters as they are.
- The `i` flag of the error-keyword test is modelled as ASCII case folding.
- `\s` in the bullet pattern could in principle let a match span lines. List detection is modelled line by line.
- The client's toast messages, the 80 ms scroll timer, scrolling, textarea sizing, the sidebar drawer and the loading flags are not modelled.
- The 300 ms debounce is not modelled: `SaveDraft` is the effect at the moment it fires.
- React's batching of state updates and the effect that opens a conversation when `activeId` changes are not modelled. Each handler runs to completion in sequence.
- Overlapping `send` calls on the client and concurrent writes to one conversation on the server are not modelled.
- `newConversation`, `renameConversation` and `deleteConversation` on the page are thin wrappers around a request and a reload (`LoadList`), and have no members of their own.
- Authentication (`req.user`, tokens) is outside this model. The caller's id is a parameter, and handlers that create documents require it to be non-empty.
- Each new document's id is a parameter. It is required to be an unused object id, as the database's id generator guarantees.
