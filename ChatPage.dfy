/**
 * The chat page controller (frontend/src/pages/ChatPage.jsx): the automatic title, the
 * optimistic send and its reconciliation, the draft kept in local storage, and the
 * sidebar list. Server answers are parameters: `None` stands for a request that throws.
 * A missing id (`null`) is written "".
 */
module ChatPage {
  import opened Wrappers
  import opened Text
  import opened Model

  const GeneratedTitleCap := 30
  const UntitledTitle := "Untitled"

  // ------------------------------------------------------------------ generateTitle

  /** Every run of white space replaced by one ' ' (the global replace of `\s+`). */
  function Collapse(s: string): (r: string)
    ensures |r| <= |s|
    decreases |s|
  {
    if s == [] then []
    else if IsSpace(s[0]) then [' '] + Collapse(TrimStart(s[1..]))
    else [s[0]] + Collapse(s[1..])
  }

  /** No two white-space characters side by side, and every white space is a plain ' '. */
  predicate SingleSpaced(s: string) {
    && (forall i :: 0 <= i < |s| ==> IsSpace(s[i]) ==> s[i] == ' ')
    && (forall i :: 0 <= i < |s| - 1 ==> !(IsSpace(s[i]) && IsSpace(s[i + 1])))
  }

  lemma {:induction false} CollapseSingleSpaced(s: string)
    ensures SingleSpaced(Collapse(s))
    ensures Collapse(s) != [] ==> (IsSpace(Collapse(s)[0]) <==> IsSpace(s[0]))
    decreases |s|
  {
    if s == [] {
    } else if IsSpace(s[0]) {
      var t := TrimStart(s[1..]);
      CollapseSingleSpaced(t);
      var c := Collapse(t);
      assert Collapse(s) == [' '] + c;
      assert c != [] ==> !IsSpace(c[0]);
    } else {
      CollapseSingleSpaced(s[1..]);
      assert Collapse(s) == [s[0]] + Collapse(s[1..]);
    }
  }

  lemma {:induction false} CollapseBlank(s: string)
    ensures IsBlank(Collapse(s)) <==> IsBlank(s)
    decreases |s|
  {
    if s == [] {
    } else if IsSpace(s[0]) {
      CollapseBlank(TrimStart(s[1..]));
      CollapseBlankStep(s);
    } else {
      assert !IsSpace(s[0]);
      assert Collapse(s)[0] == s[0];
    }
  }

  /** The step for a leading white space: blankness survives when it does for the rest. */
  lemma CollapseBlankStep(s: string)
    requires s != [] && IsSpace(s[0])
    requires IsBlank(Collapse(TrimStart(s[1..]))) <==> IsBlank(TrimStart(s[1..]))
    ensures IsBlank(Collapse(s)) <==> IsBlank(s)
  {
    var t := TrimStart(s[1..]);
    CollapseSpaceHead(s);
    TrimmedBlank(t);
    BlankAfterSpace(s);
  }

  lemma CollapseSpaceHead(s: string)
    requires s != [] && IsSpace(s[0])
    ensures Collapse(s) == [' '] + Collapse(TrimStart(s[1..]))
    ensures IsBlank(Collapse(s)) <==> IsBlank(Collapse(TrimStart(s[1..])))
  {
    BlankConcat([' '], Collapse(TrimStart(s[1..])));
  }

  /** A text that starts with no white space is blank only when empty. */
  lemma TrimmedBlank(t: string)
    requires t == [] || !IsSpace(t[0])
    ensures IsBlank(t) <==> t == []
  {
  }

  /** A text opening with white space is blank exactly when the rest trims to nothing. */
  lemma BlankAfterSpace(s: string)
    requires s != [] && IsSpace(s[0])
    ensures IsBlank(s) <==> TrimStart(s[1..]) == []
  {
    TrimStartEmpty(s[1..]);
    BlankTail(s);
  }

  lemma BlankTail(s: string)
    requires s != [] && IsSpace(s[0])
    ensures IsBlank(s) <==> IsBlank(s[1..])
  {
    if IsBlank(s[1..]) {
      forall i | 0 <= i < |s| ensures IsSpace(s[i]) {
        if i > 0 { assert s[i] == s[1..][i - 1]; }
      }
    }
  }

  /** The characters of `s` that are not white space, in order. */
  function NonSpace(s: string): (r: string)
    ensures |r| <= |s|
  {
    if s == [] then []
    else (if IsSpace(s[0]) then [] else [s[0]]) + NonSpace(s[1..])
  }

  lemma {:induction false} NonSpaceConcat(a: string, b: string)
    ensures NonSpace(a + b) == NonSpace(a) + NonSpace(b)
  {
    if a == [] {
      assert a + b == b;
    } else {
      var h := if IsSpace(a[0]) then [] else [a[0]];
      assert (a + b)[0] == a[0];
      assert (a + b)[1..] == a[1..] + b;
      NonSpaceConcat(a[1..], b);
      var x, y := NonSpace(a[1..]), NonSpace(b);
      assert NonSpace(a + b) == h + (x + y);
      assert h + (x + y) == (h + x) + y;
    }
  }

  lemma {:induction false} NonSpaceBlank(s: string)
    requires IsBlank(s)
    ensures NonSpace(s) == []
  {
    if s != [] {
      NonSpaceBlank(s[1..]);
    }
  }

  /** Leading white space carries no text. */
  lemma NonSpaceTrimStart(s: string)
    ensures NonSpace(TrimStart(s)) == NonSpace(s)
  {
    var t := TrimStart(s);
    var k := |s| - |t|;
    assert s == s[..k] + t;
    NonSpaceConcat(s[..k], t);
    NonSpaceBlank(s[..k]);
  }

  /** Collapsing changes white space only: the other characters stay, in order. */
  lemma {:induction false} CollapseKeepsText(s: string)
    ensures NonSpace(Collapse(s)) == NonSpace(s)
    decreases |s|
  {
    if s != [] {
      if IsSpace(s[0]) {
        var t := TrimStart(s[1..]);
        CollapseKeepsText(t);
        NonSpaceTrimStart(s[1..]);
        var c := Collapse(t);
        assert Collapse(s) == [' '] + c;
        assert ([' '] + c)[1..] == c;
      } else {
        CollapseKeepsText(s[1..]);
        var c := Collapse(s[1..]);
        assert Collapse(s) == [s[0]] + c;
        assert ([s[0]] + c)[1..] == c;
      }
    }
  }

  /** A text that is already single-spaced is left as it is. */
  lemma {:induction false} CollapseFixed(s: string)
    requires SingleSpaced(s)
    ensures Collapse(s) == s
    decreases |s|
  {
    if s != [] {
      var tail := s[1..];
      SliceSingleSpaced(s, 1, |s|);
      CollapseFixed(tail);
      if IsSpace(s[0]) {
        SpaceThenText(s);
      }
      HeadTail(s);
    }
  }

  /** A character that is not white space is kept, and collapsing goes on after it. */
  lemma CollapseNonSpaceHead(c: char, s: string)
    requires !IsSpace(c)
    ensures Collapse([c] + s) == [c] + Collapse(s)
  {
    assert ([c] + s)[0] == c;
    assert ([c] + s)[1..] == s;
  }

  /** No white-space run spans a boundary after a character that is not white space. */
  lemma {:induction false} CollapseConcat(a: string, b: string)
    requires a == [] || !IsSpace(a[|a| - 1])
    ensures Collapse(a + b) == Collapse(a) + Collapse(b)
    decreases |a|
  {
    if a == [] {
      assert a + b == b;
    } else if IsSpace(a[0]) {
      var x := a[1..];
      assert x[|x| - 1] == a[|a| - 1];
      var t := TrimStart(x);
      TrimStartEmpty(x);
      TrimStartConcat(x, b);
      assert t[|t| - 1] == x[|x| - 1];
      CollapseConcat(t, b);
      CollapseSpaceStep(a, b, t);
    } else {
      CollapseConcat(a[1..], b);
      CollapseTextStep(a, b);
    }
  }

  lemma CollapseSpaceStep(a: string, b: string, t: string)
    requires a != [] && IsSpace(a[0]) && t == TrimStart(a[1..]) && TrimStart(a[1..] + b) == t + b
    requires Collapse(t + b) == Collapse(t) + Collapse(b)
    ensures Collapse(a + b) == Collapse(a) + Collapse(b)
  {
    ConcatHead(a, b);
    CollapseSpaceUnfold(a + b);
    assert Collapse(a + b) == [' '] + Collapse(t + b);
    CollapseSpaceUnfold(a);
    ConcatAssoc([' '], Collapse(t), Collapse(b));
  }

  lemma CollapseSpaceUnfold(s: string)
    requires s != [] && IsSpace(s[0])
    ensures Collapse(s) == [' '] + Collapse(TrimStart(s[1..]))
  {
  }

  lemma CollapseTextStep(a: string, b: string)
    requires a != [] && !IsSpace(a[0])
    requires Collapse(a[1..] + b) == Collapse(a[1..]) + Collapse(b)
    ensures Collapse(a + b) == Collapse(a) + Collapse(b)
  {
    ConcatHead(a, b);
    ConcatAssoc([a[0]], Collapse(a[1..]), Collapse(b));
  }

  /**
   * `replace(/\s+/g, " ")` on one run: a non-empty stretch of white space between text that
   * does not end and text that does not start with white space becomes exactly one ' '.
   */
  lemma CollapseRun(a: string, w: string, b: string)
    requires w != [] && IsBlank(w)
    requires a == [] || !IsSpace(a[|a| - 1])
    requires b == [] || !IsSpace(b[0])
    ensures Collapse(a + w + b) == Collapse(a) + [' '] + Collapse(b)
  {
    assert a + w + b == a + (w + b);
    CollapseConcat(a, w + b);
    CollapseBlankHead(w, b);
    ConcatAssoc(Collapse(a), [' '], Collapse(b));
  }

  /** A white-space run at the front becomes one ' ' before the rest. */
  lemma CollapseBlankHead(w: string, b: string)
    requires w != [] && IsBlank(w)
    requires b == [] || !IsSpace(b[0])
    ensures Collapse(w + b) == [' '] + Collapse(b)
  {
    ConcatHead(w, b);
    assert IsBlank(w[1..]) by {
      forall i | 0 <= i < |w| - 1 ensures IsSpace(w[1..][i]) {
        assert w[1..][i] == w[i + 1];
      }
    }
    TrimStartBlankThen(w[1..], b);
  }

  /** In a single-spaced text, a white space is a ' ' and what follows it has no leading white space. */
  lemma SpaceThenText(s: string)
    requires SingleSpaced(s) && s != [] && IsSpace(s[0])
    ensures s[0] == ' ' && TrimStart(s[1..]) == s[1..]
  {
    assert s[1..] != [] ==> s[1..][0] == s[1];
  }

  lemma HeadTail<T>(s: seq<T>)
    requires s != []
    ensures s == [s[0]] + s[1..]
  {
  }

  lemma SliceSingleSpaced(s: string, a: nat, b: nat)
    requires a <= b <= |s| && SingleSpaced(s)
    ensures SingleSpaced(s[a..b])
  {
    var t := s[a..b];
    forall i | 0 <= i < |t| - 1 ensures !(IsSpace(t[i]) && IsSpace(t[i + 1])) {
      assert t[i] == s[a + i] && t[i + 1] == s[a + i + 1];
    }
  }

  lemma TrimSingleSpaced(s: string)
    requires SingleSpaced(s)
    ensures SingleSpaced(Trim(s))
  {
    var ts := TrimStart(s);
    SliceSingleSpaced(s, |s| - |ts|, |s|);
    var r := TrimEnd(ts);
    SliceSingleSpaced(ts, 0, |r|);
  }

  function UpperAscii(c: char): (u: char)
    ensures IsSpace(u) <==> IsSpace(c)
    ensures !('a' <= u <= 'z')
  {
    if 'a' <= c <= 'z' then (c as int - 32) as char else c
  }

  /** `s.charAt(0).toUpperCase() + s.slice(1)` */
  function UpperFirst(s: string): (r: string)
    ensures |r| == |s| && (r != [] ==> r[1..] == s[1..])
    ensures r != [] ==> r[0] == UpperAscii(s[0])
  {
    if s == [] then [] else [UpperAscii(s[0])] + s[1..]
  }

  lemma UpperFirstSingleSpaced(s: string)
    requires SingleSpaced(s)
    ensures SingleSpaced(UpperFirst(s))
  {
    var r := UpperFirst(s);
    forall i | 0 <= i < |r| ensures r[i] == s[i] || (i == 0 && (IsSpace(r[i]) <==> IsSpace(s[i]))) {
      if i > 0 {
        assert r[i] == r[1..][i - 1];
      }
    }
  }

  lemma EllipsizeSingleSpaced(s: string, n: nat)
    requires SingleSpaced(s) && 0 < n
    ensures SingleSpaced(Ellipsize(s, n))
    ensures s != [] ==> Ellipsize(s, n)[0] == s[0]
  {
    if |s| > n {
      var e := Ellipsize(s, n);
      SliceSingleSpaced(s, 0, n);
      assert e == s[..n] + "...";
      forall i | 0 <= i < |e| ensures i < n ==> e[i] == s[i]
        ensures i >= n ==> e[i] == '.'
      {
      }
    }
  }

  /** The text before upper-casing: collapsed, trimmed and cut. */
  function Cleaned(text: string): (c: string)
    ensures var tc := Trim(Collapse(text));
      && (|tc| <= GeneratedTitleCap ==> c == tc)
      && (|tc| > GeneratedTitleCap ==> c == tc[..GeneratedTitleCap] + "...")
    ensures |c| <= GeneratedTitleCap + 3
    ensures c == [] <==> IsBlank(text)
    ensures c != [] ==> !IsSpace(c[0])
    ensures SingleSpaced(c)
  {
    var tr := Trim(Collapse(text));
    CollapseBlank(text);
    CollapseSingleSpaced(text);
    TrimSingleSpaced(Collapse(text));
    EllipsizeSingleSpaced(tr, GeneratedTitleCap);
    Ellipsize(tr, GeneratedTitleCap)
  }

  /**
   * `generateTitle`: white-space runs collapsed, trimmed, cut to 30 characters plus "..."
   * when longer, first letter upper-cased (ASCII letters only).
   */
  function GenerateTitle(text: string): (t: string)
    ensures var c := Cleaned(text);
      |t| == |c| && (t != [] ==> t[0] == UpperAscii(c[0]) && t[1..] == c[1..])
    ensures |t| <= GeneratedTitleCap + 3
    ensures t == [] <==> IsBlank(text)
    ensures t != [] ==> !IsSpace(t[0]) && !('a' <= t[0] <= 'z')
    ensures SingleSpaced(t)
  {
    UpperFirstSingleSpaced(Cleaned(text));
    UpperFirst(Cleaned(text))
  }

  /** A short text with single spaces and nothing to trim only has its first letter raised. */
  lemma TitleOfCleanText(s: string)
    requires SingleSpaced(s) && IsTrimmed(s) && |s| <= GeneratedTitleCap
    ensures GenerateTitle(s) == UpperFirst(s)
  {
    CleanedOfCleanText(s);
    TitleOfCleaned(s);
  }

  lemma CleanedOfCleanText(s: string)
    requires SingleSpaced(s) && IsTrimmed(s) && |s| <= GeneratedTitleCap
    ensures Cleaned(s) == s
  {
    CollapseFixed(s);
    TrimFixed(s);
  }

  lemma TitleOfCleaned(s: string)
    requires Cleaned(s) == s
    ensures GenerateTitle(s) == UpperFirst(s)
  {
  }
  // ------------------------------------------------------------------ page state

  /** A message as the page holds it; `optimistic` marks a user message shown before the server answered. */
  datatype ClientMessage = ClientMessage(role: Role, content: string, createdAt: int, optimistic: bool)

  /** The `lastMessage` of a listing entry, passed through as received. */
  datatype LastLine = LastLine(role: Role, content: string)

  /** A listing entry as received: `id`, or `_id` in older answers; empty strings stand for missing fields. */
  datatype RawEntry = RawEntry(id: string, altId: string, title: string, updatedAt: int, lastMessage: Option<LastLine>)

  /** A sidebar entry. */
  datatype Entry = Entry(id: string, title: string, updatedAt: int, lastMessage: Option<LastLine>)

  /** The requests the page sends, in order. */
  datatype Call = SendCall(convId: string, message: string) | RenameCall(id: string, title: string) | ListCall

  /** The sidebar part of the state. */
  datatype Sidebar = Sidebar(conversations: seq<Entry>, activeId: string)

  /** `{ id: c.id || c._id, title: c.title || "Untitled", ... }` */
  function ToEntry(r: RawEntry): (e: Entry)
    ensures e.id == (if r.id != "" then r.id else r.altId)
    ensures e.title != ""
    ensures r.title != "" ==> e.title == r.title
    ensures e.updatedAt == r.updatedAt && e.lastMessage == r.lastMessage
  {
    Entry(if r.id != "" then r.id else r.altId, if r.title != "" then r.title else UntitledTitle, r.updatedAt, r.lastMessage)
  }

  /**
   * The sidebar after a `loadList` whose closure saw the active id `guard`, with answer
   * `res`: a failed request changes nothing; otherwise the mapped list, in order, and the
   * first id selected when `guard` is empty. The id tested is the one of the render that
   * made the closure, which need not be the one the sidebar holds by then.
   */
  function ListedAs(sb: Sidebar, res: Option<seq<RawEntry>>, guard: string): (r: Sidebar)
    ensures res.None? ==> r == sb
    ensures res.Some? ==> |r.conversations| == |res.value|
    ensures res.Some? ==> forall i :: 0 <= i < |res.value| ==> r.conversations[i] == ToEntry(res.value[i])
    ensures guard != "" ==> r.activeId == sb.activeId
    ensures guard == "" && res.Some? && res.value != [] ==> r.activeId == r.conversations[0].id
    ensures guard == "" && (res.None? || res.value == []) ==> r.activeId == sb.activeId
  {
    if res.None? then sb
    else
      var convs := seq(|res.value|, i requires 0 <= i < |res.value| => ToEntry(res.value[i]));
      Sidebar(convs, if guard == "" && convs != [] then convs[0].id else sb.activeId)
  }

  /** `loadList` from the current render: the guard is the id the sidebar holds. */
  function Listed(sb: Sidebar, res: Option<seq<RawEntry>>): (r: Sidebar)
    ensures res.None? ==> r == sb
    ensures res.Some? ==> |r.conversations| == |res.value|
    ensures res.Some? ==> forall i :: 0 <= i < |res.value| ==> r.conversations[i] == ToEntry(res.value[i])
    ensures sb.activeId != "" ==> r.activeId == sb.activeId
    ensures sb.activeId == "" && res.Some? && res.value != [] ==> r.activeId == r.conversations[0].id
    ensures sb.activeId == "" && (res.None? || res.value == []) ==> r.activeId == ""
  {
    ListedAs(sb, res, sb.activeId)
  }

  /** The messages the server has confirmed: the list without optimistic entries, in order. */
  function Settled(ms: seq<ClientMessage>): (r: seq<ClientMessage>)
    ensures |r| <= |ms|
  {
    if ms == [] then []
    else if ms[|ms| - 1].optimistic then Settled(ms[..|ms| - 1])
    else Settled(ms[..|ms| - 1]) + [ms[|ms| - 1]]
  }

  /** An optimistic message appended leaves the confirmed messages as they were. */
  lemma SettledSkipsOptimistic(ms: seq<ClientMessage>, m: ClientMessage)
    requires m.optimistic
    ensures Settled(ms + [m]) == Settled(ms)
  {
    assert (ms + [m])[..|ms|] == ms;
  }

  /**
   * The filter goes message by message and keeps the order: on a + b it is its result on a
   * followed by its result on b, and one message is kept exactly when it is not optimistic.
   */
  lemma {:induction false} SettledConcat(a: seq<ClientMessage>, b: seq<ClientMessage>)
    ensures Settled(a + b) == Settled(a) + Settled(b)
    ensures |a| == 1 ==> Settled(a) == if a[0].optimistic then [] else a
    decreases |b|
  {
    if |a| == 1 {
      assert a[..0] == [];
    }
    if b == [] {
      assert a + b == a;
    } else {
      var init := b[..|b| - 1];
      SettledConcat(a, init);
      assert (a + b)[..|a + b| - 1] == a + init;
      assert (a + b)[|a + b| - 1] == b[|b| - 1];
      if !b[|b| - 1].optimistic {
        ConcatAssoc(Settled(a), Settled(init), [b[|b| - 1]]);
      }
    }
  }

  /** `Settled` keeps exactly the confirmed messages. */
  lemma {:induction false} SettledMembers(ms: seq<ClientMessage>)
    ensures forall m :: m in Settled(ms) <==> m in ms && !m.optimistic
    decreases |ms|
  {
    if ms != [] {
      var init := ms[..|ms| - 1];
      SettledMembers(init);
      assert ms == init + [ms[|ms| - 1]];
    }
  }

  /** The reconciled list: settled messages, the sent message (still flagged), then the reply. */
  function Merged(ms: seq<ClientMessage>, sent: ClientMessage, reply: ClientMessage): seq<ClientMessage> {
    Settled(ms) + [sent, reply]
  }

  function CountOptimistic(ms: seq<ClientMessage>): nat {
    if ms == [] then 0 else CountOptimistic(ms[..|ms| - 1]) + (if ms[|ms| - 1].optimistic then 1 else 0)
  }

  lemma {:induction false} CountAppend(a: seq<ClientMessage>, b: seq<ClientMessage>)
    ensures CountOptimistic(a + b) == CountOptimistic(a) + CountOptimistic(b)
    decreases |b|
  {
    if b == [] {
      assert a + b == a;
    } else {
      CountAppend(a, b[..|b| - 1]);
      assert (a + b)[..|a + b| - 1] == a + b[..|b| - 1];
    }
  }

  lemma {:induction false} SettledHasNoOptimistic(ms: seq<ClientMessage>)
    ensures CountOptimistic(Settled(ms)) == 0
    decreases |ms|
  {
    if ms != [] {
      SettledHasNoOptimistic(ms[..|ms| - 1]);
      if !ms[|ms| - 1].optimistic {
        CountAppend(Settled(ms[..|ms| - 1]), [ms[|ms| - 1]]);
      }
    }
  }

  /**
   * After reconciliation exactly one optimistic message is left, the one just sent: any
   * earlier message still waiting for its answer is dropped.
   */
  lemma MergeKeepsOnlySent(ms: seq<ClientMessage>, sent: ClientMessage, reply: ClientMessage)
    requires sent.optimistic && !reply.optimistic
    ensures CountOptimistic(Merged(ms, sent, reply)) == 1
    ensures forall m :: m in ms && m.optimistic && m != sent ==> m !in Merged(ms, sent, reply)
  {
    SettledHasNoOptimistic(ms);
    SettledMembers(ms);
    CountAppend(Settled(ms), [sent, reply]);
    assert [sent, reply][..1] == [sent];
    assert [sent][..0] == [];
    assert CountOptimistic([sent]) == 1;
  }

  /**
   * The calls one `send` makes, by how far it got: the send, then for a first message the
   * rename and a reload, then the final reload.
   */
  function SendCalls(activeId: string, text: string, first: bool, replied: bool, renamed: bool): (cs: seq<Call>)
    ensures cs != [] && cs[0] == SendCall(activeId, text)
    ensures |cs| >= 2 <==> replied
    ensures replied && first ==> |cs| >= 2 && cs[1] == RenameCall(activeId, GenerateTitle(text))
    ensures cs[|cs| - 1] == ListCall <==> replied && (!first || renamed)
  {
    if !replied then [SendCall(activeId, text)]
    else if !first then [SendCall(activeId, text), ListCall]
    else if !renamed then [SendCall(activeId, text), RenameCall(activeId, GenerateTitle(text))]
    else [SendCall(activeId, text), RenameCall(activeId, GenerateTitle(text)), ListCall, ListCall]
  }

  /** The page state as a value. */
  datatype View = View(messages: seq<ClientMessage>, input: string, draft: Option<string>, sidebar: Sidebar, isTyping: bool)

  /** The end of one `send`: the new state, the calls made, and whether it returned normally. */
  datatype Outcome = Outcome(view: View, calls: seq<Call>, completed: bool)

  /**
   * One `send` on state `v`. A blank input changes nothing. Otherwise the draft goes, the
   * trimmed text is shown at once as an optimistic message and the input is cleared; a
   * send that throws, or a failed rename of a first message, ends there (`send` has no
   * handler). Else the list is reloaded after a rename, the reply is merged, and the list
   * is reloaded again; both reloads test the id active when `send` started. Typing ends
   * in every case.
   */
  function AfterSend(v: View, sentAt: int, repliedAt: int, reply: Option<string>, renameOk: bool,
                     firstList: Option<seq<RawEntry>>, lastList: Option<seq<RawEntry>>): Outcome
  {
    if Trim(v.input) == "" then Outcome(v, [], false)
    else
      var text := Trim(v.input);
      var sent := ClientMessage(User, text, sentAt, true);
      var first := v.messages == [];
      var shown := View(v.messages + [sent], "", None, v.sidebar, false);
      if reply.None? || (first && !renameOk) then
        Outcome(shown, SendCalls(v.sidebar.activeId, text, first, reply.Some?, renameOk), false)
      else
        // both reloads run the `loadList` of the render that started `send`
        var guard := v.sidebar.activeId;
        var sb := if first then ListedAs(v.sidebar, firstList, guard) else v.sidebar;
        var merged := Merged(v.messages, sent, ClientMessage(Assistant, reply.value, repliedAt, false));
        Outcome(View(merged, "", None, ListedAs(sb, lastList, guard), false),
                SendCalls(v.sidebar.activeId, text, first, true, renameOk), true)
  }

  /** A blank input: no state change and no request. */
  lemma SendBlankIsNoOp(v: View, sentAt: int, repliedAt: int, reply: Option<string>, renameOk: bool,
                        firstList: Option<seq<RawEntry>>, lastList: Option<seq<RawEntry>>)
    requires IsBlank(v.input)
    ensures AfterSend(v, sentAt, repliedAt, reply, renameOk, firstList, lastList) == Outcome(v, [], false)
  {
  }

  /**
   * A non-blank input, whatever the server does: the input and the stored draft are
   * cleared, typing ends, and the trimmed text is sent first, under the active id.
   */
  lemma SendClearsInput(v: View, sentAt: int, repliedAt: int, reply: Option<string>, renameOk: bool,
                        firstList: Option<seq<RawEntry>>, lastList: Option<seq<RawEntry>>)
    requires !IsBlank(v.input)
    ensures var out := AfterSend(v, sentAt, repliedAt, reply, renameOk, firstList, lastList);
      && out.view.input == "" && out.view.draft.None? && !out.view.isTyping
      && out.calls[0] == SendCall(v.sidebar.activeId, Trim(v.input))
      && (out.completed <==> reply.Some? && (v.messages == [] ==> renameOk))
  {
  }

  /** A send that throws or a failed rename leaves the optimistic message in the list and the sidebar as it was. */
  lemma SendFailureKeepsOptimistic(v: View, sentAt: int, repliedAt: int, reply: Option<string>, renameOk: bool,
                                   firstList: Option<seq<RawEntry>>, lastList: Option<seq<RawEntry>>)
    requires !IsBlank(v.input)
    requires reply.None? || (v.messages == [] && !renameOk)
    ensures var out := AfterSend(v, sentAt, repliedAt, reply, renameOk, firstList, lastList);
      && !out.completed
      && out.view.messages == v.messages + [ClientMessage(User, Trim(v.input), sentAt, true)]
      && out.view.sidebar == v.sidebar
  {
  }

  /**
   * A completed send leaves exactly one optimistic message, the one just sent, right
   * before the reply; every confirmed message is kept and earlier optimistic ones are gone.
   */
  lemma {:induction false} SendReconciles(v: View, sentAt: int, repliedAt: int, reply: Option<string>, renameOk: bool,
                                          firstList: Option<seq<RawEntry>>, lastList: Option<seq<RawEntry>>)
    requires !IsBlank(v.input) && reply.Some? && (v.messages == [] ==> renameOk)
    ensures var out := AfterSend(v, sentAt, repliedAt, reply, renameOk, firstList, lastList);
      var ms := out.view.messages;
      && out.completed
      && |ms| >= 2
      && ms[|ms| - 2] == ClientMessage(User, Trim(v.input), sentAt, true)
      && ms[|ms| - 1] == ClientMessage(Assistant, reply.value, repliedAt, false)
      && CountOptimistic(ms) == 1
      && (forall m :: m in v.messages && !m.optimistic ==> m in ms)
      && (forall m :: m in v.messages && m.optimistic ==> m !in ms[..|ms| - 2])
  {
    var sent := ClientMessage(User, Trim(v.input), sentAt, true);
    var answer := ClientMessage(Assistant, reply.value, repliedAt, false);
    CompletedMessages(v, sentAt, repliedAt, reply, renameOk, firstList, lastList);
    MergedShape(v.messages, sent, answer);
  }

  lemma CompletedMessages(v: View, sentAt: int, repliedAt: int, reply: Option<string>, renameOk: bool,
                          firstList: Option<seq<RawEntry>>, lastList: Option<seq<RawEntry>>)
    requires !IsBlank(v.input) && reply.Some? && (v.messages == [] ==> renameOk)
    ensures var out := AfterSend(v, sentAt, repliedAt, reply, renameOk, firstList, lastList);
      && out.completed
      && out.view.messages == Merged(v.messages, ClientMessage(User, Trim(v.input), sentAt, true),
                                     ClientMessage(Assistant, reply.value, repliedAt, false))
  {
  }

  /** The merged list ends with the sent message and the reply, keeps the confirmed ones and drops the rest. */
  lemma MergedShape(prev: seq<ClientMessage>, sent: ClientMessage, answer: ClientMessage)
    requires sent.optimistic && !answer.optimistic
    ensures var ms := Merged(prev, sent, answer);
      && |ms| >= 2 && ms[|ms| - 2] == sent && ms[|ms| - 1] == answer
      && CountOptimistic(ms) == 1
      && (forall m :: m in prev && !m.optimistic ==> m in ms)
      && (forall m :: m in prev && m.optimistic ==> m !in ms[..|ms| - 2])
  {
    var ms := Merged(prev, sent, answer);
    MergeKeepsOnlySent(prev, sent, answer);
    SettledMembers(prev);
    assert ms[..|ms| - 2] == Settled(prev);
  }

  /**
   * Only a first message is renamed, under the id active when sending, to the generated
   * title, and the rename comes before any reload and before the reply is merged.
   */
  lemma SendRenamesFirstOnly(v: View, sentAt: int, repliedAt: int, reply: Option<string>, renameOk: bool,
                             firstList: Option<seq<RawEntry>>, lastList: Option<seq<RawEntry>>)
    requires !IsBlank(v.input) && reply.Some?
    ensures var out := AfterSend(v, sentAt, repliedAt, reply, renameOk, firstList, lastList);
      && (v.messages == [] ==> out.calls[1] == RenameCall(v.sidebar.activeId, GenerateTitle(Trim(v.input))))
      && (v.messages != [] ==> out.calls == [SendCall(v.sidebar.activeId, Trim(v.input)), ListCall])
  {
  }

  /**
   * The active id after a completed send: one that was set stays; with none, the first
   * entry of the last reload wins, whatever the reload after the rename selected.
   */
  lemma SendSelectsLastListed(v: View, sentAt: int, repliedAt: int, reply: Option<string>, renameOk: bool,
                              firstList: Option<seq<RawEntry>>, lastList: Option<seq<RawEntry>>)
    requires !IsBlank(v.input) && reply.Some? && (v.messages == [] ==> renameOk)
    ensures var out := AfterSend(v, sentAt, repliedAt, reply, renameOk, firstList, lastList);
      && (v.sidebar.activeId != "" ==> out.view.sidebar.activeId == v.sidebar.activeId)
      && (v.sidebar.activeId == "" && lastList.Some? && lastList.value != [] ==>
            out.view.sidebar.activeId == ToEntry(lastList.value[0]).id)
      && (lastList.Some? ==> |out.view.sidebar.conversations| == |lastList.value|)
  {
  }

  /** The page's state. */
  class ChatPageState {
    var messages: seq<ClientMessage>
    var input: string
    /** The draft under the local-storage key, if any. */
    var draft: Option<string>
    var activeId: string
    var conversations: seq<Entry>
    var isTyping: bool

    function SidebarOf(): Sidebar
      reads this
    {
      Sidebar(conversations, activeId)
    }

    function ViewOf(): View
      reads this
    {
      View(messages, input, draft, SidebarOf(), isTyping)
    }

    /** The initial state: the input starts from the stored draft. */
    constructor (storedDraft: Option<string>)
      ensures input == storedDraft.GetOr("") && draft == storedDraft
      ensures messages == [] && activeId == "" && conversations == [] && !isTyping
    {
      messages := [];
      input := storedDraft.GetOr("");
      draft := storedDraft;
      activeId := "";
      conversations := [];
      isTyping := false;
    }

    /** The draft effect once the debounce fires: the input is stored unless it is blank. */
    method SaveDraft()
      modifies this
      ensures !IsBlank(input) ==> draft == Some(input)
      ensures IsBlank(input) ==> draft.None?
      ensures messages == old(messages) && input == old(input) && conversations == old(conversations) && activeId == old(activeId)
      ensures isTyping == old(isTyping)
    {
      if Trim(input) != "" {
        draft := Some(input);
      } else {
        draft := None;
      }
    }

    /** `loadList` from the current render, with the server's answer `res` (`None`: the request failed and a notice is shown). */
    method LoadList(res: Option<seq<RawEntry>>)
      modifies this
      ensures Sidebar(conversations, activeId) == Listed(Sidebar(old(conversations), old(activeId)), res)
      ensures messages == old(messages) && input == old(input) && draft == old(draft) && isTyping == old(isTyping)
    {
      LoadListAs(res, activeId);
    }

    /** `loadList` from the render in which the active id was `guard`. */
    method LoadListAs(res: Option<seq<RawEntry>>, guard: string)
      modifies this
      ensures Sidebar(conversations, activeId) == ListedAs(Sidebar(old(conversations), old(activeId)), res, guard)
      ensures messages == old(messages) && input == old(input) && draft == old(draft) && isTyping == old(isTyping)
    {
      if res.None? {
        return;
      }
      var convs := seq(|res.value|, i requires 0 <= i < |res.value| => ToEntry(res.value[i]));
      conversations := convs;
      if guard == "" && |convs| > 0 {
        activeId := convs[0].id;
      }
    }

    /**
     * `openConversation`: no id clears the view; otherwise the id becomes active and the
     * fetched messages (`None`: the request failed) replace the list.
     */
    method OpenConversation(id: string, fetched: Option<seq<ClientMessage>>)
      modifies this
      ensures id == "" ==> messages == [] && activeId == ""
      ensures id != "" ==> activeId == id && messages == (if fetched.Some? then fetched.value else old(messages))
      ensures conversations == old(conversations) && input == old(input) && draft == old(draft)
      ensures isTyping == old(isTyping)
    {
      if id == "" {
        messages := [];
        activeId := "";
        return;
      }
      activeId := id;
      if fetched.Some? {
        messages := fetched.value;
      }
    }

    /**
     * `send`, proved against `AfterSend`. `reply` is the send request's answer (`None`: it
     * threw), `renameOk` whether the rename of a first message succeeded, `firstList` and
     * `lastList` the answers of the two list reloads.
     */
    method Send(sentAt: int, repliedAt: int, reply: Option<string>, renameOk: bool,
                firstList: Option<seq<RawEntry>>, lastList: Option<seq<RawEntry>>)
      returns (completed: bool, calls: seq<Call>)
      modifies this
      ensures Outcome(ViewOf(), calls, completed)
        == AfterSend(old(ViewOf()), sentAt, repliedAt, reply, renameOk, firstList, lastList)
    {
      ghost var v := ViewOf();
      if Trim(input) == "" {
        return false, [];
      }
      var text, sent, isFirst, id := BeginSend(sentAt);
      completed, calls := AwaitReply(text, sent, isFirst, id, reply, renameOk, repliedAt, firstList, lastList);
      ghost var out := AfterSend(v, sentAt, repliedAt, reply, renameOk, firstList, lastList);
      assert out.completed == completed && out.calls == calls;
      if completed {
        assert out.view.messages == messages;
        assert out.view.sidebar == SidebarOf();
      } else {
        assert out.view == View(v.messages + [sent], "", None, v.sidebar, false);
      }
    }

    /**
     * The rest of `send` once the optimistic message is shown: the answer, for a first
     * message the rename and a reload, then the merge and the final reload; typing ends
     * however it goes.
     */
    method AwaitReply(text: string, sent: ClientMessage, isFirst: bool, id: string, reply: Option<string>,
                      renameOk: bool, repliedAt: int, firstList: Option<seq<RawEntry>>, lastList: Option<seq<RawEntry>>)
      returns (completed: bool, calls: seq<Call>)
      modifies this
      ensures input == old(input) && draft == old(draft) && !isTyping
      ensures reply.None? ==>
        && !completed && calls == [SendCall(id, text)]
        && messages == old(messages) && conversations == old(conversations) && activeId == old(activeId)
      ensures reply.Some? && isFirst && !renameOk ==>
        && !completed && calls == [SendCall(id, text), RenameCall(id, GenerateTitle(text))]
        && messages == old(messages) && conversations == old(conversations) && activeId == old(activeId)
      ensures reply.Some? && (isFirst ==> renameOk) ==>
        && completed && calls == SendCalls(id, text, isFirst, true, true)
        && messages == Settled(old(messages)) + [sent, ClientMessage(Assistant, reply.value, repliedAt, false)]
        && Sidebar(conversations, activeId)
           == ListedAs(if isFirst then ListedAs(Sidebar(old(conversations), old(activeId)), firstList, id)
                       else Sidebar(old(conversations), old(activeId)), lastList, id)
    {
      // each outcome ends with the `finally` clearing the typing flag
      if reply.None? {
        completed, calls := false, [SendCall(id, text)];
        isTyping := false;
      } else if isFirst && !renameOk {
        completed, calls := false, [SendCall(id, text), RenameCall(id, GenerateTitle(text))];
        isTyping := false;
      } else {
        completed := true;
        calls := ReplyArrived(text, sent, isFirst, id, reply.value, repliedAt, firstList, lastList);
      }
    }

    /**
     * `send` once the answer is in (and, for a first message, the rename succeeded): the
     * reload after the rename, the merge, the final reload, and then the `finally`.
     */
    method ReplyArrived(text: string, sent: ClientMessage, isFirst: bool, id: string, answer: string,
                        repliedAt: int, firstList: Option<seq<RawEntry>>, lastList: Option<seq<RawEntry>>)
      returns (calls: seq<Call>)
      modifies this
      ensures input == old(input) && draft == old(draft) && !isTyping
      ensures calls == SendCalls(id, text, isFirst, true, true)
      ensures messages == Settled(old(messages)) + [sent, ClientMessage(Assistant, answer, repliedAt, false)]
      ensures Sidebar(conversations, activeId)
        == ListedAs(if isFirst then ListedAs(Sidebar(old(conversations), old(activeId)), firstList, id)
                    else Sidebar(old(conversations), old(activeId)), lastList, id)
    {
      if isFirst {
        // the rename and its reload; the final reload comes after the merge
        LoadListAs(firstList, id);
        calls := [SendCall(id, text), RenameCall(id, GenerateTitle(text)), ListCall, ListCall];
      } else {
        calls := [SendCall(id, text), ListCall];
      }
      Reconcile(sent, answer, repliedAt, lastList, id);
      isTyping := false;
    }

    /** The first steps of `send` for a non-blank input: draft removed, optimistic message shown, input cleared. */
    method BeginSend(sentAt: int) returns (text: string, sent: ClientMessage, isFirst: bool, id: string)
      requires !IsBlank(input)
      modifies this
      ensures text == Trim(old(input)) && sent == ClientMessage(User, text, sentAt, true)
      ensures isFirst == (old(messages) == []) && id == old(activeId)
      ensures messages == old(messages) + [sent] && Settled(messages) == Settled(old(messages))
      ensures input == "" && draft.None? && isTyping && conversations == old(conversations) && activeId == old(activeId)
    {
      text := Trim(input);
      draft := None;
      sent := ClientMessage(User, text, sentAt, true);
      isFirst := |messages| == 0;
      id := activeId;
      SettledSkipsOptimistic(messages, sent);
      messages := messages + [sent];
      input := "";
      isTyping := true;
    }

    /**
     * The reply merged in (optimistic messages dropped, the sent one kept), then the list
     * reloaded by the `loadList` that saw `guard` as the active id.
     */
    method Reconcile(sent: ClientMessage, answer: string, repliedAt: int, lastList: Option<seq<RawEntry>>, guard: string)
      modifies this
      ensures messages == Settled(old(messages)) + [sent, ClientMessage(Assistant, answer, repliedAt, false)]
      ensures Sidebar(conversations, activeId) == ListedAs(Sidebar(old(conversations), old(activeId)), lastList, guard)
      ensures input == old(input) && draft == old(draft) && isTyping == old(isTyping)
    {
      messages := Settled(messages) + [sent, ClientMessage(Assistant, answer, repliedAt, false)];
      LoadListAs(lastList, guard);
    }
  }
}
