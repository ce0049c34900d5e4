/**
 * The reply structurer of the chat controller (backend/src/controllers/chatController.js):
 * `extractFirstCodeBlock` and `buildStructured`. Each regular expression of the
 * source is written out as the leftmost-match search the JavaScript engine performs.
 */
module Structurer {
  import opened Wrappers
  import opened Text

  datatype CodeBlock = CodeBlock(language: string, value: string)
  datatype Section = Section(heading: string, items: seq<string>)
  datatype Meta = Meta(model: string, time: int)
  datatype Structured = Structured(
    text: string,
    title: string,
    summary: string,
    sections: seq<Section>,
    code: Option<CodeBlock>,
    preview: string,
    meta: Meta)

  const TitleCap := 120
  const SummaryCap := 300
  const PreviewCap := 120
  const MaxKeyPoints := 10
  const MaxParagraphSections := 3
  const MaxFragments := 4
  const ModelTag := "gemini"

  // ---------------------------------------------------------------- runs

  /** Length of the run of word characters starting at i. */
  function WordRun(s: string, i: nat): (n: nat)
    requires i <= |s|
    ensures i + n <= |s|
    ensures forall j :: i <= j < i + n ==> IsWordChar(s[j])
    ensures i + n == |s| || !IsWordChar(s[i + n])
    decreases |s| - i
  {
    if i < |s| && IsWordChar(s[i]) then 1 + WordRun(s, i + 1) else 0
  }

  /** Length of the run of white space starting at i. */
  function SpaceRun(s: string, i: nat): (n: nat)
    requires i <= |s|
    ensures i + n <= |s|
    ensures forall j :: i <= j < i + n ==> IsSpace(s[j])
    ensures i + n == |s| || !IsSpace(s[i + n])
    decreases |s| - i
  {
    if i < |s| && IsSpace(s[i]) then 1 + SpaceRun(s, i + 1) else 0
  }

  /** Length of the run of decimal digits starting at i. */
  function DigitRun(s: string, i: nat): (n: nat)
    requires i <= |s|
    ensures i + n <= |s|
    ensures forall j :: i <= j < i + n ==> IsDigit(s[j])
    ensures i + n == |s| || !IsDigit(s[i + n])
    decreases |s| - i
  {
    if i < |s| && IsDigit(s[i]) then 1 + DigitRun(s, i + 1) else 0
  }

  /** Length of the run of '-' starting at i. */
  function DashRun(s: string, i: nat): (n: nat)
    requires i <= |s|
    ensures i + n <= |s|
    ensures forall j :: i <= j < i + n ==> s[j] == '-'
    ensures i + n == |s| || s[i + n] != '-'
    decreases |s| - i
  {
    if i < |s| && s[i] == '-' then 1 + DashRun(s, i + 1) else 0
  }

  // ---------------------------------------------------------- code fence

  /**
   * The opening part of /```(\w+)?\n/ tried at p: three backquotes, an optional
   * tag of word characters and a newline. Gives the index where the body starts.
   * Backtracking into the tag cannot help: a shorter tag is followed by a word character.
   */
  function OpenFence(s: string, p: nat): (q: Option<nat>)
    requires p <= |s|
    ensures q.Some? ==> p + 4 <= q.value <= |s| && s[q.value - 1] == '\n'
    ensures q.Some? ==> s[p..p + 3] == "```" && forall i :: p + 3 <= i < q.value - 1 ==> IsWordChar(s[i])
  {
    if p + 3 <= |s| && s[p..p + 3] == "```" then
      var w := WordRun(s, p + 3);
      if p + 3 + w < |s| && s[p + 3 + w] == '\n' then Some(p + 3 + w + 1) else None
    else None
  }

  /** /```(\w+)?\n([\s\S]*?)```/ matches at p: an opening and, after it, a closing fence. */
  predicate FenceAt(s: string, p: nat)
    requires p <= |s|
  {
    OpenFence(s, p).Some? && IndexOf(s, "```", OpenFence(s, p).value).Some?
  }

  /** The leftmost position at or after p where the fence pattern matches. */
  function FirstFence(s: string, p: nat): (r: Option<nat>)
    requires p <= |s|
    ensures r.Some? ==> p <= r.value <= |s| && FenceAt(s, r.value)
    ensures r.Some? ==> forall j :: p <= j < r.value ==> !FenceAt(s, j)
    ensures r.None? ==> forall j :: p <= j <= |s| ==> !FenceAt(s, j)
    decreases |s| - p
  {
    if FenceAt(s, p) then Some(p)
    else if p == |s| then None
    else FirstFence(s, p + 1)
  }

  /** Where the first fenced block sits: its opening, the start of its body, its closing fence. */
  datatype Fence = Fence(start: nat, body: nat, close: nat)

  /** The match of the fence pattern that the source's `text.match(fenceRe)` returns. */
  function FindFence(text: string): (m: Option<Fence>)
    ensures m.None? <==> forall p :: 0 <= p <= |text| ==> !FenceAt(text, p)
    ensures m.Some? ==> m.value.start <= |text| && FenceAt(text, m.value.start)
    ensures m.Some? ==> forall j :: 0 <= j < m.value.start ==> !FenceAt(text, j)
    ensures m.Some? ==> m.value == FenceFrom(text, m.value.start)
  {
    match FirstFence(text, 0)
    case None => None
    case Some(p) => Some(FenceFrom(text, p))
  }

  /** The opening, body start and closing fence of the match at p. */
  function FenceFrom(s: string, p: nat): (f: Fence)
    requires p <= |s| && FenceAt(s, p)
    ensures f.start == p && f.start + 4 <= f.body <= f.close && f.close + 3 <= |s|
    ensures s[f.start..f.start + 3] == "```" && s[f.body - 1] == '\n' && s[f.close..f.close + 3] == "```"
    ensures forall i :: f.start + 3 <= i < f.body - 1 ==> IsWordChar(s[i])
    ensures forall j :: f.body <= j < f.close ==> !OccursAt(s, "```", j)
  {
    var q := OpenFence(s, p).value;
    var k := IndexOf(s, "```", q).value;
    Fence(p, q, k)
  }

  /**
   * `extractFirstCodeBlock`: nothing for empty text or text without a fence;
   * otherwise the first block's tag ("text" when it has none) and its trimmed body.
   */
  function ExtractFirstCodeBlock(text: string): (r: Option<CodeBlock>)
    ensures r.Some? <==> FindFence(text).Some?
    ensures r.Some? ==> IsTrimmed(r.value.value)
  {
    if text == "" then None
    else match FindFence(text)
      case None => None
      case Some(f) => Some(BlockAt(text, f))
  }

  /** The tag ("text" when it is empty) and the trimmed body of the block at f. */
  function BlockAt(text: string, f: Fence): (b: CodeBlock)
    requires f.start + 4 <= f.body <= f.close <= |text|
    ensures IsTrimmed(b.value)
  {
    var tag := text[f.start + 3..f.body - 1];
    CodeBlock(if tag == "" then "text" else tag, Trim(text[f.body..f.close]))
  }

  // --------------------------------------------------------------- title

  /** `text.split("\n\n")[0] || text`: the text before the first blank line, or all of it when that is empty. */
  function FirstBlock(text: string): (b: string)
    ensures IndexOf(text, "\n\n", 0).None? ==> b == text
    ensures IndexOf(text, "\n\n", 0).Some? && IndexOf(text, "\n\n", 0).value > 0
            ==> b == text[..IndexOf(text, "\n\n", 0).value]
    ensures IndexOf(text, "\n\n", 0) == Some(0) ==> b == text
  {
    match IndexOf(text, "\n\n", 0)
    case None => text
    case Some(i) => if i == 0 then text else text[..i]
  }

  predicate IsSentenceMark(c: char) { c == '.' || c == '!' || c == '?' }

  /** /^(.*?[\.\!\?])\s/ can end its group at i: a mark at i, white space after it, no line break before it. */
  predicate SentenceEndAt(s: string, i: nat) {
    && i + 1 < |s| && IsSentenceMark(s[i]) && IsSpace(s[i + 1])
    && forall j :: 0 <= j < i ==> !IsLineTerminator(s[j])
  }

  /** The lazy `.*?` takes the shortest candidate: the first i where the group can end. */
  function FirstSentenceEnd(s: string, from: nat): (r: Option<nat>)
    requires from <= |s|
    requires forall j :: 0 <= j < from ==> !IsLineTerminator(s[j])
    ensures r.Some? ==> from <= r.value && SentenceEndAt(s, r.value)
    ensures r.Some? ==> forall j :: from <= j < r.value ==> !SentenceEndAt(s, j)
    ensures r.None? ==> forall j :: from <= j ==> !SentenceEndAt(s, j)
    decreases |s| - from
  {
    if from + 1 >= |s| then None
    else if IsLineTerminator(s[from]) then None
    else if IsSentenceMark(s[from]) && IsSpace(s[from + 1]) then Some(from)
    else FirstSentenceEnd(s, from + 1)
  }

  /** The title: the first sentence of the first block (mark included), else the block; at most 120 characters. */
  function Title(text: string): (t: string)
    ensures |t| <= TitleCap
    ensures var b := FirstBlock(text);
      match FirstSentenceEnd(b, 0)
      case Some(i) => t == Take(b[..i + 1], TitleCap)
      case None => t == Take(b, TitleCap)
  {
    var b := FirstBlock(text);
    match FirstSentenceEnd(b, 0)
    case Some(i) => Take(b[..i + 1], TitleCap)
    case None => Take(b, TitleCap)
  }

  // ---------------------------------------------------------- splitting

  /** The separators the source splits on. */
  datatype Separator =
    | BlankLine     // /\n\s*\n/
    | SentenceStop  // /(?:\.\s+)/
    | LineBreak     // a line terminator, as seen by ^ and $ in multiline mode

  /** The greatest index j in [lo, hi) with s[j] a newline. */
  function LastNewline(s: string, lo: nat, hi: nat): (r: Option<nat>)
    requires lo <= hi <= |s|
    ensures r.Some? ==> lo <= r.value < hi && s[r.value] == '\n'
    ensures r.Some? ==> forall j :: r.value < j < hi ==> s[j] != '\n'
    ensures r.None? ==> forall j :: lo <= j < hi ==> s[j] != '\n'
    decreases hi - lo
  {
    if lo == hi then None
    else if s[hi - 1] == '\n' then Some(hi - 1)
    else LastNewline(s, lo, hi - 1)
  }

  /**
   * Length of the separator's match at q, 0 when it does not match there.
   * For /\n\s*\n/ the greedy `\s*` backs off to the last newline of the white-space run.
   */
  function SepLen(sep: Separator, s: string, q: nat): (n: nat)
    requires q < |s|
    ensures q + n <= |s|
  {
    match sep
    case BlankLine =>
      if s[q] != '\n' then 0
      else
        var run := SpaceRun(s, q + 1);
        (match LastNewline(s, q + 1, q + 1 + run)
         case Some(j) => j + 1 - q
         case None => 0)
    case SentenceStop =>
      if s[q] == '.' && q + 1 < |s| && IsSpace(s[q + 1]) then 1 + SpaceRun(s, q + 1) else 0
    case LineBreak =>
      if IsLineTerminator(s[q]) then 1 else 0
  }

  /** The separator's match length at every position of `s`, 0 where it does not match. */
  function MatchLengths(sep: Separator, s: string): (m: seq<nat>)
    ensures |m| == |s|
    ensures forall j :: 0 <= j < |s| ==> m[j] == SepLen(sep, s, j) && j + m[j] <= |s|
  {
    seq(|s|, j requires 0 <= j < |s| => SepLen(sep, s, j))
  }

  /** Every match length in `m` stays inside `s`. */
  predicate Fits(s: string, m: seq<nat>) {
    |m| == |s| && forall j :: 0 <= j < |s| ==> j + m[j] <= |s|
  }

  /**
   * `String.prototype.split` with a separator whose match length at each position is `m`:
   * scan q left to right; where a match starts, close the current piece and resume after it.
   * Matching at q does not depend on earlier matches, so the lengths can be known up front.
   */
  function SplitFrom(s: string, m: seq<nat>, start: nat, q: nat): (pieces: seq<string>)
    requires Fits(s, m) && start <= q <= |s|
    ensures |pieces| >= 1
    decreases |s| - q
  {
    if q == |s| then [s[start..]]
    else if m[q] > 0 then [s[start..q]] + SplitFrom(s, m, q + m[q], q + m[q])
    else SplitFrom(s, m, start, q + 1)
  }

  function Split(sep: Separator, s: string): (pieces: seq<string>)
    ensures |pieces| >= 1
  {
    SplitFrom(s, MatchLengths(sep, s), 0, 0)
  }

  /** No match starts in [lo, hi). */
  predicate NoMatchIn(m: seq<nat>, lo: nat, hi: nat)
    requires hi <= |m|
  {
    forall j :: lo <= j < hi ==> m[j] == 0
  }

  /** `piece` is the stretch of `s` at `at`, and no match starts inside it. */
  predicate PieceAt(s: string, m: seq<nat>, piece: string, at: nat)
    requires |m| == |s|
  {
    at + |piece| <= |s| && s[at..at + |piece|] == piece && NoMatchIn(m, at, at + |piece|)
  }

  /** A match starts at `end`, and `next` is where it ends. */
  predicate MatchBetween(m: seq<nat>, end: nat, next: nat) {
    end < |m| && m[end] > 0 && next == end + m[end]
  }

  /** Where each piece of `SplitFrom` starts in `s`. */
  function SplitStarts(s: string, m: seq<nat>, start: nat, q: nat): seq<nat>
    requires Fits(s, m) && start <= q <= |s|
    decreases |s| - q
  {
    if q == |s| then [start]
    else if m[q] > 0 then [start] + SplitStarts(s, m, q + m[q], q + m[q])
    else SplitStarts(s, m, start, q + 1)
  }

  /**
   * `ps` cuts `s` from `start` to its end at matches of `m`, the pieces starting at `st`:
   * consecutive stretches with no match starting inside one, and exactly one match between
   * each piece and the next.
   */
  predicate SplitShape(s: string, m: seq<nat>, ps: seq<string>, st: seq<nat>, start: nat)
    requires |m| == |s|
  {
    && |st| == |ps| && |ps| >= 1 && st[0] == start
    && (forall i :: 0 <= i < |ps| ==> PieceAt(s, m, ps[i], st[i]))
    && (forall i :: 0 <= i < |ps| - 1 ==> MatchBetween(m, st[i] + |ps[i]|, st[i + 1]))
    && st[|ps| - 1] + |ps[|ps| - 1]| == |s|
  }

  /** A match at q after a stretch with no match: one more piece in front of the rest. */
  lemma ShapeCons(s: string, m: seq<nat>, start: nat, q: nat, rest: seq<string>, rst: seq<nat>)
    requires Fits(s, m) && start <= q < |s| && m[q] > 0 && NoMatchIn(m, start, q)
    requires SplitShape(s, m, rest, rst, q + m[q])
    ensures SplitShape(s, m, [s[start..q]] + rest, [start] + rst, start)
  {
    ConsPieces(s, m, start, q, rest, rst);
    ConsMatches(m, start, s[start..q], rest, rst);
    var ps, st := [s[start..q]] + rest, [start] + rst;
    assert ps[|ps| - 1] == rest[|rest| - 1] && st[|ps| - 1] == rst[|rest| - 1];
  }

  lemma ConsPieces(s: string, m: seq<nat>, start: nat, q: nat, rest: seq<string>, rst: seq<nat>)
    requires |m| == |s| && start <= q <= |s| && NoMatchIn(m, start, q) && |rst| == |rest|
    requires forall i :: 0 <= i < |rest| ==> PieceAt(s, m, rest[i], rst[i])
    ensures var ps, st := [s[start..q]] + rest, [start] + rst;
      forall i :: 0 <= i < |ps| ==> PieceAt(s, m, ps[i], st[i])
  {
    var ps, st := [s[start..q]] + rest, [start] + rst;
    assert PieceAt(s, m, ps[0], st[0]);
    forall i | 1 <= i < |ps| ensures PieceAt(s, m, ps[i], st[i]) {
      assert ps[i] == rest[i - 1] && st[i] == rst[i - 1];
    }
  }

  lemma ConsMatches(m: seq<nat>, start: nat, first: string, rest: seq<string>, rst: seq<nat>)
    requires var q := start + |first|; q < |m| && m[q] > 0 && |rst| == |rest| >= 1 && rst[0] == q + m[q]
    requires forall i :: 0 <= i < |rest| - 1 ==> MatchBetween(m, rst[i] + |rest[i]|, rst[i + 1])
    ensures var ps, st := [first] + rest, [start] + rst;
      forall i :: 0 <= i < |ps| - 1 ==> MatchBetween(m, st[i] + |ps[i]|, st[i + 1])
  {
    var ps, st := [first] + rest, [start] + rst;
    assert MatchBetween(m, st[0] + |ps[0]|, st[1]);
    forall i | 1 <= i < |ps| - 1 ensures MatchBetween(m, st[i] + |ps[i]|, st[i + 1]) {
      assert ps[i] == rest[i - 1] && st[i] == rst[i - 1] && st[i + 1] == rst[i];
    }
  }

  /** The pieces from `start` on, scanning from q, when no match starts in [start, q). */
  lemma {:induction false} SplitFromPieces(s: string, m: seq<nat>, start: nat, q: nat)
    requires Fits(s, m) && start <= q <= |s| && NoMatchIn(m, start, q)
    ensures SplitShape(s, m, SplitFrom(s, m, start, q), SplitStarts(s, m, start, q), start)
    decreases |s| - q
  {
    if q == |s| {
      assert PieceAt(s, m, s[start..], start);
      assert SplitFrom(s, m, start, q) == [s[start..]] && SplitStarts(s, m, start, q) == [start];
    } else if m[q] > 0 {
      var next := q + m[q];
      SplitFromPieces(s, m, next, next);
      var rest, rst := SplitFrom(s, m, next, next), SplitStarts(s, m, next, next);
      ShapeCons(s, m, start, q, rest, rst);
      assert SplitFrom(s, m, start, q) == [s[start..q]] + rest;
      assert SplitStarts(s, m, start, q) == [start] + rst;
    } else {
      assert NoMatchIn(m, start, q + 1);
      SplitFromPieces(s, m, start, q + 1);
      assert SplitFrom(s, m, start, q) == SplitFrom(s, m, start, q + 1);
      assert SplitStarts(s, m, start, q) == SplitStarts(s, m, start, q + 1);
    }
  }

  /**
   * `Split` cuts `s` at its leftmost non-overlapping separator matches: the pieces are
   * consecutive stretches of `s` from its first character to its last, no match starts
   * inside a piece, and exactly one match lies between each piece and the next.
   */
  lemma SplitPieces(sep: Separator, s: string)
    ensures var m := MatchLengths(sep, s);
      SplitShape(s, m, Split(sep, s), SplitStarts(s, m, 0, 0), 0)
  {
    SplitFromPieces(s, MatchLengths(sep, s), 0, 0);
  }

  /** `.map(p => p.trim()).filter(Boolean)`: trimmed pieces, empty ones dropped, order kept. */
  function TrimNonEmpty(pieces: seq<string>): (r: seq<string>)
    ensures |r| <= |pieces|
    ensures forall i :: 0 <= i < |r| ==> r[i] != "" && IsTrimmed(r[i])
  {
    if pieces == [] then []
    else
      var t := Trim(pieces[0]);
      (if t == "" then [] else [t]) + TrimNonEmpty(pieces[1..])
  }

  lemma SplitAround<T>(s: seq<T>, k: nat)
    requires k < |s|
    ensures s == s[..k] + (s[k..k + 1] + s[k + 1..])
  {
  }

  /**
   * The filter works piece by piece: on a + b it is its result on a followed by its result
   * on b, and on one piece it is that piece trimmed, or nothing when the piece is blank.
   */
  lemma {:induction false} TrimNonEmptyConcat(a: seq<string>, b: seq<string>)
    ensures TrimNonEmpty(a + b) == TrimNonEmpty(a) + TrimNonEmpty(b)
    ensures |a| == 1 ==> TrimNonEmpty(a) == if IsBlank(a[0]) then [] else [Trim(a[0])]
  {
    if a == [] {
      assert a + b == b;
    } else {
      var t := Trim(a[0]);
      var h := if t == "" then [] else [t];
      assert (a + b)[0] == a[0];
      assert (a + b)[1..] == a[1..] + b;
      TrimNonEmptyConcat(a[1..], b);
      var x, y := TrimNonEmpty(a[1..]), TrimNonEmpty(b);
      assert TrimNonEmpty(a + b) == h + (x + y);
      assert TrimNonEmpty(a) == h + x;
      ConcatAssoc(h, x, y);
      if |a| == 1 {
        assert a[1..] == [];
      }
    }
  }

  /** What the filter keeps: exactly the trimmed forms of the pieces that are not blank. */
  lemma TrimNonEmptyMembers(pieces: seq<string>)
    ensures forall x :: x in TrimNonEmpty(pieces) <==>
      exists k :: 0 <= k < |pieces| && !IsBlank(pieces[k]) && x == Trim(pieces[k])
  {
    TrimNonEmptySound(pieces);
    TrimNonEmptyComplete(pieces);
  }

  /** Everything kept is the trim of a piece that is not blank. */
  lemma {:induction false} TrimNonEmptySound(pieces: seq<string>)
    ensures forall x :: x in TrimNonEmpty(pieces) ==>
      exists k :: 0 <= k < |pieces| && !IsBlank(pieces[k]) && x == Trim(pieces[k])
  {
    if pieces != [] {
      var tail := pieces[1..];
      TrimNonEmptySound(tail);
      var t := Trim(pieces[0]);
      assert TrimNonEmpty(pieces) == (if t == "" then [] else [t]) + TrimNonEmpty(tail);
      forall x | x in TrimNonEmpty(pieces)
        ensures exists k :: 0 <= k < |pieces| && !IsBlank(pieces[k]) && x == Trim(pieces[k])
      {
        if x in TrimNonEmpty(tail) {
          var k :| 0 <= k < |tail| && !IsBlank(tail[k]) && x == Trim(tail[k]);
          assert pieces[k + 1] == tail[k];
        } else {
          assert x == t && !IsBlank(pieces[0]);
        }
      }
    }
  }

  /** The trim of every piece that is not blank is kept. */
  lemma TrimNonEmptyComplete(pieces: seq<string>)
    ensures forall k :: 0 <= k < |pieces| && !IsBlank(pieces[k]) ==> Trim(pieces[k]) in TrimNonEmpty(pieces)
  {
    forall k | 0 <= k < |pieces| && !IsBlank(pieces[k]) ensures Trim(pieces[k]) in TrimNonEmpty(pieces) {
      KeptAt(pieces, k);
    }
  }

  lemma KeptAt(pieces: seq<string>, k: nat)
    requires k < |pieces| && !IsBlank(pieces[k])
    ensures Trim(pieces[k]) in TrimNonEmpty(pieces)
  {
    var before, at, after := pieces[..k], pieces[k..k + 1], pieces[k + 1..];
    SplitAround(pieces, k);
    TrimNonEmptyConcat(before, at + after);
    TrimNonEmptyConcat(at, after);
    var x, y, z := TrimNonEmpty(before), TrimNonEmpty(at), TrimNonEmpty(after);
    assert y == [Trim(pieces[k])];
    assert TrimNonEmpty(pieces)[|x|] == (x + (y + z))[|x|] == Trim(pieces[k]);
  }

  /** Paragraphs: pieces between blank lines, trimmed, empty ones dropped. */
  function Paragraphs(text: string): (ps: seq<string>)
    ensures forall i :: 0 <= i < |ps| ==> ps[i] != "" && IsTrimmed(ps[i])
  {
    TrimNonEmpty(Split(BlankLine, text))
  }

  /**
   * The paragraphs are the trimmed forms of the pieces between blank lines that are not
   * blank; there are none exactly when every such piece is blank.
   */
  lemma ParagraphsOfPieces(text: string)
    ensures var pieces := Split(BlankLine, text);
      && (forall x :: x in Paragraphs(text) <==>
            exists k :: 0 <= k < |pieces| && !IsBlank(pieces[k]) && x == Trim(pieces[k]))
      && (Paragraphs(text) == [] <==> forall k :: 0 <= k < |pieces| ==> IsBlank(pieces[k]))
  {
    var pieces := Split(BlankLine, text);
    TrimNonEmptyMembers(pieces);
    forall k | 0 <= k < |pieces| && !IsBlank(pieces[k]) ensures Trim(pieces[k]) in Paragraphs(text) {
    }
    if Paragraphs(text) != [] {
      assert Paragraphs(text)[0] in Paragraphs(text);
    }
  }

  /** The summary: the first paragraph, or the whole text when there is none; at most 300 characters. */
  function Summary(text: string): (sm: string)
    ensures |sm| <= SummaryCap
    ensures var ps := Paragraphs(text);
      sm == Take(if ps != [] then ps[0] else text, SummaryCap)
  {
    var ps := Paragraphs(text);
    Take(if ps != [] then ps[0] else text, SummaryCap)
  }

  /** The preview: the summary cut to 120 characters plus "..." when longer. */
  function Preview(summary: string): (p: string)
    ensures |p| <= PreviewCap + 3
    ensures |summary| <= PreviewCap ==> p == summary
    ensures |summary| > PreviewCap ==> p == summary[..PreviewCap] + "..."
  {
    Ellipsize(summary, PreviewCap)
  }

  // ---------------------------------------------------------- key points

  function Lines(text: string): seq<string> {
    Split(LineBreak, text)
  }

  /**
   * One line matches /^[-*]\s.+$/ or /^\d+\.\s.+$/: a '-' or '*', white space and at
   * least one more character; or digits, a '.', white space and at least one more character.
   */
  predicate IsListLine(line: string) {
    || (|line| >= 3 && (line[0] == '-' || line[0] == '*') && IsSpace(line[1]))
    || (var d := DigitRun(line, 0); d >= 1 && d + 3 <= |line| && line[d] == '.' && IsSpace(line[d + 1]))
  }

  function FilterListLines(lines: seq<string>): (r: seq<string>)
    ensures |r| <= |lines|
    ensures forall i :: 0 <= i < |r| ==> IsListLine(r[i]) && r[i] in lines
    ensures forall i :: 0 <= i < |lines| && IsListLine(lines[i]) ==> lines[i] in r
    ensures r == [] <==> forall i :: 0 <= i < |lines| ==> !IsListLine(lines[i])
  {
    if lines == [] then []
    else (if IsListLine(lines[0]) then [lines[0]] else []) + FilterListLines(lines[1..])
  }

  /**
   * The collection keeps the text's order: on a + b it is its result on a followed by its
   * result on b, and one line is kept exactly when it is a list line.
   */
  lemma {:induction false} FilterListLinesConcat(a: seq<string>, b: seq<string>)
    ensures FilterListLines(a + b) == FilterListLines(a) + FilterListLines(b)
    ensures |a| == 1 ==> FilterListLines(a) == if IsListLine(a[0]) then a else []
  {
    if a == [] {
      assert a + b == b;
    } else {
      var h := if IsListLine(a[0]) then [a[0]] else [];
      assert (a + b)[0] == a[0];
      assert (a + b)[1..] == a[1..] + b;
      FilterListLinesConcat(a[1..], b);
      var x, y := FilterListLines(a[1..]), FilterListLines(b);
      assert FilterListLines(a + b) == h + (x + y);
      assert FilterListLines(a) == h + x;
      ConcatAssoc(h, x, y);
      if |a| == 1 {
        assert a[1..] == [];
      }
    }
  }

  /** What `text.match(listRe)` collects: every list line, in order. */
  function ListLines(text: string): seq<string> {
    FilterListLines(Lines(text))
  }

  /** An optional single white-space character dropped from the front (`\s?`). */
  function DropOneSpace(s: string): string {
    if s != [] && IsSpace(s[0]) then s[1..] else s
  }

  /** `.replace(/^-+\s?/, "")` */
  function StripDashes(s: string): string {
    var n := DashRun(s, 0);
    if n == 0 then s else DropOneSpace(s[n..])
  }

  /** `.replace(/^\d+\.\s?/, "")` */
  function StripNumber(s: string): string {
    var d := DigitRun(s, 0);
    if d >= 1 && d < |s| && s[d] == '.' then DropOneSpace(s[d + 1..]) else s
  }

  /** One key point: dashes, then a number, stripped from the front, then trimmed. */
  function CleanItem(line: string): (item: string)
    ensures IsTrimmed(item)
  {
    Trim(StripNumber(StripDashes(line)))
  }

  function KeyPointItems(bullets: seq<string>): seq<string> {
    seq(Min(MaxKeyPoints, |bullets|), i requires 0 <= i < Min(MaxKeyPoints, |bullets|) => CleanItem(bullets[i]))
  }

  /** Dropping one leading white-space character does not change what trimming gives. */
  lemma TrimDropSpace(s: string)
    requires s != [] && IsSpace(s[0])
    ensures Trim(s[1..]) == Trim(s)
  {
    TrimStartTail(s);
  }

  /** A run of n dashes that stops at n is what `DashRun` measures. */
  lemma DashRunIs(s: string, n: nat)
    requires n <= |s| && (forall j :: 0 <= j < n ==> s[j] == '-') && (n == |s| || s[n] != '-')
    ensures DashRun(s, 0) == n
  {
  }

  /** A run of n digits that stops at n is what `DigitRun` measures. */
  lemma DigitRunIs(s: string, n: nat)
    requires n <= |s| && (forall j :: 0 <= j < n ==> IsDigit(s[j])) && (n == |s| || !IsDigit(s[n]))
    ensures DigitRun(s, 0) == n
  {
  }

  /** `n` dashes. */
  function Dashes(n: nat): (d: string)
    ensures |d| == n && forall i :: 0 <= i < n ==> d[i] == '-'
  {
    seq(n, _ => '-')
  }

  /**
   * A bullet of one or more dashes, at most one white-space character, then text that
   * starts with neither a dash, white space nor a digit: the key point is that text, trimmed.
   */
  lemma DashesRemoved(n: nat, gap: string, rest: string)
    requires n >= 1 && |gap| <= 1 && IsBlank(gap)
    requires rest == [] || (rest[0] != '-' && !IsSpace(rest[0]) && !IsDigit(rest[0]))
    ensures CleanItem(Dashes(n) + gap + rest) == Trim(rest)
  {
    var line := Dashes(n) + gap + rest;
    assert line[n..] == gap + rest;
    assert line[..n] == Dashes(n);
    DashRunIs(line, n);
    assert StripDashes(line) == rest by {
      if gap != [] {
        assert (gap + rest)[1..] == rest;
      }
    }
    assert StripNumber(rest) == rest by {
      assert rest != [] ==> DigitRun(rest, 0) == 0;
    }
  }

  /**
   * A numbered line: one or more digits, a '.', then anything. The key point is what
   * follows the '.', trimmed (the optional white space after the '.' goes with the trim).
   */
  lemma NumberMarkerRemoved(digits: string, rest: string)
    requires digits != [] && forall i :: 0 <= i < |digits| ==> IsDigit(digits[i])
    ensures CleanItem(digits + "." + rest) == Trim(rest)
  {
    NumberedLine(digits, rest);
    if rest != [] && IsSpace(rest[0]) {
      TrimDropSpace(rest);
    }
  }

  /** The markers stripped from a numbered line: no dashes, then the digits, the '.' and one optional space. */
  lemma NumberedLine(digits: string, rest: string)
    requires digits != [] && forall i :: 0 <= i < |digits| ==> IsDigit(digits[i])
    ensures StripNumber(StripDashes(digits + "." + rest)) == DropOneSpace(rest)
  {
    var line := digits + "." + rest;
    ThreeParts(digits, '.', rest);
    assert StripDashes(line) == line by {
      assert DashRun(line, 0) == 0 by { assert line[0] == digits[0]; }
    }
    DigitRunIs(line, |digits|);
  }

  lemma ThreeParts<T>(a: seq<T>, x: T, b: seq<T>)
    ensures var l := a + [x] + b;
      && |l| == |a| + 1 + |b| && l[..|a|] == a && l[|a|] == x && l[|a| + 1..] == b
      && (a != [] ==> l[0] == a[0])
  {
  }

  /** A '*' bullet keeps its marker: only dashes and numbers are stripped. */
  lemma StarMarkerKept(rest: string)
    requires rest != [] && IsTrimmed(rest)
    ensures CleanItem("* " + rest) == "* " + rest
  {
    var line := "* " + rest;
    assert StripDashes(line) == line by { assert DashRun(line, 0) == 0; }
    assert StripNumber(line) == line by { assert DigitRun(line, 0) == 0; }
    assert IsTrimmed(line) by { assert line[|line| - 1] == rest[|rest| - 1]; }
    TrimFixed(line);
  }

  // ------------------------------------------------------------ fallback

  /** Headings of the paragraph sections: "Overview", then "Detail 1", "Detail 2". */
  function Heading(i: nat): string
    requires i < MaxParagraphSections
  {
    if i == 0 then "Overview" else "Detail " + [('0' as int + i) as char]
  }

  /** `p.split(/(?:\.\s+)/).slice(0, 4).map(s => s.trim()).filter(Boolean)` */
  function Fragments(paragraph: string): (items: seq<string>)
    ensures |items| <= MaxFragments
    ensures forall i :: 0 <= i < |items| ==> items[i] != "" && IsTrimmed(items[i])
  {
    var pieces := Split(SentenceStop, paragraph);
    TrimNonEmpty(pieces[..Min(MaxFragments, |pieces|)])
  }

  /**
   * The fragments are the trimmed forms of the paragraph's first four sentence pieces that
   * are not blank; a piece after the fourth never contributes.
   */
  lemma FragmentsOfPieces(paragraph: string)
    ensures var pieces := Split(SentenceStop, paragraph); var first := pieces[..Min(MaxFragments, |pieces|)];
      forall x :: x in Fragments(paragraph) <==>
        exists k :: 0 <= k < |first| && !IsBlank(first[k]) && x == Trim(first[k])
  {
    var pieces := Split(SentenceStop, paragraph);
    TrimNonEmptyMembers(pieces[..Min(MaxFragments, |pieces|)]);
  }

  function FallbackSections(paragraphs: seq<string>): seq<Section> {
    seq(Min(MaxParagraphSections, |paragraphs|),
        i requires 0 <= i < Min(MaxParagraphSections, |paragraphs|) => Section(Heading(i), Fragments(paragraphs[i])))
  }

  function Sections(text: string): seq<Section> {
    var bullets := ListLines(text);
    if bullets != [] then [Section("Key points", KeyPointItems(bullets))]
    else FallbackSections(Paragraphs(text))
  }

  // ------------------------------------------------------------- the whole

  /** `buildStructured`, with the clock read passed in as `now`. */
  function Structure(text: string, now: int): (r: Option<Structured>)
    ensures r.None? <==> text == ""
    ensures r.Some? ==> var st := r.value;
      && st.text == text
      && |st.title| <= TitleCap && |st.summary| <= SummaryCap && |st.preview| <= PreviewCap + 3
      && (|st.summary| <= PreviewCap ==> st.preview == st.summary)
      && (|st.summary| > PreviewCap ==> st.preview == st.summary[..PreviewCap] + "...")
      && st.title == Title(text) && st.summary == Summary(text)
      && st.sections == Sections(text)
      && st.code == ExtractFirstCodeBlock(text)
      && st.meta == Meta(ModelTag, now)
  {
    if text == "" then None
    else
      var summary := Summary(text);
      Some(Structured(text, Title(text), summary, Sections(text), ExtractFirstCodeBlock(text), Preview(summary),
                      Meta(ModelTag, now)))
  }

  /** With list lines present: one "Key points" section of at most ten cleaned lines, in order. */
  lemma KeyPointsRule(text: string)
    requires ListLines(text) != []
    ensures var secs := Sections(text);
      && |secs| == 1 && secs[0].heading == "Key points"
      && |secs[0].items| == Min(MaxKeyPoints, |ListLines(text)|)
      && forall i :: 0 <= i < |secs[0].items| ==>
           secs[0].items[i] == CleanItem(ListLines(text)[i]) && IsTrimmed(secs[0].items[i])
  {
  }

  /** Without list lines: one section per paragraph, at most three, each of at most four fragments. */
  lemma FallbackRule(text: string)
    requires ListLines(text) == []
    ensures var secs := Sections(text);
      && |secs| == Min(MaxParagraphSections, |Paragraphs(text)|)
      && (|secs| > 0 ==> secs[0].heading == "Overview")
      && (|secs| > 1 ==> secs[1].heading == "Detail 1")
      && (|secs| > 2 ==> secs[2].heading == "Detail 2")
      && forall i :: 0 <= i < |secs| ==>
           && secs[i].items == Fragments(Paragraphs(text)[i])
           && |secs[i].items| <= MaxFragments
           && forall j :: 0 <= j < |secs[i].items| ==> secs[i].items[j] != "" && IsTrimmed(secs[i].items[j])
  {
    var ps := Paragraphs(text);
    assert Sections(text) == FallbackSections(ps);
    FallbackSectionsShape(ps);
  }

  /** The paragraph sections, for any list of paragraphs: named headings, fragments per paragraph. */
  lemma FallbackSectionsShape(ps: seq<string>)
    ensures var secs := FallbackSections(ps);
      && |secs| == Min(MaxParagraphSections, |ps|)
      && (|secs| > 0 ==> secs[0].heading == "Overview")
      && (|secs| > 1 ==> secs[1].heading == "Detail 1")
      && (|secs| > 2 ==> secs[2].heading == "Detail 2")
      && forall i :: 0 <= i < |secs| ==>
           && secs[i].items == Fragments(ps[i])
           && |secs[i].items| <= MaxFragments
           && forall j :: 0 <= j < |secs[i].items| ==> secs[i].items[j] != "" && IsTrimmed(secs[i].items[j])
  {
    var secs := FallbackSections(ps);
    HeadingNames();
    assert |secs| > 0 ==> secs[0].heading == Heading(0);
    assert |secs| > 1 ==> secs[1].heading == Heading(1);
    assert |secs| > 2 ==> secs[2].heading == Heading(2);
    forall i | 0 <= i < |secs|
      ensures secs[i].items == Fragments(ps[i]) && |secs[i].items| <= MaxFragments
      ensures forall j :: 0 <= j < |secs[i].items| ==> secs[i].items[j] != "" && IsTrimmed(secs[i].items[j])
    {
      var f := Fragments(ps[i]);
    }
  }

  lemma HeadingNames()
    ensures Heading(0) == "Overview" && Heading(1) == "Detail 1" && Heading(2) == "Detail 2"
  {
  }

  /** The paragraph sections as the source builds them: pushed one by one in a loop. */
  method PushParagraphSections(paragraphs: seq<string>) returns (sections: seq<Section>)
    ensures sections == FallbackSections(paragraphs)
  {
    sections := [];
    var n := Min(MaxParagraphSections, |paragraphs|);
    for i := 0 to n
      invariant |sections| == i
      invariant forall k :: 0 <= k < i ==> sections[k] == Section(Heading(k), Fragments(paragraphs[k]))
    {
      sections := sections + [Section(Heading(i), Fragments(paragraphs[i]))];
    }
    FallbackSectionsAre(paragraphs, sections);
  }

  /** Sections that agree with the fallback ones position by position are the fallback sections. */
  lemma FallbackSectionsAre(paragraphs: seq<string>, sections: seq<Section>)
    requires |sections| == Min(MaxParagraphSections, |paragraphs|)
    requires forall k :: 0 <= k < |sections| ==> sections[k] == Section(Heading(k), Fragments(paragraphs[k]))
    ensures sections == FallbackSections(paragraphs)
  {
  }

  /** `buildStructured` as the source runs it. */
  method BuildStructured(text: string, now: int) returns (r: Option<Structured>)
    ensures r == Structure(text, now)
  {
    if text == "" {
      return None;
    }
    var summary := Summary(text);
    var sections: seq<Section>;
    var bullets := ListLines(text);
    if |bullets| > 0 {
      sections := [Section("Key points", KeyPointItems(bullets))];
    } else {
      sections := PushParagraphSections(Paragraphs(text));
    }
    r := Some(Structured(text, Title(text), summary, sections, ExtractFirstCodeBlock(text), Preview(summary),
                         Meta(ModelTag, now)));
  }

  lemma NoFenceWithoutBackquote(s: string, p: nat)
    requires p <= |s|
    requires forall j :: 0 <= j < p ==> s[j] != '`'
    ensures forall j :: 0 <= j < p ==> !FenceAt(s, j)
  {
    forall j | 0 <= j < p ensures !FenceAt(s, j) {
      if j + 3 <= |s| { assert s[j..j + 3][0] == s[j]; }
    }
  }

  lemma FenceOpensAt(s: string, p: nat, tagLen: nat)
    requires p + 3 + tagLen < |s|
    requires s[p..p + 3] == "```" && s[p + 3 + tagLen] == '\n'
    requires forall j :: p + 3 <= j < p + 3 + tagLen ==> IsWordChar(s[j])
    ensures OpenFence(s, p) == Some(p + 4 + tagLen)
  {
    assert !IsWordChar(s[p + 3 + tagLen]);
    assert WordRun(s, p + 3) == tagLen;
  }

  lemma FenceClosesAt(s: string, q: nat, k: nat)
    requires q <= k && k + 3 <= |s|
    requires forall j :: q <= j < k ==> s[j] != '`'
    requires s[k..k + 3] == "```"
    ensures IndexOf(s, "```", q) == Some(k)
  {
    forall j | q <= j < k ensures !OccursAt(s, "```", j) {
      if j + 3 <= |s| { assert s[j..j + 3][0] == s[j]; }
    }
    assert OccursAt(s, "```", k);
  }

  /**
   * Backquote-free text up to p, a fence at p with a tag of word characters up to a newline
   * ending at q, and a backquote-free body up to a fence at k: that is the block found.
   */
  lemma FenceFoundAt(s: string, p: nat, q: nat, k: nat)
    requires p + 4 <= q <= k && k + 3 <= |s|
    requires forall j :: 0 <= j < p ==> s[j] != '`'
    requires s[p..p + 3] == "```" && s[q - 1] == '\n' && s[k..k + 3] == "```"
    requires forall j :: p + 3 <= j < q - 1 ==> IsWordChar(s[j])
    requires forall j :: q <= j < k ==> s[j] != '`'
    ensures FindFence(s) == Some(Fence(p, q, k))
  {
    NoFenceWithoutBackquote(s, p);
    FenceOpensAt(s, p, q - p - 4);
    FenceClosesAt(s, q, k);
    FirstFenceIs(s, p);
    assert FenceFrom(s, p) == Fence(p, q, k);
  }

  /** A fence at p with none before it is the leftmost one. */
  lemma FirstFenceIs(s: string, p: nat)
    requires p <= |s| && FenceAt(s, p)
    requires forall j :: 0 <= j < p ==> !FenceAt(s, j)
    ensures FirstFence(s, 0) == Some(p)
  {
    var r := FirstFence(s, 0);
    assert r.Some? && FenceAt(s, r.value);
    assert forall j :: 0 <= j < r.value ==> !FenceAt(s, j);
  }

  /** The block extracted is the found fence's tag ("text" when empty) and its trimmed body. */
  lemma ExtractAtFence(s: string)
    requires FindFence(s).Some?
    ensures var f := FindFence(s).value; var r := ExtractFirstCodeBlock(s);
      && r.Some?
      && r.value.value == Trim(s[f.body..f.close])
      && r.value.language == (if f.body == f.start + 4 then "text" else s[f.start + 3..f.body - 1])
  {
    var f := FindFence(s).value;
    ExtractIsBlockAt(s, f);
    BlockAtIs(s, f);
  }

  lemma ExtractIsBlockAt(s: string, f: Fence)
    requires FindFence(s) == Some(f)
    ensures f.start + 4 <= f.body <= f.close <= |s|
    ensures ExtractFirstCodeBlock(s) == Some(BlockAt(s, f))
  {
    assert s != "";
  }

  lemma BlockAtIs(s: string, f: Fence)
    requires f.start + 4 <= f.body <= f.close <= |s|
    ensures BlockAt(s, f).value == Trim(s[f.body..f.close])
    ensures BlockAt(s, f).language == (if f.body == f.start + 4 then "text" else s[f.start + 3..f.body - 1])
  {
    var tag := s[f.start + 3..f.body - 1];
    assert tag == [] <==> f.body == f.start + 4;
    assert BlockAt(s, f) == CodeBlock(if tag == "" then "text" else tag, Trim(s[f.body..f.close]));
  }
}
