/**
 * String operations of JavaScript that the chat backend and client rely on:
 * the `\s` character class (which is also what `String.prototype.trim` strips),
 * `slice(0, n)`, the "cut and add an ellipsis" idiom and ASCII case folding.
 * Strings are sequences of characters; lengths count characters.
 */
module Text {
  import opened Wrappers

  /** Line terminators: what `.` refuses and what `^`/`$` see in multiline mode. */
  predicate IsLineTerminator(c: char) {
    c == '\n' || c == '\r' || c == '\U{2028}' || c == '\U{2029}'
  }

  /** The `\s` class of ECMAScript: white space plus line terminators. */
  const Spaces: set<char> := {
    '\t', '\n', '\U{000B}', '\U{000C}', '\r', ' ', '\U{00A0}', '\U{1680}',
    '\U{2000}', '\U{2001}', '\U{2002}', '\U{2003}', '\U{2004}', '\U{2005}',
    '\U{2006}', '\U{2007}', '\U{2008}', '\U{2009}', '\U{200A}',
    '\U{2028}', '\U{2029}', '\U{202F}', '\U{205F}', '\U{3000}', '\U{FEFF}'
  }

  predicate IsSpace(c: char) { c in Spaces }

  predicate IsDigit(c: char) { '0' <= c <= '9' }

  /** The `\w` class: ASCII letters, digits and underscore. */
  predicate IsWordChar(c: char) {
    ('a' <= c <= 'z') || ('A' <= c <= 'Z') || IsDigit(c) || c == '_'
  }

  predicate IsBlank(s: string) {
    forall i :: 0 <= i < |s| ==> IsSpace(s[i])
  }

  function Min(a: int, b: int): int { if a <= b then a else b }

  /** `s.slice(0, n)` for n >= 0. */
  function Take(s: string, n: nat): (r: string)
    ensures |r| == Min(n, |s|)
    ensures r == s[..|r|]
  {
    if |s| <= n then s else s[..n]
  }

  /** `s.length > n ? s.slice(0, n) + "..." : s` */
  function Ellipsize(s: string, n: nat): (r: string)
    ensures |s| <= n ==> r == s
    ensures |s| > n ==> |r| == n + 3 && r[..n] == s[..n] && r[n..] == "..."
    ensures |r| <= n + 3
  {
    if |s| > n then s[..n] + "..." else s
  }

  /** The first position at or after i that holds no white space (|s| when there is none). */
  function LeadingSpaces(s: string, i: nat): (k: nat)
    requires i <= |s|
    ensures i <= k <= |s|
    ensures forall j :: i <= j < k ==> IsSpace(s[j])
    ensures k == |s| || !IsSpace(s[k])
    decreases |s| - i
  {
    if i == |s| || !IsSpace(s[i]) then i else LeadingSpaces(s, i + 1)
  }

  /** The position just after the last character before j that is not white space (0 when there is none). */
  function TrailingSpaces(s: string, j: nat): (k: nat)
    requires j <= |s|
    ensures k <= j
    ensures forall m :: k <= m < j ==> IsSpace(s[m])
    ensures k == 0 || !IsSpace(s[k - 1])
  {
    if j == 0 || !IsSpace(s[j - 1]) then j else TrailingSpaces(s, j - 1)
  }

  /** Leading white space removed. */
  function TrimStart(s: string): (r: string)
    ensures |r| <= |s| && r == s[|s| - |r|..]
    ensures IsBlank(s[..|s| - |r|])
    ensures r == [] || !IsSpace(r[0])
  {
    var k := LeadingSpaces(s, 0);
    assert forall j :: 0 <= j < k ==> s[..k][j] == s[j];
    s[k..]
  }

  /** Trailing white space removed. */
  function TrimEnd(s: string): (r: string)
    ensures |r| <= |s| && r == s[..|r|]
    ensures IsBlank(s[|r|..])
    ensures r == [] || !IsSpace(r[|r| - 1])
  {
    var k := TrailingSpaces(s, |s|);
    assert forall m :: k <= m < |s| ==> s[k..][m - k] == s[m];
    s[..k]
  }

  /** A stretch of white space from i that stops at k is what LeadingSpaces measures. */
  lemma {:induction false} LeadingSpacesIs(s: string, i: nat, k: nat)
    requires i <= k <= |s| && (forall j :: i <= j < k ==> IsSpace(s[j])) && (k == |s| || !IsSpace(s[k]))
    ensures LeadingSpaces(s, i) == k
    decreases k - i
  {
    if i < k {
      LeadingSpacesIs(s, i + 1, k);
    }
  }

  /** The three properties of TrimStart single out its result. */
  lemma TrimStartUnique(s: string, r: string)
    requires |r| <= |s| && r == s[|s| - |r|..] && IsBlank(s[..|s| - |r|])
    requires r == [] || !IsSpace(r[0])
    ensures r == TrimStart(s)
  {
    var k := |s| - |r|;
    forall j | 0 <= j < k ensures IsSpace(s[j]) {
      assert s[j] == s[..k][j];
    }
    assert k < |s| ==> s[k] == r[0];
    LeadingSpacesIs(s, 0, k);
  }

  /** A leading white space before what the rest trims to is trimmed away as well. */
  lemma TrimStartStep(s: string, r: string)
    requires s != [] && IsSpace(s[0]) && |r| <= |s| - 1
    requires r == s[1..][|s| - 1 - |r|..] && IsBlank(s[1..][..|s| - 1 - |r|])
    ensures r == s[|s| - |r|..] && IsBlank(s[..|s| - |r|])
  {
    var k := |s| - |r|;
    assert s[1..][k - 1..] == s[k..];
    forall i | 0 <= i < k ensures IsSpace(s[..k][i]) {
      if i > 0 {
        assert s[..k][i] == s[1..][..k - 1][i - 1];
      }
    }
  }

  /** Dropping one leading white-space character leaves the same text after trimming the start. */
  lemma TrimStartTail(s: string)
    requires s != [] && IsSpace(s[0])
    ensures TrimStart(s[1..]) == TrimStart(s)
  {
    var r := TrimStart(s[1..]);
    TrimStartStep(s, r);
    TrimStartUnique(s, r);
  }

  predicate IsTrimmed(s: string) {
    s == [] || (!IsSpace(s[0]) && !IsSpace(s[|s| - 1]))
  }

  lemma BlankConcat(x: string, y: string)
    requires IsBlank(x)
    ensures IsBlank(x + y) <==> IsBlank(y)
  {
    if IsBlank(x + y) {
      forall i | 0 <= i < |y| ensures IsSpace(y[i]) { assert y[i] == (x + y)[|x| + i]; }
    }
  }

  lemma TrimStartEmpty(s: string)
    ensures TrimStart(s) == [] <==> IsBlank(s)
  {
    var a := TrimStart(s);
    assert s == s[..|s| - |a|] + a;
    BlankConcat(s[..|s| - |a|], a);
  }

  lemma TrimEndEmpty(s: string)
    ensures TrimEnd(s) == [] <==> IsBlank(s)
  {
    var r := TrimEnd(s);
    assert s == r + s[|r|..];
  }

  /** `s.trim()`: white space removed at both ends, nothing else. */
  function Trim(s: string): (r: string)
    ensures |r| <= |s|
    ensures IsTrimmed(r)
    ensures r == [] <==> IsBlank(s)
  {
    TrimStartEmpty(s);
    var a := TrimStart(s);
    TrimEndEmpty(a);
    var r := TrimEnd(a);
    assert r != [] ==> r[0] == a[0];
    r
  }

  /** What trimming keeps is the stretch of `s` that starts after its leading white space. */
  lemma TrimIsSlice(s: string)
    ensures |s| - |TrimStart(s)| + |Trim(s)| <= |s|
    ensures Trim(s) == s[|s| - |TrimStart(s)|..|s| - |TrimStart(s)| + |Trim(s)|]
  {
    SliceOfSuffix(s, TrimStart(s), Trim(s));
  }

  lemma SliceOfSuffix(s: string, t: string, r: string)
    requires t == TrimStart(s) && r == Trim(s)
    ensures |s| - |t| + |r| <= |s|
    ensures r == s[|s| - |t|..|s| - |t| + |r|]
  {
    assert r == TrimEnd(t);
    assert t == s[|s| - |t|..];
  }

  /** What trimming drops is white space only, before and after what it keeps. */
  lemma TrimDropsBlank(s: string)
    ensures var a := |s| - |TrimStart(s)|; var r := Trim(s);
      a + |r| <= |s| && IsBlank(s[..a]) && IsBlank(s[a + |r|..])
  {
    var t := TrimStart(s);
    assert Trim(s) == TrimEnd(t);
    BlankAround(s, t, TrimEnd(t));
  }

  lemma BlankAround(s: string, t: string, r: string)
    requires |t| <= |s| && t == s[|s| - |t|..] && IsBlank(s[..|s| - |t|])
    requires |r| <= |t| && r == t[..|r|] && IsBlank(t[|r|..])
    ensures var a := |s| - |t|; a + |r| <= |s| && IsBlank(s[..a]) && IsBlank(s[a + |r|..])
  {
    PrefixOfSuffix(s, t, r);
  }

  /** A prefix r of a suffix t of s, followed in t by white space only. */
  lemma PrefixOfSuffix(s: string, t: string, r: string)
    requires |t| <= |s| && t == s[|s| - |t|..]
    requires |r| <= |t| && r == t[..|r|] && IsBlank(t[|r|..])
    ensures var a := |s| - |t|; r == s[a..a + |r|] && IsBlank(s[a + |r|..])
  {
    var a := |s| - |t|;
    assert t[|r|..] == s[a + |r|..];
  }

  /** Trimming a text with no white space at either end leaves it as it is. */
  lemma TrimFixed(s: string)
    requires IsTrimmed(s)
    ensures Trim(s) == s
  {
    assert TrimStart(s) == s;
    assert TrimEnd(s) == s;
  }

  /** A non-blank text followed by more text: trimming the start acts on the first part only. */
  lemma TrimStartConcat(x: string, y: string)
    requires !IsBlank(x)
    ensures TrimStart(x + y) == TrimStart(x) + y
  {
    var t := TrimStart(x);
    var k := |x| - |t|;
    TrimStartEmpty(x);
    assert (x + y)[..k] == x[..k];
    assert (x + y)[k..] == t + y;
    TrimStartUnique(x + y, t + y);
  }

  /** White space followed by text that does not start with white space trims to that text. */
  lemma TrimStartBlankThen(w: string, b: string)
    requires IsBlank(w) && (b == [] || !IsSpace(b[0]))
    ensures TrimStart(w + b) == b
  {
    assert (w + b)[..|w|] == w;
    assert (w + b)[|w|..] == b;
    TrimStartUnique(w + b, b);
  }

  lemma ConcatHead<T>(a: seq<T>, b: seq<T>)
    requires a != []
    ensures (a + b)[0] == a[0] && (a + b)[1..] == a[1..] + b
  {
  }

  lemma ConcatAssoc<T>(h: seq<T>, x: seq<T>, y: seq<T>)
    ensures h + (x + y) == (h + x) + y
  {
  }

  /** ASCII lower-casing: what a non-Unicode `i` regex compares letters by. */
  function LowerAscii(c: char): char {
    if 'A' <= c <= 'Z' then (c as int + 32) as char else c
  }

  function LowerString(s: string): (r: string)
    ensures |r| == |s| && forall i :: 0 <= i < |s| ==> r[i] == LowerAscii(s[i])
  {
    seq(|s|, i requires 0 <= i < |s| => LowerAscii(s[i]))
  }

  /** `word` (given in lower case) occurs in `s` at position i, ignoring ASCII case. */
  predicate OccursAtIgnoreCase(s: string, word: string, i: nat) {
    i + |word| <= |s| && LowerString(s[i..i + |word|]) == word
  }

  /** The regex `/word/i` finds a match in `s`. */
  function FindIgnoreCase(s: string, word: string, from: nat): (r: Option<nat>)
    requires from <= |s|
    ensures r.Some? ==> from <= r.value && OccursAtIgnoreCase(s, word, r.value)
    ensures r.Some? ==> forall i :: from <= i < r.value ==> !OccursAtIgnoreCase(s, word, i)
    ensures r.None? ==> forall i :: from <= i <= |s| ==> !OccursAtIgnoreCase(s, word, i)
    decreases |s| - from
  {
    if OccursAtIgnoreCase(s, word, from) then Some(from)
    else if from == |s| then None
    else FindIgnoreCase(s, word, from + 1)
  }

  predicate ContainsIgnoreCase(s: string, word: string) {
    FindIgnoreCase(s, word, 0).Some?
  }

  predicate OccursAt(s: string, pat: string, i: nat) {
    i + |pat| <= |s| && s[i..i + |pat|] == pat
  }

  /** First position at or after `from` where `pat` occurs literally. */
  function IndexOf(s: string, pat: string, from: nat): (r: Option<nat>)
    requires from <= |s|
    ensures r.Some? ==> from <= r.value && OccursAt(s, pat, r.value)
    ensures r.Some? ==> forall i :: from <= i < r.value ==> !OccursAt(s, pat, i)
    ensures r.None? ==> forall i :: from <= i <= |s| ==> !OccursAt(s, pat, i)
    decreases |s| - from
  {
    if OccursAt(s, pat, from) then Some(from)
    else if from == |s| then None
    else IndexOf(s, pat, from + 1)
  }
}
