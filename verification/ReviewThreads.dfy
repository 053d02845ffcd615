/**
 * The data block that shows a pull request's review threads to the reviewing agent, and the neutralizing of closing
 * tags in it.
 */
module ReviewThreads {
  import opened Common
  import opened Sorting

  /** An author or a body that is missing or not a string is `None`. */
  datatype Comment = NotADict | Comment(author: Option<string>, body: Option<string>)

  datatype Thread = Thread(
    path: Option<string>, line: Option<int>, originalLine: Option<int>, resolved: bool, outdated: bool,
    comments: seq<Comment>)

  const WRAPPER_TAGS := ["pr_review_threads", "thread", "comment", "body", "pr_overview", "title"]

  // ---------------------------------------------------------------- closing tags

  /** The character matches the lower-case pattern character when case is ignored, as Python's `re` ignores it. */
  predicate MatchesIgnoringCase(c: char, p: char) {
    c == p || ('A' <= c <= 'Z' && c as int + 32 == p as int) ||
    (p == 'i' && (c == '\U{130}' || c == '\U{131}')) || (p == 's' && c == '\U{17F}')
  }

  predicate NamesTag(name: string, tag: string) {
    |name| == |tag| && forall i | 0 <= i < |tag| :: MatchesIgnoringCase(name[i], tag[i])
  }

  predicate IsTagName(name: string) {
    exists tag | tag in WRAPPER_TAGS :: NamesTag(name, tag)
  }

  /** `</`, white space, a wrapper's name in any case, white space, `>`: what `_CLOSING_TAG_RE` matches. */
  predicate IsCloser(s: string) {
    |s| > 3 && s[0] == '<' && s[1] == '/' && s[|s| - 1] == '>' && IsTagName(Strip(s[2..|s| - 1]))
  }

  /** The length of the closing tag at the start of `s`, or 0. It can only end at the first `>`. */
  function CloserLength(s: string): (n: nat)
    ensures n <= |s|
  {
    var n := LengthBefore(s, '>');
    if n < |s| && IsCloser(s[..n + 1]) then n + 1 else 0
  }

  /** How many closing tags `s` contains. */
  function Closers(s: string): nat {
    if s == "" then 0 else (if CloserLength(s) > 0 then 1 else 0) + Closers(s[1..])
  }

  /** `str.lower` on a matched name. */
  function Lower(name: string): string {
    if name == "" then ""
    else
      (if 'A' <= name[0] <= 'Z' then [(name[0] as int + 32) as char] else if name[0] == '\U{130}' then "i\U{307}"
        else [name[0]]) +
      Lower(name[1..])
  }

  function Inert(name: string): string {
    "</" + Lower(name) + "_>"
  }

  /** Rewrite every closing tag `</name>` to the inert `</name_>`. */
  function EscapeForDataBlock(s: string): string
    decreases |s|
  {
    if s == "" then "" else
    var n := CloserLength(s);
    if n == 0 then [s[0]] + EscapeForDataBlock(s[1..])
    else Inert(Strip(s[2..n - 1])) + EscapeForDataBlock(s[n..])
  }

  lemma LengthBeforeIs(s: string, c: char, n: nat)
    requires n <= |s| && c !in s[..n] && (n < |s| ==> s[n] == c)
    ensures LengthBefore(s, c) == n
  {
    if n > 0 {
      assert s[0] in s[..n];
      assert s[1..][..n - 1] == s[..n][1..];
      LengthBeforeIs(s[1..], c, n - 1);
    }
  }

  lemma BeforeFirst(s: string, c: char)
    ensures var n := LengthBefore(s, c); c !in s[..n] && (n < |s| ==> s[n] == c)
  {
    if s != "" && s[0] != c {
      BeforeFirst(s[1..], c);
      var n := LengthBefore(s[1..], c);
      assert s[..n + 1] == [s[0]] + s[1..][..n];
    }
  }

  lemma TagCharacters(tag: string)
    requires tag in WRAPPER_TAGS
    ensures tag != "" && tag[|tag| - 1] != '_' && forall c | c in tag :: 'a' <= c <= 'z' || c == '_'
  {
  }

  lemma MatchedCharacter(c: char, p: char)
    requires MatchesIgnoringCase(c, p) && ('a' <= p <= 'z' || p == '_')
    ensures !IsSpace(c) && c != '<' && c != '>' && c != '"' && (c == '_' ==> p == '_')
  {
  }

  lemma NameCharacters(name: string)
    requires IsTagName(name)
    ensures name != "" && name[|name| - 1] != '_'
    ensures forall c | c in name :: !IsSpace(c) && c != '<' && c != '>' && c != '"'
  {
    hide IsSpace, MatchesIgnoringCase;
    var tag :| tag in WRAPPER_TAGS && NamesTag(name, tag);
    TagCharacters(tag);
    forall i | 0 <= i < |name|
      ensures !IsSpace(name[i]) && name[i] != '<' && name[i] != '>' && name[i] != '"' &&
              (name[i] == '_' ==> tag[i] == '_')
    {
      assert tag[i] in tag;
      MatchedCharacter(name[i], tag[i]);
    }
  }

  lemma {:induction false} StripKeeps(s: string, c: char)
    requires c in s && !IsSpace(c)
    ensures c in Strip(s)
  {
    hide IsSpace;
    StripLeftKeeps(s, c);
    StripRightKeeps(StripLeft(s), c);
  }

  lemma StripLeftKeeps(s: string, c: char)
    requires c in s && !IsSpace(c)
    ensures c in StripLeft(s)
  {
    hide IsSpace;
    if s != "" && IsSpace(s[0]) {
      assert c in s[1..];
      StripLeftKeeps(s[1..], c);
    }
  }

  lemma StripRightKeeps(s: string, c: char)
    requires c in s && !IsSpace(c)
    ensures c in StripRight(s)
  {
    hide IsSpace;
    if s != "" && IsSpace(s[|s| - 1]) {
      assert s == s[..|s| - 1] + [s[|s| - 1]];
      assert c in s[..|s| - 1];
      StripRightKeeps(s[..|s| - 1], c);
    }
  }

  lemma StripLeftKeepsLast(s: string)
    requires s != "" && !IsSpace(s[|s| - 1])
    ensures StripLeft(s) != "" && StripLeft(s)[|StripLeft(s)| - 1] == s[|s| - 1]
  {
    hide IsSpace;
    if IsSpace(s[0]) {
      StripLeftKeepsLast(s[1..]);
    }
  }

  lemma StripKeepsLast(s: string)
    requires s != "" && !IsSpace(s[|s| - 1])
    ensures Strip(s) != "" && Strip(s)[|Strip(s)| - 1] == s[|s| - 1]
  {
    hide IsSpace;
    StripLeftKeepsLast(s);
  }

  lemma MarksAreNotSpace()
    ensures !IsSpace('<') && !IsSpace('>') && !IsSpace('"') && !IsSpace('_')
  {
  }

  lemma CloserCore(s: string)
    requires IsCloser(s)
    ensures |s| > 3 && s[0] == '<' && s[1] == '/' && s[|s| - 1] == '>' && IsTagName(Strip(s[2..|s| - 1]))
  {
  }

  /** A closing tag has its only `<` first and its only `>` last, and ends neither in `">` nor in `_>`. */
  lemma CloserShape(s: string)
    requires IsCloser(s)
    ensures |s| > 3 && s[0] == '<' && s[1] == '/' && s[|s| - 1] == '>'
    ensures '<' !in s[1..] && '>' !in s[..|s| - 1]
    ensures s[|s| - 2] != '"' && s[|s| - 2] != '_'
  {
    hide IsTagName, IsSpace, Strip, IsCloser;
    CloserCore(s);
    var core := s[2..|s| - 1];
    var name := Strip(core);
    NameCharacters(name);
    MarksAreNotSpace();
    assert '<' !in core && '>' !in core && '"' !in core by {
      forall c | c in core && !IsSpace(c) ensures c in name {
        StripKeeps(core, c);
      }
    }
    assert s[1..] == [s[1]] + core + [s[|s| - 1]];
    assert s[..|s| - 1] == [s[0], s[1]] + core;
    assert core != "" by {
      StripOfEmpty();
    }
    assert s[|s| - 2] == core[|core| - 1] && core[|core| - 1] in core;
    if !IsSpace(core[|core| - 1]) {
      StripKeepsLast(core);
    }
  }

  lemma StripOfEmpty()
    ensures Strip("") == ""
  {
  }

  // ---------------------------------------------------------------- where a closing tag can end

  lemma CloserEnds(s: string)
    requires CloserLength(s) > 0
    ensures var n := CloserLength(s);
            3 < n <= |s| && IsCloser(s[..n]) && s[n - 1] == '>' && '>' !in s[..n - 1] && s[0] == '<'
  {
    hide IsTagName, Strip;
    BeforeFirst(s, '>');
  }

  lemma CloserAt(s: string, n: nat)
    requires 0 < n <= |s| && s[n - 1] == '>' && '>' !in s[..n - 1]
    ensures CloserLength(s) == if IsCloser(s[..n]) then n else 0
  {
    LengthBeforeIs(s, '>', n - 1);
  }

  lemma CloserNeedsEnd(s: string)
    requires '>' !in s
    ensures CloserLength(s) == 0
  {
    BeforeFirst(s, '>');
  }

  lemma CloserStarts(s: string)
    requires s != "" && s[0] != '<'
    ensures CloserLength(s) == 0
  {
    hide CloserLength;
    if CloserLength(s) > 0 {
      CloserEnds(s);
    }
  }

  /** How a text begins that nothing open on its left can run into: its first `<` comes before any `>`. */
  predicate OpensWithTag(s: string) {
    forall k | 0 <= k < |s| && s[k] == '>' :: '<' in s[..k]
  }

  /** Every `<` has a `>` after it. */
  predicate Closed(s: string) {
    forall i | 0 <= i < |s| && s[i] == '<' :: '>' in s[i..]
  }

  lemma FirstEnd(s: string) returns (n: nat)
    requires '>' in s
    ensures 0 < n <= |s| && s[n - 1] == '>' && '>' !in s[..n - 1]
  {
    BeforeFirst(s, '>');
    n := LengthBefore(s, '>') + 1;
    assert s[..|s|] == s;
  }

  lemma CloserWithin(a: string, b: string)
    requires '>' in a
    ensures CloserLength(a + b) == CloserLength(a)
  {
    hide CloserLength, IsCloser;
    var n := FirstEnd(a);
    assert (a + b)[..n] == a[..n] && (a + b)[..n - 1] == a[..n - 1];
    CloserAt(a, n);
    CloserAt(a + b, n);
  }

  lemma StraddlerHasNoOpening(a: string, b: string)
    requires a != "" && '>' !in a && CloserLength(a + b) > 0
    ensures exists k :: 0 <= k < |b| && b[k] == '>' && '<' !in b[..k]
  {
    hide CloserLength, IsCloser;
    CloserEnds(a + b);
    var n := CloserLength(a + b);
    var m := (a + b)[..n];
    CloserShape(m);
    assert forall i | 0 <= i < |a| :: (a + b)[i] in a;
    var k := n - 1 - |a|;
    assert m[1..] == a[1..] + b[..k + 1];
    assert b[k] == '>' && forall c | c in b[..k] :: c in b[..k + 1];
  }

  lemma CloserLengthAppend(a: string, b: string)
    requires a != "" && (OpensWithTag(b) || '>' in a || a[0] != '<')
    ensures CloserLength(a + b) > 0 <==> CloserLength(a) > 0
  {
    hide CloserLength;
    if '>' in a {
      CloserWithin(a, b);
    } else if a[0] != '<' {
      CloserStarts(a);
      CloserStarts(a + b);
    } else {
      CloserNeedsEnd(a);
      if CloserLength(a + b) > 0 {
        StraddlerHasNoOpening(a, b);
      }
    }
  }

  // ---------------------------------------------------------------- counting across boundaries

  lemma ClosersUnfold(s: string)
    requires s != ""
    ensures Closers(s) == (if CloserLength(s) > 0 then 1 else 0) + Closers(s[1..])
  {
  }

  lemma ClosedTail(a: string)
    requires a != "" && Closed(a)
    ensures Closed(a[1..]) && ('>' in a || a[0] != '<')
  {
    forall i | 0 <= i < |a[1..]| && a[1..][i] == '<' ensures '>' in a[1..][i..] {
      assert a[i + 1] == '<' && a[1..][i..] == a[i + 1..];
    }
    assert a[0..] == a;
  }

  /** Closing tags are counted piecewise when none can straddle the boundary. */
  lemma {:induction false} ClosersAppend(a: string, b: string)
    requires OpensWithTag(b) || Closed(a)
    ensures Closers(a + b) == Closers(a) + Closers(b)
  {
    if a == "" {
      assert a + b == b;
    } else {
      hide OpensWithTag, Closed, CloserLength, Closers;
      assert (a + b)[1..] == a[1..] + b;
      if Closed(a) {
        ClosedTail(a);
      }
      ClosersAppend(a[1..], b);
      CloserLengthAppend(a, b);
      ClosersUnfold(a);
      ClosersUnfold(a + b);
    }
  }

  /** A text whose only `>` is last, after a quote or an underscore, holds no closing tag. */
  lemma {:induction false} QuotedEnd(s: string)
    requires |s| > 1 ==> (s[|s| - 2] == '_' || s[|s| - 2] == '"')
    requires s != "" ==> '>' !in s[..|s| - 1]
    ensures Closers(s) == 0
  {
    if s != "" {
      hide CloserLength, Closers, IsCloser;
      if CloserLength(s) > 0 {
        CloserEnds(s);
        EndsLast(s, CloserLength(s));
        assert s[..|s|] == s;
        CloserShape(s);
      }
      assert |s| > 1 ==> s[1..][..|s| - 2] == s[..|s| - 1][1..];
      QuotedEnd(s[1..]);
      ClosersUnfold(s);
    } else {
      NoClosersInNothing();
    }
  }

  lemma EndsLast(s: string, n: nat)
    requires 0 < n <= |s| && s[n - 1] == '>' && '>' !in s[..|s| - 1]
    ensures n == |s|
  {
    assert forall i | 0 <= i < |s| - 1 :: s[i] in s[..|s| - 1];
  }

  lemma NoClosersInNothing()
    ensures Closers("") == 0
  {
  }

  // ---------------------------------------------------------------- escaping

  lemma EscapeUnfolds(s: string)
    requires s != ""
    ensures var n := CloserLength(s);
            EscapeForDataBlock(s) == if n == 0 then [s[0]] + EscapeForDataBlock(s[1..])
                                     else if n > 3 then Inert(Strip(s[2..n - 1])) + EscapeForDataBlock(s[n..]) else ""
  {
    hide IsTagName, Strip;
    if CloserLength(s) > 0 {
      CloserEnds(s);
    }
  }

  /** Escaping touches nothing before the first `<`, and a `<` stays a `<`. */
  lemma {:induction false} EscapeKeepsPrefix(s: string) returns (n: nat)
    ensures n <= |s| && n <= |EscapeForDataBlock(s)|
    ensures EscapeForDataBlock(s)[..n] == s[..n]
    ensures n == |s| == |EscapeForDataBlock(s)| || (n < |s| && n < |EscapeForDataBlock(s)| &&
              s[n] == '<' == EscapeForDataBlock(s)[n])
    decreases |s|
  {
    hide EscapeForDataBlock, CloserLength, IsCloser, Strip;
    if s == "" {
      n := 0;
      EscapeOfNothing();
    } else {
      EscapeUnfolds(s);
      if s[0] == '<' {
        n := 0;
        if CloserLength(s) > 0 {
          CloserEnds(s);
        }
      } else {
        CloserStarts(s);
        n := EscapeKeepsPrefix(s[1..]);
        var rest := EscapeForDataBlock(s[1..]);
        assert s[..n + 1] == [s[0]] + s[1..][..n];
        assert ([s[0]] + rest)[..n + 1] == [s[0]] + rest[..n];
        n := n + 1;
      }
    }
  }

  lemma EscapeOfNothing()
    ensures EscapeForDataBlock("") == ""
  {
  }

  lemma {:induction false} LowerKeepsBracketsOut(name: string)
    requires forall c | c in name :: c != '<' && c != '>'
    ensures forall c | c in Lower(name) :: c != '<' && c != '>'
  {
    if name != "" {
      assert name[0] in name && forall c | c in name[1..] :: c in name;
      LowerKeepsBracketsOut(name[1..]);
    }
  }

  lemma InertTag(name: string)
    requires IsTagName(name)
    ensures Closers(Inert(name)) == 0 && Closed(Inert(name))
  {
    hide IsTagName, Closers;
    NameCharacters(name);
    LowerKeepsBracketsOut(name);
    var inert := Inert(name);
    assert inert[..|inert| - 1] == "</" + Lower(name) + "_";
    QuotedEnd(inert);
    forall i | 0 <= i < |inert| ensures '>' in inert[i..] {
      assert inert[i..][|inert| - 1 - i] == '>';
    }
  }

  /** Keeping a character that starts no closing tag does not make it start one. */
  lemma KeptCharacter(s: string)
    requires s != "" && CloserLength(s) == 0
    ensures CloserLength([s[0]] + EscapeForDataBlock(s[1..])) == 0
  {
    hide EscapeForDataBlock, CloserLength, OpensWithTag;
    var rest := EscapeForDataBlock(s[1..]);
    var n := EscapeKeepsPrefix(s[1..]);
    var head := [s[0]] + s[1..][..n];
    assert s == head + s[1..][n..];
    assert [s[0]] + rest == head + rest[n..];
    StartsWithTag(s[1..][n..]);
    StartsWithTag(rest[n..]);
    CloserLengthAppend(head, s[1..][n..]);
    CloserLengthAppend(head, rest[n..]);
  }

  lemma StartsWithTag(s: string)
    requires s == "" || s[0] == '<'
    ensures OpensWithTag(s)
  {
    forall k | 0 <= k < |s| && s[k] == '>' ensures '<' in s[..k] {
      assert s[..k][0] == '<';
    }
  }

  /** Escaped text holds no wrapper's closing tag, in any spelling. */
  lemma {:induction false} EscapedHasNoCloser(s: string)
    ensures Closers(EscapeForDataBlock(s)) == 0
    decreases |s|
  {
    hide EscapeForDataBlock, Closers, CloserLength, Closed, OpensWithTag, IsCloser, Inert, Strip;
    if s == "" {
      EscapeOfNothing();
      NoClosersInNothing();
    } else {
      EscapeUnfolds(s);
      if CloserLength(s) == 0 {
        EscapedHasNoCloser(s[1..]);
        KeptCharacter(s);
        var out := [s[0]] + EscapeForDataBlock(s[1..]);
        ClosersUnfold(out);
        assert out[1..] == EscapeForDataBlock(s[1..]);
      } else {
        CloserEnds(s);
        var n := CloserLength(s);
        EscapedHasNoCloser(s[n..]);
        CloserCore(s[..n]);
        assert s[..n][2..n - 1] == s[2..n - 1];
        InertTag(Strip(s[2..n - 1]));
        ClosersAppend(Inert(Strip(s[2..n - 1])), EscapeForDataBlock(s[n..]));
      }
    }
  }

  lemma {:induction false} NothingToEscape(s: string)
    requires Closers(s) == 0
    ensures EscapeForDataBlock(s) == s
  {
    hide EscapeForDataBlock, Closers, CloserLength;
    if s == "" {
      EscapeOfNothing();
    } else {
      ClosersUnfold(s);
      EscapeUnfolds(s);
      NothingToEscape(s[1..]);
      assert s == [s[0]] + s[1..];
    }
  }

  /** Escaping changes a text exactly when the text holds a closing tag; so escaping twice is escaping once. */
  lemma EscapeFixesExactly(s: string)
    ensures EscapeForDataBlock(s) == s <==> Closers(s) == 0
    ensures EscapeForDataBlock(EscapeForDataBlock(s)) == EscapeForDataBlock(s)
  {
    hide EscapeForDataBlock, Closers;
    EscapedHasNoCloser(s);
    NothingToEscape(EscapeForDataBlock(s));
    if Closers(s) == 0 {
      NothingToEscape(s);
    }
  }

  // ---------------------------------------------------------------- the block

  predicate IsAlphanumeric(c: char) {
    'a' <= c <= 'z' || 'A' <= c <= 'Z' || '0' <= c <= '9'
  }

  predicate IsLoginName(s: string) {
    1 <= |s| <= 39 && IsAlphanumeric(s[0]) &&
    forall i | 0 <= i < |s| :: IsAlphanumeric(s[i]) || (s[i] == '-' && i + 1 < |s| && IsAlphanumeric(s[i + 1]))
  }

  function WithoutSuffix(s: string, suffix: string): string {
    if |suffix| <= |s| && s[|s| - |suffix|..] == suffix then s[..|s| - |suffix|] else s
  }

  /** A login name, or one followed by `[bot]`. */
  predicate IsPlainLogin(s: string) {
    IsLoginName(WithoutSuffix(s, "[bot]"))
  }

  /** `_GITHUB_LOGIN_RE`; its `$` also matches before a final line feed. */
  predicate IsLogin(s: string) {
    IsPlainLogin(WithoutSuffix(s, "\n"))
  }

  function SafeLogin(author: Option<string>): string {
    if author.Some? && IsLogin(author.value) then author.value else "unknown"
  }

  function Location(t: Thread): string {
    var path := if t.path.GetOr("") == "" then "<unknown>" else t.path.value;
    var line := if t.line.Some? then t.line else t.originalLine;
    if line.Some? then path + ":" + Decimal(line.value) else path
  }

  function SafeLocation(location: string): string {
    ReplaceChar(ReplaceChar(location, '"', "&quot;"), '>', "&gt;")
  }

  function StatusName(t: Thread): string {
    if t.resolved then "resolved" else if t.outdated then "outdated" else "open"
  }

  function Trimmed(body: string): string {
    if |body| > 4000 then body[..4000] + "\n...[truncated]" else body
  }

  function ThreadHeader(t: Thread): string {
    "  <thread location=\"" + SafeLocation(Location(t)) + "\" status=\"" + StatusName(t) + "\">"
  }

  function CommentHeader(c: Comment): string
    requires c.Comment?
  {
    "    <comment author=\"" + SafeLogin(c.author) + "\">"
  }

  function CommentLines(c: Comment): seq<string> {
    if c.NotADict? then []
    else [CommentHeader(c), "      <body>", EscapeForDataBlock(Trimmed(c.body.GetOr(""))), "      </body>",
      "    </comment>"]
  }

  function AllCommentLines(comments: seq<Comment>): seq<string> {
    if comments == [] then [] else AllCommentLines(comments[..|comments| - 1]) + CommentLines(comments[|comments| - 1])
  }

  function ThreadLines(t: Thread): seq<string> {
    [ThreadHeader(t)] + AllCommentLines(t.comments) + ["  </thread>"]
  }

  function AllThreadLines(threads: seq<Thread>): seq<string> {
    if threads == [] then [] else AllThreadLines(threads[..|threads| - 1]) + ThreadLines(threads[|threads| - 1])
  }

  function Visible(threads: seq<Thread>): seq<Thread> {
    if threads == [] then []
    else
      Visible(threads[..|threads| - 1]) + if threads[|threads| - 1].comments == [] then [] else [threads[|threads| - 1]]
  }

  function Priority(t: Thread): int {
    if !t.resolved && !t.outdated then 0 else if !t.resolved then 1 else 2
  }

  function SortLine(t: Thread): int {
    if t.line.GetOr(0) != 0 then t.line.value else t.originalLine.GetOr(0)
  }

  /** Open threads, then outdated, then resolved ones; by path and line within each. */
  predicate KeyAtMost(a: Thread, b: Thread) {
    var p, q := a.path.GetOr(""), b.path.GetOr("");
    Priority(a) < Priority(b) ||
    (Priority(a) == Priority(b) && (p == q ==> SortLine(a) <= SortLine(b)) && AtMost(p, q))
  }

  function ThreadOrder(): (Thread, Thread) -> bool {
    (a, b) => KeyAtMost(a, b)
  }

  function BlockLines(visible: seq<Thread>): seq<string> {
    ["<pr_review_threads>"] + AllThreadLines(Sort(visible, ThreadOrder())) + ["</pr_review_threads>"]
  }

  function ThreadsBlock(threads: seq<Thread>): string {
    if Visible(threads) == [] then "" else Join("\n", BlockLines(Visible(threads)))
  }

  /** How many comments of the threads are rendered. */
  function Rendered(comments: seq<Comment>): nat {
    if comments == [] then 0
    else Rendered(comments[..|comments| - 1]) + if comments[|comments| - 1].NotADict? then 0 else 1
  }

  function AllRendered(threads: seq<Thread>): nat {
    if threads == [] then 0 else AllRendered(threads[..|threads| - 1]) + Rendered(threads[|threads| - 1].comments)
  }

  // ---------------------------------------------------------------- lines

  /** A line of the printer's own markup. */
  predicate TagLine(line: string) {
    Closed(line) && OpensWithTag(line) && '<' in line
  }

  /** Markup at both ends, and no two lines of foreign text in a row. */
  predicate Framed(lines: seq<string>) {
    lines != [] && TagLine(lines[0]) && TagLine(lines[|lines| - 1]) &&
    forall i | 0 <= i < |lines| - 1 :: TagLine(lines[i]) || TagLine(lines[i + 1])
  }

  function Total(lines: seq<string>): nat {
    if lines == [] then 0 else Total(lines[..|lines| - 1]) + Closers(lines[|lines| - 1])
  }

  lemma {:induction false} TotalAppend(a: seq<string>, b: seq<string>)
    ensures Total(a + b) == Total(a) + Total(b)
  {
    hide Closers;
    if b == [] {
      assert a + b == a;
    } else {
      assert (a + b)[..|a + b| - 1] == a + b[..|b| - 1];
      TotalAppend(a, b[..|b| - 1]);
    }
  }

  lemma TotalOne(line: string)
    ensures Total([line]) == Closers(line)
  {
    hide Closers;
    assert [line][..0] == [];
  }

  lemma FramedAppend(a: seq<string>, b: seq<string>)
    requires Framed(a) && Framed(b)
    ensures Framed(a + b)
  {
    hide TagLine;
    var c := a + b;
    forall i | 0 <= i < |c| - 1 ensures TagLine(c[i]) || TagLine(c[i + 1]) {
      if i < |a| {
        assert c[i] == a[i];
      } else {
        assert c[i] == b[i - |a|] && c[i + 1] == b[i + 1 - |a|];
      }
    }
  }

  lemma OpensLonger(line: string, more: string)
    requires TagLine(line)
    ensures OpensWithTag(line + more)
  {
    forall k | 0 <= k < |line + more| && (line + more)[k] == '>' ensures '<' in (line + more)[..k] {
      if k < |line| {
        assert (line + more)[..k] == line[..k];
      } else {
        assert (line + more)[..k] == line + more[..k - |line|];
      }
    }
  }

  lemma OpensAfterBreak(s: string)
    requires OpensWithTag(s)
    ensures OpensWithTag("\n" + s)
  {
    forall k | 0 <= k < |"\n" + s| && ("\n" + s)[k] == '>' ensures '<' in ("\n" + s)[..k] {
      assert ("\n" + s)[..k] == "\n" + s[..k - 1];
    }
  }

  /** No closing tag arises where lines are joined. */
  lemma {:induction false} JoinCounts(lines: seq<string>)
    requires forall i | 0 <= i < |lines| - 1 :: TagLine(lines[i]) || TagLine(lines[i + 1])
    ensures Closers(Join("\n", lines)) == Total(lines)
  {
    hide Closers, CloserLength, OpensWithTag, Closed, Total;
    if |lines| == 0 {
      NoClosersInNothing();
      NothingInTotal();
    } else if |lines| == 1 {
      TotalOne(lines[0]);
      assert lines == [lines[0]];
    } else {
      var rest := lines[1..];
      JoinCounts(rest);
      var tail := Join("\n", rest);
      var more := if |rest| == 1 then "" else "\n" + Join("\n", rest[1..]);
      assert tail == rest[0] + more;
      if TagLine(rest[0]) {
        OpensLonger(rest[0], more);
        OpensAfterBreak(tail);
      } else {
        assert TagLine(lines[0]);
      }
      ClosersAppend(lines[0], "\n" + tail);
      CloserStarts("\n" + tail);
      ClosersUnfold("\n" + tail);
      assert ("\n" + tail)[1..] == tail;
      assert lines[0] + ("\n" + tail) == lines[0] + "\n" + tail;
      TotalAppend([lines[0]], rest);
      TotalOne(lines[0]);
      assert lines == [lines[0]] + rest;
    }
  }

  lemma NothingInTotal()
    ensures Total([]) == 0
  {
  }

  // ---------------------------------------------------------------- the printer's own lines

  lemma {:induction false} NothingOpens(s: string)
    requires '<' !in s
    ensures Closers(s) == 0
  {
    hide CloserLength, Closers;
    if s == "" {
      NoClosersInNothing();
    } else {
      CloserStarts(s);
      ClosersUnfold(s);
      NothingOpens(s[1..]);
    }
  }

  /** A line that only indents a tag: one `<` after the indentation, one `>` at the end. */
  lemma ShapeOfTag(line: string, indentation: nat)
    requires indentation < |line| - 1 && line[indentation] == '<' && '<' !in line[..indentation]
    requires line[|line| - 1] == '>' && '>' !in line[..|line| - 1]
    ensures TagLine(line)
  {
    forall i | 0 <= i < |line| && line[i] == '<' ensures '>' in line[i..] {
      assert line[i..][|line| - 1 - i] == '>';
    }
    forall k | 0 <= k < |line| && line[k] == '>' ensures '<' in line[..k] {
      EndsLast(line, k + 1);
      assert line[..k][indentation] == '<';
    }
  }

  lemma TagStripsToItself(tag: string)
    requires tag in WRAPPER_TAGS
    ensures Strip(tag) == tag && IsTagName(tag)
  {
    TagCharacters(tag);
    assert tag[0] in tag && tag[|tag| - 1] in tag;
    assert StripLeft(tag) == tag;
    assert NamesTag(tag, tag);
  }

  lemma {:induction false} SpacesDoNotCount(indentation: nat, s: string)
    ensures Closers(seq(indentation, _ => ' ') + s) == Closers(s)
  {
    hide CloserLength, Closers;
    var spaces := seq(indentation, _ => ' ');
    if indentation == 0 {
      assert spaces + s == s;
    } else {
      SpacesDoNotCount(indentation - 1, s);
      assert (spaces + s)[1..] == seq(indentation - 1, _ => ' ') + s;
      CloserStarts(spaces + s);
      ClosersUnfold(spaces + s);
    }
  }

  lemma BareCloser(tag: string)
    requires tag in WRAPPER_TAGS
    ensures Closers("</" + tag + ">") == 1 && '>' !in tag && '<' !in tag
  {
    hide CloserLength, Closers, IsCloser, IsTagName;
    TagStripsToItself(tag);
    TagCharacters(tag);
    OneCloser(tag);
  }

  lemma OneCloser(tag: string)
    requires tag != "" && '>' !in tag && '<' !in tag && IsTagName(Strip(tag))
    ensures Closers("</" + tag + ">") == 1
  {
    hide *;
    var closer := "</" + tag + ">";
    assert closer[2..|closer| - 1] == tag && closer[..|closer|] == closer;
    assert closer[..|closer| - 1] == "</" + tag && closer[1..] == "/" + tag + ">";
    CloserFrom(closer);
    CloserAt(closer, |closer|);
    ClosersUnfold(closer);
    NothingOpens(closer[1..]);
  }

  /** A closing line of the printer is one closing tag. */
  lemma ClosingLine(indentation: nat, tag: string)
    requires tag in WRAPPER_TAGS
    ensures var line := seq(indentation, _ => ' ') + "</" + tag + ">"; TagLine(line) && Closers(line) == 1
  {
    hide Closers, TagLine;
    BareCloser(tag);
    hide WRAPPER_TAGS;
    var spaces := seq(indentation, _ => ' ');
    SpacesDoNotCount(indentation, "</" + tag + ">");
    var line := spaces + "</" + tag + ">";
    assert line == spaces + ("</" + tag + ">");
    assert line[..|line| - 1] == spaces + "</" + tag;
    assert line[..indentation] == spaces;
    ShapeOfTag(line, indentation);
  }

  lemma CloserFrom(s: string)
    requires |s| > 3 && s[0] == '<' && s[1] == '/' && s[|s| - 1] == '>' && IsTagName(Strip(s[2..|s| - 1]))
    ensures IsCloser(s)
  {
  }

  /** An opening line whose attribute holds no `>` is markup and contains no closing tag. */
  lemma OpeningLine(indentation: nat, name: string, attributes: string)
    requires '<' !in name && '>' !in name && '>' !in attributes
    ensures var line := seq(indentation, _ => ' ') + "<" + name + attributes + "\">";
            TagLine(line) && Closers(line) == 0
  {
    hide Closers, TagLine;
    var line := seq(indentation, _ => ' ') + "<" + name + attributes + "\">";
    assert line[..|line| - 1] == seq(indentation, _ => ' ') + "<" + name + attributes + "\"";
    assert line[..indentation] == seq(indentation, _ => ' ');
    ShapeOfTag(line, indentation);
    QuotedEnd(line);
  }

  // ---------------------------------------------------------------- what a foreign string can put into the block

  lemma {:induction false} ReplaceRemoves(s: string, c: char, code: string)
    requires c !in code
    ensures c !in ReplaceChar(s, c, code)
  {
    if s != "" {
      ReplaceRemoves(s[1..], c, code);
    }
  }

  lemma SafeLocationHasNoEnd(location: string)
    ensures '>' !in SafeLocation(location)
  {
    hide ReplaceChar;
    ReplaceRemoves(ReplaceChar(location, '"', "&quot;"), '>', "&gt;");
  }

  lemma WithoutSuffixKeeps(s: string, suffix: string)
    ensures s == WithoutSuffix(s, suffix) || s == WithoutSuffix(s, suffix) + suffix
    ensures forall c | c in s :: c in WithoutSuffix(s, suffix) || c in suffix
  {
    var t := WithoutSuffix(s, suffix);
    assert s == t || s == t + suffix;
  }

  /** An author can put nothing into the block but letters, digits, hyphens, brackets and a line feed. */
  lemma LoginCharacters(author: Option<string>)
    ensures forall c | c in SafeLogin(author) :: IsAlphanumeric(c) || c == '-' || c == '[' || c == ']' || c == '\n'
    ensures |SafeLogin(author)| <= 45
  {
    hide WithoutSuffix, IsAlphanumeric, IsLoginName;
    LiteralCharacters();
    if author.Some? && IsLogin(author.value) {
      var plain := WithoutSuffix(author.value, "\n");
      var name := WithoutSuffix(plain, "[bot]");
      LoginNameCharacters(name);
      WithoutSuffixKeeps(author.value, "\n");
      WithoutSuffixKeeps(plain, "[bot]");
      SuffixLength(author.value, "\n");
      SuffixLength(plain, "[bot]");
    }
  }

  lemma LoginNameCharacters(name: string)
    requires IsLoginName(name)
    ensures |name| <= 39 && forall c | c in name :: IsAlphanumeric(c) || c == '-'
  {
  }

  lemma LiteralCharacters()
    ensures forall c | c in "unknown" :: IsAlphanumeric(c)
    ensures forall c | c in "[bot]" :: IsAlphanumeric(c) || c == '[' || c == ']'
    ensures |"[bot]"| == 5 && |"unknown"| == 7
  {
  }

  /** The line feed exactly when the author is a login with one line feed after it. */
  lemma LineFeedInLogin(author: Option<string>)
    ensures '\n' in SafeLogin(author) <==> exists login :: IsPlainLogin(login) && author == Some(login + "\n")
  {
    forall login | IsPlainLogin(login) && author == Some(login + "\n") ensures '\n' in SafeLogin(author) {
      assert WithoutSuffix(login + "\n", "\n") == login;
      assert (login + "\n")[|login|] == '\n';
    }
    if author.Some? && IsLogin(author.value) {
      hide WithoutSuffix;
      var plain := WithoutSuffix(author.value, "\n");
      WithoutSuffixKeeps(author.value, "\n");
      WithoutSuffixKeeps(plain, "[bot]");
    }
  }

  /** Such a login reaches the block with its line feed. */
  lemma LineFeedAfterALogin()
    ensures SafeLogin(Some("ab\n")) == "ab\n"
  {
    assert WithoutSuffix("ab\n", "\n") == "ab" && WithoutSuffix("ab", "[bot]") == "ab";
  }

  lemma SuffixLength(s: string, suffix: string)
    ensures |s| <= |WithoutSuffix(s, suffix)| + |suffix|
  {
  }

  lemma SpacesAre()
    ensures seq(2, _ => ' ') == "  " && seq(4, _ => ' ') == "    " && seq(6, _ => ' ') == "      " &&
            seq(0, _ => ' ') == ""
  {
  }

  lemma StatusHasNoEnd(t: Thread)
    ensures '>' !in StatusName(t)
  {
  }

  lemma HeaderShape(location: string, status: string)
    requires '>' !in location && '>' !in status
    ensures var line := "  <thread location=\"" + location + "\" status=\"" + status + "\">";
            TagLine(line) && Closers(line) == 0
  {
    hide *;
    SpacesAre();
    var name, middle := "thread location=\"", "\" status=\"";
    OpeningLine(2, name, location + middle + status);
    assert "  " + "<" + name == "  <thread location=\"";
    Regroup("  " + "<" + name, location + middle, status);
    Regroup("  " + "<" + name, location, middle);
  }

  lemma HeaderLines(t: Thread)
    ensures TagLine(ThreadHeader(t)) && Closers(ThreadHeader(t)) == 0
  {
    hide Closers, TagLine, SafeLocation, Location, StatusName;
    SafeLocationHasNoEnd(Location(t));
    StatusHasNoEnd(t);
    HeaderShape(SafeLocation(Location(t)), StatusName(t));
  }

  lemma CommentHeaderLine(c: Comment)
    requires c.Comment?
    ensures TagLine(CommentHeader(c)) && Closers(CommentHeader(c)) == 0
  {
    hide Closers, TagLine, SafeLogin;
    var login := SafeLogin(c.author);
    LoginCharacters(c.author);
    SpacesAre();
    OpeningLine(4, "comment author=\"", login);
    assert seq(4, _ => ' ') + "<" + "comment author=\"" + login + "\">" == CommentHeader(c);
  }

  lemma BodyOpening()
    ensures TagLine("      <body>") && Closers("      <body>") == 0
  {
    hide CloserLength, Closers, TagLine;
    var line := "      <body>";
    ShapeOfTag(line, 6);
    SpacesAre();
    SpacesDoNotCount(6, "<body>");
    assert line == seq(6, _ => ' ') + "<body>";
    ClosersUnfold("<body>");
    assert "<body>"[1..] == "body>";
    NothingOpens("body>");
    if CloserLength("<body>") > 0 {
      CloserSlash("<body>");
    }
  }

  lemma CloserSlash(s: string)
    requires CloserLength(s) > 0
    ensures |s| > 3 && s[1] == '/'
  {
    hide IsTagName, Strip;
  }

  lemma BlockOpening()
    ensures TagLine("<pr_review_threads>") && Closers("<pr_review_threads>") == 0
  {
    hide CloserLength, Closers, TagLine;
    var line := "<pr_review_threads>";
    ShapeOfTag(line, 0);
    ClosersUnfold(line);
    assert line[1..] == "pr_review_threads>";
    NothingOpens(line[1..]);
    if CloserLength(line) > 0 {
      CloserSlash(line);
    }
  }

  lemma CommentClosers()
    ensures TagLine("      </body>") && Closers("      </body>") == 1
    ensures TagLine("    </comment>") && Closers("    </comment>") == 1
  {
    hide Closers, TagLine;
    SpacesAre();
    ClosingLine(6, "body");
    ClosingLine(4, "comment");
    hide *;
    assert "      " + "</" + "body" + ">" == "      </body>";
    assert "    " + "</" + "comment" + ">" == "    </comment>";
  }

  lemma ThreadClosers()
    ensures TagLine("  </thread>") && Closers("  </thread>") == 1
    ensures TagLine("</pr_review_threads>") && Closers("</pr_review_threads>") == 1
  {
    hide Closers, TagLine;
    SpacesAre();
    ClosingLine(2, "thread");
    ClosingLine(0, "pr_review_threads");
    hide *;
    assert "  " + "</" + "thread" + ">" == "  </thread>";
    assert "" + "</" + "pr_review_threads" + ">" == "</pr_review_threads>";
  }

  lemma FixedClosers()
    ensures TagLine("      </body>") && Closers("      </body>") == 1
    ensures TagLine("    </comment>") && Closers("    </comment>") == 1
    ensures TagLine("  </thread>") && Closers("  </thread>") == 1
    ensures TagLine("</pr_review_threads>") && Closers("</pr_review_threads>") == 1
  {
    hide *;
    CommentClosers();
    ThreadClosers();
  }

  lemma OneComment(c: Comment)
    requires c.Comment?
    ensures Framed(CommentLines(c)) && Total(CommentLines(c)) == 2
  {
    hide Closers, TagLine, EscapeForDataBlock, CommentHeader, Trimmed;
    var body := EscapeForDataBlock(Trimmed(c.body.GetOr("")));
    CommentHeaderLine(c);
    BodyOpening();
    FixedClosers();
    EscapedHasNoCloser(Trimmed(c.body.GetOr("")));
    FiveLines(CommentHeader(c), "      <body>", body, "      </body>", "    </comment>");
  }

  lemma OneMore(lines: seq<string>, line: string)
    ensures Total(lines + [line]) == Total(lines) + Closers(line)
  {
    hide Closers, Total;
    TotalAppend(lines, [line]);
    TotalOne(line);
  }

  lemma FiveLines(a: string, b: string, c: string, d: string, e: string)
    requires TagLine(a) && TagLine(b) && TagLine(d) && TagLine(e)
    ensures Framed([a, b, c, d, e]) && Total([a, b, c, d, e]) == Closers(a) + Closers(b) + Closers(c) + Closers(d) +
            Closers(e)
  {
    hide Closers, TagLine, Total;
    TotalOne(a);
    OneMore([a], b);
    OneMore([a, b], c);
    OneMore([a, b, c], d);
    OneMore([a, b, c, d], e);
    assert [a] + [b] == [a, b] && [a, b] + [c] == [a, b, c] && [a, b, c] + [d] == [a, b, c, d];
    assert [a, b, c, d] + [e] == [a, b, c, d, e];
  }

  lemma {:induction false} AllComments(comments: seq<Comment>)
    ensures AllCommentLines(comments) == [] || Framed(AllCommentLines(comments))
    ensures Total(AllCommentLines(comments)) == 2 * Rendered(comments)
  {
    hide Framed, CommentLines, Total;
    NothingInTotal();
    if comments != [] {
      var front, last := comments[..|comments| - 1], comments[|comments| - 1];
      AllComments(front);
      TotalAppend(AllCommentLines(front), CommentLines(last));
      if last.NotADict? {
        NotRendered(last);
        assert AllCommentLines(comments) == AllCommentLines(front);
      } else {
        OneComment(last);
        if AllCommentLines(front) == [] {
          assert AllCommentLines(comments) == CommentLines(last);
        } else {
          FramedAppend(AllCommentLines(front), CommentLines(last));
        }
      }
    }
  }

  lemma NotRendered(c: Comment)
    requires c.NotADict?
    ensures CommentLines(c) == []
  {
  }

  lemma FramedOne(line: string)
    requires TagLine(line)
    ensures Framed([line])
  {
    hide TagLine;
  }

  lemma OneThread(t: Thread)
    ensures Framed(ThreadLines(t)) && Total(ThreadLines(t)) == 1 + 2 * Rendered(t.comments)
  {
    hide Framed, AllCommentLines, ThreadHeader, Total, Closers, TagLine;
    var middle := AllCommentLines(t.comments);
    HeaderLines(t);
    AllComments(t.comments);
    FixedClosers();
    FramedOne(ThreadHeader(t));
    FramedOne("  </thread>");
    TotalOne(ThreadHeader(t));
    TotalOne("  </thread>");
    TotalAppend([ThreadHeader(t)], middle);
    TotalAppend([ThreadHeader(t)] + middle, ["  </thread>"]);
    if middle == [] {
      assert [ThreadHeader(t)] + middle == [ThreadHeader(t)];
    } else {
      FramedAppend([ThreadHeader(t)], middle);
    }
    FramedAppend([ThreadHeader(t)] + middle, ["  </thread>"]);
  }

  lemma {:induction false} AllThreads(threads: seq<Thread>)
    ensures AllThreadLines(threads) == [] || Framed(AllThreadLines(threads))
    ensures Total(AllThreadLines(threads)) == |threads| + 2 * AllRendered(threads)
  {
    hide Framed, ThreadLines, Total, Rendered;
    NothingInTotal();
    if threads != [] {
      var front, last := threads[..|threads| - 1], threads[|threads| - 1];
      AllThreads(front);
      TotalAppend(AllThreadLines(front), ThreadLines(last));
      OneThread(last);
      if AllThreadLines(front) == [] {
        assert AllThreadLines(threads) == ThreadLines(last);
      } else {
        FramedAppend(AllThreadLines(front), ThreadLines(last));
      }
    }
  }

  lemma {:induction false} RenderedOfRearranged(a: seq<Thread>, b: seq<Thread>)
    requires multiset(a) == multiset(b)
    ensures AllRendered(a) == AllRendered(b)
    decreases |a|
  {
    assert |a| == |multiset(a)| && |b| == |multiset(b)|;
    if a != [] {
      hide Rendered;
      var last := a[|a| - 1];
      assert last in multiset(b);
      var k :| 0 <= k < |b| && b[k] == last;
      WithoutAt(a, |a| - 1);
      WithoutAt(b, k);
      assert a[..|a| - 1] + a[|a| - 1 + 1..] == a[..|a| - 1];
      RenderedOfRearranged(a[..|a| - 1], b[..k] + b[k + 1..]);
      RenderedWithout(b, k);
    }
  }

  lemma {:induction false} RenderedWithout(b: seq<Thread>, k: int)
    requires 0 <= k < |b|
    ensures AllRendered(b) == AllRendered(b[..k] + b[k + 1..]) + Rendered(b[k].comments)
  {
    hide Rendered;
    if k == |b| - 1 {
      assert b[..k] + b[k + 1..] == b[..k];
    } else {
      RenderedWithout(b[..|b| - 1], k);
      var less := b[..k] + b[k + 1..];
      assert less[..|less| - 1] == b[..|b| - 1][..k] + b[..|b| - 1][k + 1..];
      assert less[|less| - 1] == b[|b| - 1];
    }
  }

  lemma {:induction false} RenderedAreVisible(threads: seq<Thread>)
    ensures AllRendered(Visible(threads)) == AllRendered(threads)
  {
    if threads != [] {
      var front, last := threads[..|threads| - 1], threads[|threads| - 1];
      RenderedAreVisible(front);
      if last.comments == [] {
        assert Visible(threads) == Visible(front);
      } else {
        assert Visible(threads)[..|Visible(threads)| - 1] == Visible(front);
      }
    }
  }

  /**
   * Whatever authors, paths and bodies hold, the block contains the closing tags of the printer and no others:
   * its own, one per visible thread, and two per rendered comment.
   */
  lemma BlockHasOnlyItsClosers(threads: seq<Thread>)
    ensures Closers(ThreadsBlock(threads)) ==
            if Visible(threads) == [] then 0 else 1 + |Visible(threads)| + 2 * AllRendered(threads)
  {
    hide Closers, TagLine, AllThreadLines, Framed, AllRendered, Total, Visible;
    var visible := Visible(threads);
    if visible == [] {
      NoClosersInNothing();
    } else {
      var sorted := Sort(visible, ThreadOrder());
      SortPermutes(visible, ThreadOrder());
      RenderedOfRearranged(sorted, visible);
      RenderedAreVisible(threads);
      AllThreads(sorted);
      BlockOpening();
      FixedClosers();
      hide Sort;
      var middle := AllThreadLines(sorted);
      var first, final := ["<pr_review_threads>"], ["</pr_review_threads>"];
      FramedOne("<pr_review_threads>");
      FramedOne("</pr_review_threads>");
      TotalOne("<pr_review_threads>");
      TotalOne("</pr_review_threads>");
      TotalAppend(first, middle);
      TotalAppend(first + middle, final);
      if middle == [] {
        assert first + middle == first;
      } else {
        FramedAppend(first, middle);
      }
      FramedAppend(first + middle, final);
      FramedJoins(BlockLines(visible));
    }
  }

  lemma FramedJoins(lines: seq<string>)
    requires Framed(lines)
    ensures Closers(Join("\n", lines)) == Total(lines)
  {
    JoinCounts(lines);
  }

  // ---------------------------------------------------------------- the order of threads

  lemma KeysAreOrdered(a: Thread, b: Thread, c: Thread)
    ensures KeyAtMost(a, b) || KeyAtMost(b, a)
    ensures KeyAtMost(a, b) && KeyAtMost(b, c) ==> KeyAtMost(a, c)
  {
    hide SortLine;
    var p, q, r := a.path.GetOr(""), b.path.GetOr(""), c.path.GetOr("");
    AtMostIsTotal(p, q);
    AtMostIsTotal(q, r);
    if AtMost(p, q) && AtMost(q, r) {
      AtMostIsTransitive(p, q, r);
    }
  }

  /** The threads of the block: the visible ones, each as often as it was given, all open ones before all others. */
  lemma OpenThreadsComeFirst(threads: seq<Thread>)
    ensures var sorted := Sort(Visible(threads), ThreadOrder());
            multiset(sorted) == multiset(Visible(threads)) && Sorted(sorted, ThreadOrder()) &&
            forall i, j | 0 <= i < j < |sorted| && StatusName(sorted[j]) == "open" :: StatusName(sorted[i]) == "open"
  {
    var visible := Visible(threads);
    forall a, b, c
      ensures KeyAtMost(a, b) || KeyAtMost(b, a)
      ensures KeyAtMost(a, b) && KeyAtMost(b, c) ==> KeyAtMost(a, c)
    {
      KeysAreOrdered(a, b, c);
    }
    SortPermutes(visible, ThreadOrder());
    SortSorts(visible, ThreadOrder());
    var sorted := Sort(visible, ThreadOrder());
    hide Sort, Visible;
    forall i, j | 0 <= i < j < |sorted| && StatusName(sorted[j]) == "open" ensures StatusName(sorted[i]) == "open" {
      assert ThreadOrder()(sorted[i], sorted[j]);
      StatusesDiffer(sorted[i]);
      StatusesDiffer(sorted[j]);
    }
  }

  lemma StatusesDiffer(t: Thread)
    ensures StatusName(t) == "open" <==> Priority(t) == 0
  {
    assert "resolved"[0] != "open"[0];
    assert |"outdated"| != |"open"|;
  }

  // ---------------------------------------------------------------- what the block says

  /** The body as the reader sees it: its first 4000 characters, without closing tags. */
  function ShownBody(body: Option<string>): string {
    var text := if body.Some? then body.value else "";
    EscapeForDataBlock(if |text| <= 4000 then text else text[..4000] + "\n...[truncated]")
  }

  function Line(text: string): string {
    text + "\n"
  }

  function ShownComment(c: Comment): string {
    if c.NotADict? then ""
    else Line("    <comment author=\"" + SafeLogin(c.author) + "\">") +
         (Line("      <body>") + (Line(ShownBody(c.body)) + (Line("      </body>") + Line("    </comment>"))))
  }

  /** `path:line`, where the line on the new side comes before the original one. */
  function ShownLocation(t: Thread): string {
    (if t.path.Some? && t.path.value != "" then t.path.value else "<unknown>") +
    (if t.line.Some? then ":" + Decimal(t.line.value)
     else if t.originalLine.Some? then ":" + Decimal(t.originalLine.value)
     else "")
  }

  function ShownComments(comments: seq<Comment>): string {
    if comments == [] then "" else ShownComment(comments[0]) + ShownComments(comments[1..])
  }

  function ShownThread(t: Thread): string {
    var status := if t.resolved then "resolved" else if t.outdated then "outdated" else "open";
    Line("  <thread location=\"" + SafeLocation(ShownLocation(t)) + "\" status=\"" + status + "\">") +
    (ShownComments(t.comments) + Line("  </thread>"))
  }

  function ShownThreads(threads: seq<Thread>): string {
    if threads == [] then "" else ShownThread(threads[0]) + ShownThreads(threads[1..])
  }

  /** Every line with its end. */
  function Newlined(lines: seq<string>): string {
    if lines == [] then "" else Line(lines[0]) + Newlined(lines[1..])
  }

  lemma {:induction false} NewlinedAppend(a: seq<string>, b: seq<string>)
    ensures Newlined(a + b) == Newlined(a) + Newlined(b)
  {
    if a == [] {
      assert a + b == b;
    } else {
      NewlinedAppend(a[1..], b);
      assert (a + b)[1..] == a[1..] + b;
      Regroup(Line(a[0]), Newlined(a[1..]), Newlined(b));
    }
  }

  lemma {:induction false} JoinedIsNewlined(lines: seq<string>, last: string)
    ensures Join("\n", lines + [last]) == Newlined(lines) + last
  {
    if lines == [] {
      assert lines + [last] == [last];
    } else {
      JoinedIsNewlined(lines[1..], last);
      assert (lines + [last])[1..] == lines[1..] + [last];
      Regroup(Line(lines[0]), Newlined(lines[1..]), last);
    }
  }

  lemma NewlinedFew(a: string, b: string, c: string, d: string, e: string)
    ensures Newlined([]) == "" && Newlined([a]) == Line(a)
    ensures Newlined([a, b, c, d, e]) == Line(a) + (Line(b) + (Line(c) + (Line(d) + Line(e))))
  {
    hide Line, Newlined;
    NewlinedStep(a, []);
    NewlinedStep(e, []);
    NewlinedStep(d, [e]);
    NewlinedStep(c, [d, e]);
    NewlinedStep(b, [c, d, e]);
    NewlinedStep(a, [b, c, d, e]);
    assert [a] + [] == [a] && [e] + [] == [e] && [d] + [e] == [d, e] && [c] + [d, e] == [c, d, e];
    assert [b] + [c, d, e] == [b, c, d, e] && [a] + [b, c, d, e] == [a, b, c, d, e];
    assert Line(e) + "" == Line(e) && Line(a) + "" == Line(a);
  }

  lemma NewlinedStep(line: string, rest: seq<string>)
    ensures Newlined([line] + rest) == Line(line) + Newlined(rest) && Newlined([]) == ""
  {
    assert ([line] + rest)[1..] == rest;
  }

  lemma CommentIsShown(c: Comment)
    ensures Newlined(CommentLines(c)) == ShownComment(c)
  {
    hide EscapeForDataBlock, SafeLogin, Newlined, Line;
    NewlinedFew("", "", "", "", "");
    if c.Comment? {
      NewlinedFew(CommentHeader(c), "      <body>", ShownBody(c.body), "      </body>", "    </comment>");
    }
  }

  lemma {:induction false} CommentsAreShown(comments: seq<Comment>)
    ensures Newlined(AllCommentLines(comments)) == ShownComments(comments)
  {
    hide CommentLines, ShownComment, Newlined;
    if comments == [] {
      NewlinedFew("", "", "", "", "");
    } else {
      var front, last := comments[..|comments| - 1], comments[|comments| - 1];
      CommentsAreShown(front);
      CommentIsShown(last);
      NewlinedAppend(AllCommentLines(front), CommentLines(last));
      ShownCommentsLast(front, last);
      assert comments == front + [last];
    }
  }

  lemma {:induction false} ShownCommentsLast(front: seq<Comment>, last: Comment)
    ensures ShownComments(front + [last]) == ShownComments(front) + ShownComment(last)
  {
    hide ShownComment;
    if front == [] {
      assert front + [last] == [last] && [last][1..] == [] && ShownComment(last) + "" == ShownComment(last);
    } else {
      ShownCommentsLast(front[1..], last);
      assert (front + [last])[1..] == front[1..] + [last];
      Regroup(ShownComment(front[0]), ShownComments(front[1..]), ShownComment(last));
    }
  }

  lemma LocationIsShown(t: Thread)
    ensures Location(t) == ShownLocation(t)
  {
    hide Decimal;
    if t.line.None? && t.originalLine.None? {
      var path := if t.path.GetOr("") == "" then "<unknown>" else t.path.value;
      assert path + "" == path;
    }
  }

  lemma ThreadIsShown(t: Thread)
    ensures Newlined(ThreadLines(t)) == ShownThread(t)
  {
    hide Newlined, AllCommentLines, ShownComments, Location, ShownLocation, SafeLocation, Line;
    var first, middle, last := [ThreadHeader(t)], AllCommentLines(t.comments), ["  </thread>"];
    LocationIsShown(t);
    CommentsAreShown(t.comments);
    NewlinedAppend(first + middle, last);
    NewlinedAppend(first, middle);
    NewlinedFew(ThreadHeader(t), "", "", "", "");
    NewlinedFew("  </thread>", "", "", "", "");
    Regroup(Newlined(first), Newlined(middle), Newlined(last));
  }

  lemma {:induction false} ThreadsAreShown(threads: seq<Thread>)
    ensures Newlined(AllThreadLines(threads)) == ShownThreads(threads)
  {
    hide ThreadLines, ShownThread, Newlined;
    if threads == [] {
      NewlinedFew("", "", "", "", "");
    } else {
      var front, last := threads[..|threads| - 1], threads[|threads| - 1];
      ThreadsAreShown(front);
      ThreadIsShown(last);
      NewlinedAppend(AllThreadLines(front), ThreadLines(last));
      ShownThreadsLast(front, last);
      assert threads == front + [last];
    }
  }

  lemma {:induction false} ShownThreadsLast(front: seq<Thread>, last: Thread)
    ensures ShownThreads(front + [last]) == ShownThreads(front) + ShownThread(last)
  {
    hide ShownThread;
    if front == [] {
      assert front + [last] == [last] && [last][1..] == [] && ShownThread(last) + "" == ShownThread(last);
    } else {
      ShownThreadsLast(front[1..], last);
      assert (front + [last])[1..] == front[1..] + [last];
      Regroup(ShownThread(front[0]), ShownThreads(front[1..]), ShownThread(last));
    }
  }

  /**
   * The block, read from start to end: each visible thread in order with its location and status, and in it each
   * comment that is a dict with its author and its escaped body.
   */
  lemma BlockSays(threads: seq<Thread>)
    ensures ThreadsBlock(threads) ==
            if Visible(threads) == [] then ""
            else Line("<pr_review_threads>") +
                 (ShownThreads(Sort(Visible(threads), ThreadOrder())) + "</pr_review_threads>")
  {
    hide Sort, Visible, AllThreadLines, Newlined, ShownThreads, Line, Join;
    var visible := Visible(threads);
    var first, middle := ["<pr_review_threads>"], AllThreadLines(Sort(visible, ThreadOrder()));
    ThreadsAreShown(Sort(visible, ThreadOrder()));
    JoinedIsNewlined(first + middle, "</pr_review_threads>");
    NewlinedAppend(first, middle);
    NewlinedFew("<pr_review_threads>", "", "", "", "");
    Regroup(Newlined(first), Newlined(middle), "</pr_review_threads>");
  }

  /** A body of at most 4000 characters without a closing tag stands there unchanged. */
  lemma OrdinaryBodyIsKept(body: string)
    requires |body| <= 4000 && Closers(body) == 0
    ensures ShownBody(Some(body)) == body
  {
    hide Closers, EscapeForDataBlock;
    EscapeFixesExactly(body);
  }

  /** A wrapper's closing tag, in any ASCII case and with white space around its name, becomes `</name_>`. */
  lemma CloserIsMadeInert(before: string, name: string, after: string, tag: string, rest: string)
    requires tag == "pr_review_threads" || tag == "thread" || tag == "comment" || tag == "body" ||
             tag == "pr_overview" ||
             tag == "title"
    requires forall c | c in before + after :: IsSpace(c)
    requires |name| == |tag|
    requires forall i | 0 <= i < |tag| ::
               name[i] == tag[i] || ('A' <= name[i] <= 'Z' && name[i] as int + 32 == tag[i] as int)
    ensures EscapeForDataBlock("</" + before + name + after + ">" + rest) == "</" + tag + "_>" +
            EscapeForDataBlock(rest)
  {
    hide EscapeForDataBlock, Strip, IsSpace, CloserLength, IsCloser, Inert, Lower;
    var inside := before + name + after;
    TagCharacters(tag);
    NameIsBare(name, tag);
    PaddingIsStripped(before, name, after);
    PaddingHasNoEnd(before + after);
    InsideHasNoEnd(before, name, after);
    LoweredIsTag(name, tag);
    assert NamesTag(name, tag);
    CloserIsNamed(before, name, after, rest);
    InertIs(name, tag);
  }

  lemma InertIs(name: string, tag: string)
    requires Lower(name) == tag
    ensures Inert(name) == "</" + tag + "_>"
  {
    hide Lower;
  }

  /** Whatever stands between `</` and the next `>`, if it names a wrapper it is made inert. */
  lemma CloserIsNamed(before: string, name: string, after: string, rest: string)
    requires Strip(before + name + after) == name && IsTagName(name) && name != "" &&
             '>' !in "</" + (before + name + after)
    ensures EscapeForDataBlock("</" + before + name + after + ">" + rest) == Inert(name) + EscapeForDataBlock(rest)
  {
    hide EscapeForDataBlock, Strip, CloserLength, IsCloser, Inert, IsTagName;
    var closer := "</" + (before + name + after) + ">";
    CloserText(before + name + after);
    CloserFrom(closer);
    var s := "</" + before + name + after + ">" + rest;
    CloserThenRest(before, name, after, rest, s);
    CloserAt(s, |closer|);
    EscapeAtCloser(s);
  }

  lemma CloserText(inside: string)
    ensures var closer := "</" + inside + ">";
            closer[2..|closer| - 1] == inside && closer[..|closer| - 1] == "</" + inside
  {
  }

  lemma CloserThenRest(before: string, name: string, after: string, rest: string, s: string)
    requires s == "</" + before + name + after + ">" + rest
    ensures var closer := "</" + (before + name + after) + ">";
            |closer| <= |s| && s[..|closer|] == closer && s[|closer|..] == rest &&
            s[..|closer| - 1] == closer[..|closer| - 1]
  {
    var closer := "</" + (before + name + after) + ">";
    assert s == closer + rest;
  }

  lemma EscapeAtCloser(s: string)
    requires CloserLength(s) > 0
    ensures 3 <= CloserLength(s)
    ensures var n := CloserLength(s); EscapeForDataBlock(s) == Inert(Strip(s[2..n - 1])) + EscapeForDataBlock(s[n..])
  {
  }

  lemma NameIsBare(name: string, tag: string)
    requires tag in WRAPPER_TAGS && |name| == |tag|
    requires forall i | 0 <= i < |tag| ::
               name[i] == tag[i] || ('A' <= name[i] <= 'Z' && name[i] as int + 32 == tag[i] as int)
    ensures name != "" && forall i | 0 <= i < |name| :: !IsSpace(name[i]) && name[i] != '>' && name[i] != '<'
  {
    TagCharacters(tag);
    forall i | 0 <= i < |name| ensures !IsSpace(name[i]) && name[i] != '>' && name[i] != '<' {
      assert tag[i] in tag;
    }
  }

  lemma PaddingHasNoEnd(s: string)
    requires forall c | c in s :: IsSpace(c)
    ensures '>' !in s
  {
  }

  lemma InsideHasNoEnd(before: string, name: string, after: string)
    requires '>' !in before + after && forall i | 0 <= i < |name| :: name[i] != '>'
    ensures '>' !in "</" + (before + name + after)
  {
    assert forall c | c in before :: c in before + after;
    assert forall c | c in after :: c in before + after;
  }

  lemma {:induction false} PaddingIsStripped(before: string, name: string, after: string)
    requires (forall c | c in before + after :: IsSpace(c)) && name != "" && !IsSpace(name[0]) &&
             !IsSpace(name[|name| - 1])
    ensures Strip(before + name + after) == name
  {
    assert forall c | c in before :: c in before + after;
    assert forall c | c in after :: c in before + after;
    hide IsSpace;
    LeftPadding(before, name + after);
    assert before + name + after == before + (name + after);
    RightPadding(name, after);
  }

  lemma {:induction false} LeftPadding(padding: string, s: string)
    requires (forall c | c in padding :: IsSpace(c)) && s != "" && !IsSpace(s[0])
    ensures StripLeft(padding + s) == s
  {
    hide IsSpace;
    if padding == "" {
      assert padding + s == s;
    } else {
      assert padding[0] in padding && forall c | c in padding[1..] :: c in padding;
      assert (padding + s)[1..] == padding[1..] + s;
      LeftPadding(padding[1..], s);
    }
  }

  lemma {:induction false} RightPadding(s: string, padding: string)
    requires (forall c | c in padding :: IsSpace(c)) && s != "" && !IsSpace(s[|s| - 1])
    ensures StripRight(s + padding) == s
  {
    hide IsSpace;
    if padding == "" {
      assert s + padding == s;
    } else {
      var front := padding[..|padding| - 1];
      assert padding[|padding| - 1] in padding && forall c | c in front :: c in padding;
      assert (s + padding)[..|s + padding| - 1] == s + front;
      RightPadding(s, front);
    }
  }

  lemma {:induction false} LoweredIsTag(name: string, tag: string)
    requires |name| == |tag| && forall i | 0 <= i < |tag| :: tag[i] == '_' || 'a' <= tag[i] <= 'z'
    requires forall i | 0 <= i < |tag| ::
               name[i] == tag[i] || ('A' <= name[i] <= 'Z' && name[i] as int + 32 == tag[i] as int)
    ensures Lower(name) == tag
  {
    if name != "" {
      LoweredIsTag(name[1..], tag[1..]);
      assert tag == [tag[0]] + tag[1..];
    }
  }

  lemma {:induction false} LowerKeeps(name: string)
    requires forall c | c in name :: !('A' <= c <= 'Z') && c != '\U{130}'
    ensures Lower(name) == name
  {
    if name != "" {
      assert name[0] in name && forall c | c in name[1..] :: c in name;
      LowerKeeps(name[1..]);
    }
  }

  lemma StandsAlone(name: string)
    ensures "</" + "" + name + "" + ">" + "" == "</" + name + ">" && "" + name + "" == name
  {
  }

  /** A name that stands alone between the brackets and matches a tag. */
  lemma BareCloserIsInert(name: string, tag: string)
    requires tag in WRAPPER_TAGS && name != "" && NamesTag(name, tag)
    requires forall i | 0 <= i < |name| :: !IsSpace(name[i]) && name[i] != '>'
    ensures EscapeForDataBlock("</" + name + ">") == Inert(name)
  {
    hide *;
    AloneHasNoEnd(name, tag);
    StandsAlone(name);
    CloserIsNamed("", name, "", "");
    EscapedNothing();
    WithNothing(Inert(name));
  }

  lemma WithNothing(s: string)
    ensures s + "" == s
  {
  }

  lemma AloneHasNoEnd(name: string, tag: string)
    requires tag in WRAPPER_TAGS && name != "" && NamesTag(name, tag)
    requires forall i | 0 <= i < |name| :: !IsSpace(name[i]) && name[i] != '>'
    ensures Strip("" + name + "") == name && IsTagName(name) && '>' !in "</" + ("" + name + "")
  {
    hide Strip, IsSpace, NamesTag;
    assert "" + "" == "";
    PaddingIsStripped("", name, "");
    InsideHasNoEnd("", name, "");
  }

  lemma EscapedNothing()
    ensures EscapeForDataBlock("") == ""
  {
  }

  lemma LooseTitle(i: char)
    requires i == '\U{130}' || i == '\U{131}'
    ensures NamesTag("t" + [i] + "tle", "title") && "title" in WRAPPER_TAGS
    ensures forall k | 0 <= k < 5 :: !IsSpace(("t" + [i] + "tle")[k]) && ("t" + [i] + "tle")[k] != '>'
  {
    assert WRAPPER_TAGS[5] == "title";
    assert "t" + [i] + "tle" == ['t', i, 't', 'l', 'e'];
  }

  lemma LoweredTitle(i: char)
    requires i == '\U{130}' || i == '\U{131}'
    ensures Lower("t" + [i] + "tle") == "t" + (if i == '\U{131}' then [i] else "i\U{307}") + "tle"
  {
    LowerKeeps("tle");
    var name := "t" + [i] + "tle";
    assert name[1..] == [i] + "tle" && ([i] + "tle")[1..] == "tle";
    assert Lower([i] + "tle") == (if i == '\U{131}' then [i] else "i\U{307}") + "tle";
  }

  lemma LooseThreads(name: string)
    requires name == "pr_review_thread\U{17F}"
    ensures NamesTag(name, "pr_review_threads") && "pr_review_threads" in WRAPPER_TAGS
    ensures forall c | c in name :: !IsSpace(c) && c != '>' && !('A' <= c <= 'Z') && c != '\U{130}'
  {
    assert WRAPPER_TAGS[0] == "pr_review_threads";
  }

  /** Without regard to case, letters beyond ASCII match too: a dotted or a dotless I, and a long S. */
  lemma LooseLettersAreInert(i: char, threads: string)
    requires i == '\U{130}' || i == '\U{131}'
    requires threads == "pr_review_thread\U{17F}"
    ensures EscapeForDataBlock("</" + ("t" + [i] + "tle") + ">") ==
            "</" + ("t" + (if i == '\U{131}' then [i] else "i\U{307}") + "tle") + "_>"
    ensures EscapeForDataBlock("</" + threads + ">") == "</" + threads + "_>"
  {
    hide EscapeForDataBlock, Lower, NamesTag, IsSpace;
    LooseTitle(i);
    LoweredTitle(i);
    BareCloserIsInert("t" + [i] + "tle", "title");
    LooseThreads(threads);
    LowerKeeps(threads);
    BareCloserIsInert(threads, "pr_review_threads");
  }

  /** What is no part of a closing tag stays. */
  lemma OtherTextStays(c: char, rest: string)
    requires c != '<'
    ensures EscapeForDataBlock([c] + rest) == [c] + EscapeForDataBlock(rest)
  {
    var s := [c] + rest;
    assert s[1..] == rest;
    CloserStarts(s);
  }

  /** The location loses its quotes and closing brackets, and nothing else. */
  lemma LocationIsQuoted(c: char, rest: string)
    ensures SafeLocation("") == ""
    ensures SafeLocation([c] + rest) ==
            (if c == '"' then "&quot;" else if c == '>' then "&gt;" else [c]) + SafeLocation(rest)
  {
    hide ReplaceChar;
    var inner := if c == '"' then "&quot;" else [c];
    ReplaceFirst(c, "", '"', "&quot;");
    ReplaceFirst(c, "", '>', "&gt;");
    ReplaceFirst(c, rest, '"', "&quot;");
    ReplaceOver(inner, ReplaceChar(rest, '"', "&quot;"), '>', "&gt;");
    if c == '"' {
      ReplaceAbsent("&quot;", '>', "&gt;");
    } else {
      assert [c] + "" == [c] && "&gt;" + "" == "&gt;";
    }
  }

  lemma ReplaceFirst(c: char, rest: string, old': char, code: string)
    ensures ReplaceChar("", old', code) == ""
    ensures ReplaceChar([c] + rest, old', code) == (if c == old' then code else [c]) + ReplaceChar(rest, old', code)
  {
    assert ([c] + rest)[1..] == rest;
  }

  lemma {:induction false} ReplaceOver(a: string, b: string, old': char, code: string)
    ensures ReplaceChar(a + b, old', code) == ReplaceChar(a, old', code) + ReplaceChar(b, old', code)
  {
    if a == "" {
      assert a + b == b;
    } else {
      var c := if a[0] == old' then code else [a[0]];
      ReplaceOver(a[1..], b, old', code);
      assert (a + b)[1..] == a[1..] + b;
      Regroup(c, ReplaceChar(a[1..], old', code), ReplaceChar(b, old', code));
    }
  }

  lemma {:induction false} ReplaceAbsent(s: string, old': char, code: string)
    requires old' !in s
    ensures ReplaceChar(s, old', code) == s
  {
    if s != "" {
      assert s[0] in s && forall c | c in s[1..] :: c in s;
      ReplaceAbsent(s[1..], old', code);
      assert s == [s[0]] + s[1..];
    }
  }

  function Rank(t: Thread): int {
    if t.resolved then 3 else if t.outdated then 2 else 1
  }

  /**
   * The order of the block: open threads, then outdated ones, then resolved ones; among those by path, and by line
   * within a path, the new one if it is there and not zero, else the original one.
   */
  lemma ThreadsAreInOrder(threads: seq<Thread>, i: int, j: int)
    requires 0 <= i < j < |Sort(Visible(threads), ThreadOrder())|
    ensures var a, b := Sort(Visible(threads), ThreadOrder())[i], Sort(Visible(threads), ThreadOrder())[j];
            var p, q := if a.path.Some? then a.path.value else "", if b.path.Some? then b.path.value else "";
            Rank(a) <= Rank(b) && (Rank(a) == Rank(b) ==> AtMost(p, q)) &&
            (Rank(a) == Rank(b) && p == q ==>
               forall m, n | IsSortLine(a, m) && IsSortLine(b, n) :: m <= n)
  {
    hide Sort, Visible, AtMost;
    OpenThreadsComeFirst(threads);
    var sorted := Sort(Visible(threads), ThreadOrder());
    assert ThreadOrder()(sorted[i], sorted[j]);
  }

  predicate IsSortLine(t: Thread, line: int) {
    if t.line.Some? && t.line.value != 0 then line == t.line.value
    else if t.originalLine.Some? then line == t.originalLine.value
    else line == 0
  }

  /** The visible threads are those with a comment, in the order given. */
  lemma VisibleHaveComments(threads: seq<Thread>, t: Thread)
    ensures Visible([]) == []
    ensures Visible(threads + [t]) == if |t.comments| > 0 then Visible(threads) + [t] else Visible(threads)
  {
    assert (threads + [t])[..|threads|] == threads;
  }

  /** What `_GITHUB_LOGIN_RE` allows before `[bot]`: up to 39 letters, digits and single inner hyphens. */
  predicate IsGithubName(s: string) {
    1 <= |s| <= 39 && (forall c | c in s :: 'a' <= c <= 'z' || 'A' <= c <= 'Z' || '0' <= c <= '9' || c == '-') &&
    s[0] != '-' && s[|s| - 1] != '-' && forall i | 0 < i < |s| :: s[i - 1] != '-' || s[i] != '-'
  }

  lemma NamesAre(s: string)
    ensures IsLoginName(s) <==> IsGithubName(s)
  {
    if IsLoginName(s) {
      assert forall i | 0 <= i < |s| :: IsAlphanumeric(s[i]) || s[i] == '-';
      assert s[|s| - 1] != '-';
    }
    if IsGithubName(s) {
      forall i | 0 <= i < |s|
        ensures IsAlphanumeric(s[i]) || (s[i] == '-' && i + 1 < |s| && IsAlphanumeric(s[i + 1]))
      {
        assert s[i] in s;
        if i + 1 < |s| {
          assert s[i + 1] in s;
        }
      }
      assert s[0] in s;
    }
  }

  predicate IsGithubAuthor(author: string, name: string) {
    IsGithubName(name) &&
    (author == name || author == name + "\n" || author == name + "[bot]" || author == name + "[bot]" + "\n")
  }

  /** An author is shown exactly if it is such a name, with or without `[bot]` and one line feed; else as `unknown`. */
  lemma AuthorIsShown(author: Option<string>)
    ensures SafeLogin(author) ==
            if author.Some? && exists name :: IsGithubAuthor(author.value, name) then author.value else "unknown"
  {
    if author.Some? {
      var plain := WithoutSuffix(author.value, "\n");
      var name := WithoutSuffix(plain, "[bot]");
      NamesAre(name);
      WithoutSuffixKeeps(author.value, "\n");
      WithoutSuffixKeeps(plain, "[bot]");
      assert IsLogin(author.value) ==> IsGithubAuthor(author.value, name);
      forall name | IsGithubAuthor(author.value, name) ensures IsLogin(author.value) {
        NameIsLogin(name);
      }
    }
  }

  lemma NameIsLogin(name: string)
    requires IsGithubName(name)
    ensures IsLogin(name) && IsLogin(name + "\n") && IsLogin(name + "[bot]") && IsLogin(name + "[bot]" + "\n")
  {
    NamesAre(name);
    hide IsLoginName;
    var last := name[|name| - 1];
    assert last in name;
    assert WithoutSuffix(name, "\n") == name && WithoutSuffix(name + "\n", "\n") == name;
    assert WithoutSuffix(name, "[bot]") == name && WithoutSuffix(name + "[bot]", "[bot]") == name;
    assert WithoutSuffix(name + "[bot]", "\n") == name + "[bot]";
    assert WithoutSuffix(name + "[bot]" + "\n", "\n") == name + "[bot]";
  }

  lemma VisibleStep(threads: seq<Thread>, i: int)
    requires 0 <= i < |threads|
    ensures Visible(threads[..i + 1]) == Visible(threads[..i]) + if threads[i].comments == [] then [] else [threads[i]]
  {
    assert threads[..i + 1][..i] == threads[..i];
  }

  lemma CommentsStep(comments: seq<Comment>, j: int)
    requires 0 <= j < |comments|
    ensures AllCommentLines(comments[..j + 1]) == AllCommentLines(comments[..j]) + CommentLines(comments[j])
  {
    assert comments[..j + 1][..j] == comments[..j];
  }

  lemma ThreadsStep(threads: seq<Thread>, i: int)
    requires 0 <= i < |threads|
    ensures AllThreadLines(threads[..i + 1]) == AllThreadLines(threads[..i]) + ThreadLines(threads[i])
  {
    assert threads[..i + 1][..i] == threads[..i];
  }

  lemma NoLinesYet(threads: seq<Thread>, comments: seq<Comment>)
    ensures AllThreadLines(threads[..0]) == [] && AllCommentLines(comments[..0]) == [] && Visible(threads[..0]) == []
    ensures threads[..|threads|] == threads && comments[..|comments|] == comments
  {
  }

  method AppendComments(out: seq<string>, comments: seq<Comment>) returns (r: seq<string>)
    ensures r == out + AllCommentLines(comments)
  {
    hide EscapeForDataBlock, CommentHeader, Trimmed, AllCommentLines;
    NoLinesYet([], comments);
    r := out;
    for j := 0 to |comments|
      invariant r == out + AllCommentLines(comments[..j])
    {
      CommentsStep(comments, j);
      var c := comments[j];
      ghost var before := r;
      if c.Comment? {
        r := r + [CommentHeader(c)];
        r := r + ["      <body>"];
        r := r + [EscapeForDataBlock(Trimmed(c.body.GetOr("")))];
        r := r + ["      </body>"];
        r := r + ["    </comment>"];
      }
      assert r == before + CommentLines(c);
    }
  }

  /** `_format_pr_review_threads`. */
  method FormatPrReviewThreads(threads: seq<Thread>) returns (block: string)
    ensures block == ThreadsBlock(threads)
  {
    hide ThreadHeader, Sort, Join, Visible, AllThreadLines, AllCommentLines;
    NoLinesYet(threads, []);
    var visible: seq<Thread> := [];
    for i := 0 to |threads|
      invariant visible == Visible(threads[..i])
    {
      VisibleStep(threads, i);
      if threads[i].comments != [] {
        visible := visible + [threads[i]];
      }
    }
    if visible == [] {
      return "";
    }
    visible := Sort(visible, ThreadOrder());
    NoLinesYet(visible, []);
    var out := ["<pr_review_threads>"];
    for i := 0 to |visible|
      invariant out == ["<pr_review_threads>"] + AllThreadLines(visible[..i])
    {
      ThreadsStep(visible, i);
      var t := visible[i];
      ghost var before := out;
      out := out + [ThreadHeader(t)];
      out := AppendComments(out, t.comments);
      out := out + ["  </thread>"];
      assert out == before + ThreadLines(t);
    }
    out := out + ["</pr_review_threads>"];
    return Join("\n", out);
  }
}
