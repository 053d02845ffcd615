/** Vocabulary shared by the models: optional values, and searching and joining sequences. */
module Common {

  datatype Option<+T> = None | Some(value: T) {
    function GetOr(default: T): T {
      match this
      case Some(v) => v
      case None => default
    }
  }

  predicate OccursAt<T(==)>(s: seq<T>, pattern: seq<T>, i: int) {
    0 <= i <= |s| - |pattern| && s[i..i + |pattern|] == pattern
  }

  lemma OccursInTail<T>(s: seq<T>, pattern: seq<T>)
    requires |s| >= |pattern| && s != []
    ensures forall i | i > 0 :: OccursAt(s, pattern, i) <==> OccursAt(s[1..], pattern, i - 1)
  {
    forall i | i > 0 ensures OccursAt(s, pattern, i) <==> OccursAt(s[1..], pattern, i - 1) {
      if i <= |s| - |pattern| {
        assert s[1..][i - 1..i - 1 + |pattern|] == s[i..i + |pattern|];
      }
    }
  }

  lemma OccursInFront<T>(s: seq<T>, pattern: seq<T>)
    requires |s| >= |pattern| && s != []
    ensures forall i | i < |s| - |pattern| :: OccursAt(s, pattern, i) <==> OccursAt(s[..|s| - 1], pattern, i)
  {
    forall i | i < |s| - |pattern| ensures OccursAt(s, pattern, i) <==> OccursAt(s[..|s| - 1], pattern, i) {
      if i >= 0 {
        assert s[..|s| - 1][i..i + |pattern|] == s[i..i + |pattern|];
      }
    }
  }

  /** The lowest index at which `pattern` occurs in `s`, or -1 (Python's `find`). */
  function Find<T(==)>(s: seq<T>, pattern: seq<T>): (r: int)
    ensures r == -1 || OccursAt(s, pattern, r)
    ensures forall i | OccursAt(s, pattern, i) :: 0 <= r <= i
  {
    if |s| < |pattern| then -1
    else if s[..|pattern|] == pattern then 0
    else
      OccursInTail(s, pattern);
      var r := Find(s[1..], pattern);
      if r < 0 then -1 else r + 1
  }

  /** The highest index at which `pattern` occurs in `s`, or -1 (Python's `rfind`). */
  function FindLast<T(==)>(s: seq<T>, pattern: seq<T>): (r: int)
    ensures r == -1 || OccursAt(s, pattern, r)
    ensures forall i | OccursAt(s, pattern, i) :: i <= r
  {
    if |s| < |pattern| then -1
    else if s[|s| - |pattern|..] == pattern then |s| - |pattern|
    else
      OccursInFront(s, pattern);
      FindLast(s[..|s| - 1], pattern)
  }

  predicate Contains<T(==)>(s: seq<T>, pattern: seq<T>) {
    Find(s, pattern) >= 0
  }

  lemma OccurrenceIsContained<T>(s: seq<T>, pattern: seq<T>, i: int)
    requires OccursAt(s, pattern, i)
    ensures Contains(s, pattern)
  {
  }

  /** Appending never moves the first occurrence, and never creates one that ends inside the old part. */
  lemma FindAfterAppend<T>(s: seq<T>, more: seq<T>, pattern: seq<T>)
    ensures Find(s, pattern) >= 0 ==> Find(s + more, pattern) == Find(s, pattern)
    ensures Find(s, pattern) < 0 && Find(s + more, pattern) >= 0 ==> Find(s + more, pattern) > |s| - |pattern|
  {
    hide Find;
    var r, whole := Find(s, pattern), Find(s + more, pattern);
    if r >= 0 {
      assert (s + more)[r..r + |pattern|] == s[r..r + |pattern|];
      assert OccursAt(s + more, pattern, r);
    }
    if 0 <= whole <= |s| - |pattern| {
      assert (s + more)[whole..whole + |pattern|] == s[whole..whole + |pattern|];
      assert OccursAt(s, pattern, whole);
    }
  }

  /** The length of `s` before its first `c`. */
  function LengthBefore(s: string, c: char): (n: nat)
    ensures n <= |s|
  {
    if s == "" || s[0] == c then 0 else 1 + LengthBefore(s[1..], c)
  }

  lemma Regroup<T>(a: seq<T>, b: seq<T>, c: seq<T>)
    ensures a + b + c == a + (b + c)
  {
  }

  function Concat<T>(parts: seq<seq<T>>): seq<T> {
    if parts == [] then [] else parts[0] + Concat(parts[1..])
  }

  /** `separator.join(parts)`. */
  function Join<T>(separator: seq<T>, parts: seq<seq<T>>): seq<T> {
    if parts == [] then []
    else if |parts| == 1 then parts[0]
    else parts[0] + separator + Join(separator, parts[1..])
  }

  /** `s.replace(c, code)` for a single character. */
  function ReplaceChar(s: string, c: char, code: string): string {
    if s == "" then "" else (if s[0] == c then code else [s[0]]) + ReplaceChar(s[1..], c, code)
  }

  /** Python's `str.isspace` for one character. */
  predicate IsSpace(c: char) {
    '\t' <= c <= '\r' || '\U{1C}' <= c <= ' ' || c == '\U{85}' || c == '\U{A0}' || c == '\U{1680}' ||
    '\U{2000}' <= c <= '\U{200A}' || c == '\U{2028}' || c == '\U{2029}' || c == '\U{202F}' || c == '\U{205F}' ||
    c == '\U{3000}'
  }

  function StripLeft(s: string): string {
    if s != "" && IsSpace(s[0]) then StripLeft(s[1..]) else s
  }

  function StripRight(s: string): string {
    if s != "" && IsSpace(s[|s| - 1]) then StripRight(s[..|s| - 1]) else s
  }

  function Strip(s: string): string {
    StripRight(StripLeft(s))
  }

  ghost predicate AllSpace(s: string) {
    forall c | c in s :: IsSpace(c)
  }

  lemma {:induction false} StripLeftMeans(s: string) returns (left: string)
    ensures s == left + StripLeft(s) && AllSpace(left)
    ensures StripLeft(s) != "" ==> !IsSpace(StripLeft(s)[0])
  {
    hide IsSpace;
    left := "";
    if s != "" && IsSpace(s[0]) {
      var rest := StripLeftMeans(s[1..]);
      left := [s[0]] + rest;
    }
  }

  lemma {:induction false} StripRightMeans(s: string) returns (right: string)
    ensures s == StripRight(s) + right && AllSpace(right)
    ensures StripRight(s) != "" ==> !IsSpace(StripRight(s)[|StripRight(s)| - 1])
  {
    hide IsSpace;
    right := "";
    if s != "" && IsSpace(s[|s| - 1]) {
      var rest := StripRightMeans(s[..|s| - 1]);
      right := rest + [s[|s| - 1]];
    }
  }

  /** Stripping takes away nothing but the spaces at both ends, and all of them. */
  lemma StripMeans(s: string) returns (left: string, right: string)
    ensures s == left + Strip(s) + right && AllSpace(left) && AllSpace(right)
    ensures Strip(s) != "" ==> !IsSpace(Strip(s)[0]) && !IsSpace(Strip(s)[|Strip(s)| - 1])
  {
    hide IsSpace, StripLeft, StripRight;
    left := StripLeftMeans(s);
    right := StripRightMeans(StripLeft(s));
  }

  /** `str(n)`. */
  function Decimal(n: int): string
    decreases n < 0, if n < 0 then -n else n
  {
    if n < 0 then "-" + Decimal(-n)
    else if n < 10 then ["0123456789"[n]]
    else Decimal(n / 10) + ["0123456789"[n % 10]]
  }

  predicate Distinct<T(==)>(s: seq<T>) {
    forall i, j | 0 <= i < j < |s| :: s[i] != s[j]
  }

  /** `s or None`. */
  function NonEmpty(s: string): Option<string> {
    if s == "" then None else Some(s)
  }

  /** `[item for item in s if item != x]`. */
  function Without<T(==)>(s: seq<T>, x: T): seq<T> {
    if s == [] then [] else
    var front, last := Without(s[..|s| - 1], x), s[|s| - 1];
    if last == x then front else front + [last]
  }

  lemma {:induction false} WithoutAbsent<T>(s: seq<T>, x: T)
    requires x !in s
    ensures Without(s, x) == s
  {
    if s != [] {
      WithoutAbsent(s[..|s| - 1], x);
    }
  }

  lemma WithoutLast<T>(s: seq<T>, x: T)
    requires x !in s
    ensures Without(s + [x], x) == s
  {
    assert (s + [x])[..|s|] == s;
    WithoutAbsent(s, x);
  }

  /** `s[:n]`. */
  function FirstN<T>(s: seq<T>, n: nat): seq<T> {
    if |s| <= n then s else s[..n]
  }

  /** `s[-n:]` for a positive `n`. */
  function LastN<T>(s: seq<T>, n: nat): seq<T> {
    if |s| <= n then s else s[|s| - n..]
  }
}
