/** Python's stable `sorted`, and the two facts the models need: it permutes, and its order is canonical. */
module Sorting {
  import opened Common

  /** Insert before the first element that `x` may precede, so equal elements keep their order. */
  function Insert<T>(x: T, sorted: seq<T>, le: (T, T) -> bool): seq<T> {
    if sorted == [] || le(x, sorted[0]) then [x] + sorted else [sorted[0]] + Insert(x, sorted[1..], le)
  }

  function Sort<T>(s: seq<T>, le: (T, T) -> bool): seq<T> {
    if s == [] then [] else Insert(s[0], Sort(s[1..], le), le)
  }

  ghost predicate TotalPreorder<T(!new)>(le: (T, T) -> bool) {
    (forall x, y :: le(x, y) || le(y, x)) && forall x, y, z :: le(x, y) && le(y, z) ==> le(x, z)
  }

  ghost predicate TotalOrder<T(!new)>(le: (T, T) -> bool) {
    TotalPreorder(le) && forall x, y :: le(x, y) && le(y, x) ==> x == y
  }

  predicate Sorted<T>(s: seq<T>, le: (T, T) -> bool) {
    forall i, j | 0 <= i < j < |s| :: le(s[i], s[j])
  }

  lemma {:induction false} InsertPermutes<T>(x: T, s: seq<T>, le: (T, T) -> bool)
    ensures multiset(Insert(x, s, le)) == multiset(s) + multiset{x}
  {
    if s != [] && !le(x, s[0]) {
      InsertPermutes(x, s[1..], le);
      assert s == [s[0]] + s[1..];
    }
  }

  lemma SameLength<T>(a: seq<T>, b: seq<T>)
    requires multiset(a) == multiset(b)
    ensures |a| == |b|
  {
    assert |multiset(a)| == |a| && |multiset(b)| == |b|;
  }

  lemma {:induction false} SortPermutes<T>(s: seq<T>, le: (T, T) -> bool)
    ensures multiset(Sort(s, le)) == multiset(s)
    ensures |Sort(s, le)| == |s|
  {
    if s != [] {
      SortPermutes(s[1..], le);
      InsertPermutes(s[0], Sort(s[1..], le), le);
      assert s == [s[0]] + s[1..];
    }
    SameLength(Sort(s, le), s);
  }

  lemma SameElements<T>(s: seq<T>, le: (T, T) -> bool)
    ensures forall x :: x in Sort(s, le) <==> x in s
  {
    SortPermutes(s, le);
    forall x ensures x in Sort(s, le) <==> x in s {
      assert x in s <==> x in multiset(s);
      assert x in Sort(s, le) <==> x in multiset(Sort(s, le));
    }
  }

  lemma {:induction false} InsertSorts<T(!new)>(x: T, s: seq<T>, le: (T, T) -> bool)
    requires TotalPreorder(le) && Sorted(s, le)
    ensures Sorted(Insert(x, s, le), le)
  {
    if s == [] {
    } else if le(x, s[0]) {
      forall j | 0 <= j < |s| ensures le(x, s[j]) {
        if j > 0 {
          assert le(s[0], s[j]);
        }
      }
    } else {
      InsertSorts(x, s[1..], le);
      var rest := Insert(x, s[1..], le);
      InsertPermutes(x, s[1..], le);
      forall k | 0 <= k < |rest| ensures le(s[0], rest[k]) {
        assert rest[k] in multiset(rest);
        assert rest[k] == x || rest[k] in multiset(s[1..]);
        if rest[k] != x {
          var j :| 0 <= j < |s[1..]| && s[1..][j] == rest[k];
          assert le(s[0], s[j + 1]);
        }
      }
    }
  }

  lemma {:induction false} SortSorts<T(!new)>(s: seq<T>, le: (T, T) -> bool)
    requires TotalPreorder(le)
    ensures Sorted(Sort(s, le), le)
  {
    if s != [] {
      SortSorts(s[1..], le);
      InsertSorts(s[0], Sort(s[1..], le), le);
    }
  }

  lemma FirstIsLeast<T(!new)>(s: seq<T>, x: T, le: (T, T) -> bool)
    requires TotalPreorder(le) && Sorted(s, le) && x in s
    ensures le(s[0], x)
  {
    var i :| 0 <= i < |s| && s[i] == x;
    assert i == 0 || le(s[0], s[i]);
    assert le(x, x);
  }

  lemma RestOf<T>(s: seq<T>)
    requires s != []
    ensures multiset(s[1..]) == multiset(s) - multiset{s[0]}
  {
    assert s == [s[0]] + s[1..];
  }

  lemma SameFirst<T(!new)>(a: seq<T>, b: seq<T>, le: (T, T) -> bool)
    requires TotalOrder(le) && Sorted(a, le) && Sorted(b, le) && multiset(a) == multiset(b) && a != [] && b != []
    ensures a[0] == b[0] && Sorted(a[1..], le) && Sorted(b[1..], le)
  {
    assert a[0] in multiset(b) && b[0] in multiset(a);
    FirstIsLeast(a, b[0], le);
    FirstIsLeast(b, a[0], le);
  }

  /** Under a total order, a collection has one sorted arrangement. */
  lemma {:induction false} SortedIsUnique<T(!new)>(a: seq<T>, b: seq<T>, le: (T, T) -> bool)
    requires TotalOrder(le) && Sorted(a, le) && Sorted(b, le) && multiset(a) == multiset(b)
    ensures a == b
  {
    hide Sorted, TotalOrder;
    if a != [] || b != [] {
      SameLength(a, b);
      SameFirst(a, b, le);
      RestOf(a);
      RestOf(b);
      SortedIsUnique(a[1..], b[1..], le);
      assert a == [a[0]] + a[1..] && b == [b[0]] + b[1..];
    }
  }

  /** The result does not depend on the order of the input. */
  lemma SortIgnoresOrder<T(!new)>(a: seq<T>, b: seq<T>, le: (T, T) -> bool)
    requires TotalOrder(le) && multiset(a) == multiset(b)
    ensures Sort(a, le) == Sort(b, le)
  {
    SortPermutes(a, le);
    SortPermutes(b, le);
    SortSorts(a, le);
    SortSorts(b, le);
    SortedIsUnique(Sort(a, le), Sort(b, le), le);
  }

  // ---------------------------------------------------------------- mapping

  function Map<T, U>(f: T -> U, s: seq<T>): (r: seq<U>)
    ensures |r| == |s| && forall i | 0 <= i < |s| :: r[i] == f(s[i])
  {
    seq(|s|, i requires 0 <= i < |s| => f(s[i]))
  }

  lemma WithoutAt<T>(s: seq<T>, k: int)
    requires 0 <= k < |s|
    ensures multiset(s[..k] + s[k + 1..]) == multiset(s) - multiset{s[k]} && s[k] in multiset(s)
  {
    assert s == s[..k] + ([s[k]] + s[k + 1..]);
  }

  lemma MapWithoutAt<T, U>(f: T -> U, s: seq<T>, k: int)
    requires 0 <= k < |s|
    ensures multiset(Map(f, s)) == multiset(Map(f, s[..k] + s[k + 1..])) + multiset{f(s[k])}
  {
    var m := Map(f, s);
    assert Map(f, s[..k] + s[k + 1..]) == m[..k] + m[k + 1..];
    WithoutAt(m, k);
  }

  /** Mapping a rearrangement gives a rearrangement. */
  lemma {:induction false} MapPermutes<T, U>(f: T -> U, a: seq<T>, b: seq<T>)
    requires multiset(a) == multiset(b)
    ensures multiset(Map(f, a)) == multiset(Map(f, b))
    decreases |a|
  {
    hide Map;
    SameLength(a, b);
    if a != [] {
      assert a[0] in multiset(b);
      var k :| 0 <= k < |b| && b[k] == a[0];
      var x, fewer, less := a[0], a[..0] + a[1..], b[..k] + b[k + 1..];
      WithoutAt(a, 0);
      WithoutAt(b, k);
      assert multiset(fewer) == multiset(a) - multiset{x} == multiset(less);
      MapPermutes(f, fewer, less);
      MapWithoutAt(f, a, 0);
      MapWithoutAt(f, b, k);
    } else {
      assert b == [];
    }
  }

  lemma Unmapped<T, U>(f: T -> U, a: seq<T>, b: seq<T>) returns (k: int)
    requires a != [] && multiset(Map(f, a)) == multiset(Map(f, b))
    requires forall x, y | x in a && y in b && f(x) == f(y) :: x == y
    ensures 0 <= k < |b| && b[k] == a[0]
    ensures multiset(Map(f, a[1..])) == multiset(Map(f, b[..k] + b[k + 1..]))
  {
    hide Map;
    k := MappedFrom(f, a[0], Map(f, a), b);
    assert a[0] in a && b[k] in b;
    MapWithoutAt(f, a, 0);
    MapWithoutAt(f, b, k);
    assert a[..0] + a[1..] == a[1..];
    OneLess(multiset(Map(f, a[1..])), multiset(Map(f, b[..k] + b[k + 1..])), f(a[0]));
  }

  lemma MappedFrom<T, U>(f: T -> U, x: T, mapped: seq<U>, b: seq<T>) returns (k: int)
    requires mapped != [] && mapped[0] == f(x) && multiset(mapped) == multiset(Map(f, b))
    ensures 0 <= k < |b| && f(b[k]) == f(x)
  {
    assert mapped[0] in multiset(Map(f, b));
    k :| 0 <= k < |b| && Map(f, b)[k] == mapped[0];
  }

  lemma OneLess<U>(a: multiset<U>, b: multiset<U>, x: U)
    requires a + multiset{x} == b + multiset{x}
    ensures a == b
  {
    assert a == a + multiset{x} - multiset{x} && b == b + multiset{x} - multiset{x};
  }

  lemma LessOne<T>(s: seq<T>, k: int, less: seq<T>)
    requires 0 <= k < |s| && less == s[..k] + s[k + 1..]
    ensures multiset(s) == multiset(less) + multiset{s[k]} && |less| < |s| && forall x | x in less :: x in s
  {
    assert s == s[..k] + ([s[k]] + s[k + 1..]);
  }

  /** When the function tells the elements apart, mappings that are rearrangements come from rearrangements. */
  lemma {:induction false} MapReflects<T, U>(f: T -> U, a: seq<T>, b: seq<T>)
    requires multiset(Map(f, a)) == multiset(Map(f, b))
    requires forall x, y | x in a && y in b && f(x) == f(y) :: x == y
    ensures multiset(a) == multiset(b)
    decreases |a|
  {
    hide Map;
    SameLength(Map(f, a), Map(f, b));
    if a != [] {
      var k := Unmapped(f, a, b);
      var less := b[..k] + b[k + 1..];
      LessOne(b, k, less);
      LessOne(a, 0, a[1..]);
      MapReflects(f, a[1..], less);
    } else {
      assert b == [];
    }
  }

  lemma RepeatedIsTwice<T>(s: seq<T>, i: int, j: int)
    requires 0 <= i < j < |s| && s[i] == s[j]
    ensures multiset(s)[s[i]] >= 2
  {
    assert s == s[..i] + [s[i]] + s[i + 1..j] + [s[j]] + s[j + 1..];
  }

  lemma UnrepeatedIsOnce<T>(s: seq<T>, k: int)
    requires 0 <= k < |s| && forall i | 0 <= i < |s| && i != k :: s[i] != s[k]
    ensures multiset(s)[s[k]] == 1
  {
    assert s == s[..k] + [s[k]] + s[k + 1..];
    assert s[k] !in s[..k] && s[k] !in s[k + 1..];
  }

  lemma DistinctPermute<T>(a: seq<T>, b: seq<T>)
    requires multiset(a) == multiset(b) && Distinct(a)
    ensures Distinct(b)
  {
    forall i, j | 0 <= i < j < |b| ensures b[i] != b[j] {
      assert b[i] in multiset(a);
      var k :| 0 <= k < |a| && a[k] == b[i];
      UnrepeatedIsOnce(a, k);
      if b[i] == b[j] {
        RepeatedIsTwice(b, i, j);
      }
    }
  }

  predicate DistinctKeys<T, K(==)>(key: T -> K, s: seq<T>) {
    forall i, j | 0 <= i < j < |s| :: key(s[i]) != key(s[j])
  }

  lemma DistinctKeysAppend<T, K>(key: T -> K, s: seq<T>, x: T)
    requires DistinctKeys(key, s) && forall y | y in s :: key(y) != key(x)
    ensures DistinctKeys(key, s + [x])
  {
    var more := s + [x];
    forall i, j | 0 <= i < j < |more| ensures key(more[i]) != key(more[j]) {
      assert more[i] in s;
    }
  }

  /** Rearranging keeps keys distinct. */
  lemma DistinctKeysPermute<T, K>(key: T -> K, a: seq<T>, b: seq<T>)
    requires multiset(a) == multiset(b) && DistinctKeys(key, a)
    ensures DistinctKeys(key, b)
  {
    MapPermutes(key, a, b);
    DistinctPermute(Map(key, a), Map(key, b));
    forall i, j | 0 <= i < j < |b| ensures key(b[i]) != key(b[j]) {
      assert Map(key, b)[i] != Map(key, b)[j];
    }
  }

  // ---------------------------------------------------------------- strings

  /** Python's `a <= b` on strings: by code point, a proper prefix first. */
  predicate AtMost(a: string, b: string) {
    a == "" || (b != "" && (a[0] < b[0] || (a[0] == b[0] && AtMost(a[1..], b[1..]))))
  }

  function StringOrder(): (string, string) -> bool {
    (a, b) => AtMost(a, b)
  }

  lemma {:induction false} AtMostIsTotal(a: string, b: string)
    ensures AtMost(a, b) || AtMost(b, a)
    ensures AtMost(a, b) && AtMost(b, a) ==> a == b
  {
    if a != "" && b != "" && a[0] == b[0] {
      AtMostIsTotal(a[1..], b[1..]);
      assert a == [a[0]] + a[1..] && b == [b[0]] + b[1..];
    }
  }

  lemma {:induction false} AtMostIsTransitive(a: string, b: string, c: string)
    requires AtMost(a, b) && AtMost(b, c)
    ensures AtMost(a, c)
  {
    if a != "" && a[0] == b[0] == c[0] {
      AtMostIsTransitive(a[1..], b[1..], c[1..]);
    }
  }

  lemma StringOrderIsTotal()
    ensures TotalOrder(StringOrder())
  {
    forall a, b ensures (AtMost(a, b) || AtMost(b, a)) && (AtMost(a, b) && AtMost(b, a) ==> a == b) {
      AtMostIsTotal(a, b);
    }
    forall a, b, c | AtMost(a, b) && AtMost(b, c) ensures AtMost(a, c) {
      AtMostIsTransitive(a, b, c);
    }
  }
}
