/** The list of reviews: a page of the accessible ones, found by scanning reviewer threads page by page. */
module ReviewList {
  import opened Common

  /** How many pages a scan of `maxScan` threads takes. */
  function PagesFor(maxScan: int, pageSize: int): nat
    requires pageSize >= 1
  {
    if maxScan <= 0 then 0 else (maxScan - 1) / pageSize + 1
  }

  /** `s[start:end]`. */
  function Slice<T>(s: seq<T>, start: nat, end: nat): seq<T>
    requires start <= end
  {
    FirstN(if |s| <= start then [] else s[start..], end - start)
  }

  /** The summaries of the threads that have one and whose review the caller may see. */
  function Visible<T, S>(threads: seq<T>, summaryOf: T -> Option<S>): seq<S> {
    if threads == [] then [] else
    var front := Visible(threads[..|threads| - 1], summaryOf);
    var last := summaryOf(threads[|threads| - 1]);
    if last.Some? then front + [last.value] else front
  }

  /** The visible reviews among the threads a scan may examine: whole pages, until `maxScan` threads are covered. */
  function Scannable<T, S>(threads: seq<T>, summaryOf: T -> Option<S>, pageSize: int, maxScan: int): seq<S>
    requires pageSize >= 1
  {
    Visible(FirstN(threads, PagesFor(maxScan, pageSize) * pageSize), summaryOf)
  }

  lemma {:induction false} VisibleAppend<T, S>(a: seq<T>, b: seq<T>, summaryOf: T -> Option<S>)
    ensures Visible(a + b, summaryOf) == Visible(a, summaryOf) + Visible(b, summaryOf)
  {
    if b == [] {
      assert a + b == a;
    } else {
      assert (a + b)[..|a + b| - 1] == a + b[..|b| - 1];
      VisibleAppend(a, b[..|b| - 1], summaryOf);
    }
  }

  lemma VisiblePrefix<T, S>(s: seq<T>, n: nat, summaryOf: T -> Option<S>)
    requires n <= |s|
    ensures Visible(s[..n], summaryOf) <= Visible(s, summaryOf)
  {
    hide Visible;
    VisibleAppend(s[..n], s[n..], summaryOf);
    assert s[..n] + s[n..] == s;
    IsPrefix(Visible(s[..n], summaryOf), Visible(s[n..], summaryOf));
  }

  lemma IsPrefix<S>(a: seq<S>, b: seq<S>)
    ensures a <= a + b
  {
  }

  lemma FirstOfMore<S>(a: seq<S>, b: seq<S>, n: nat)
    ensures FirstN(FirstN(a, n) + b, n) == FirstN(a + b, n)
  {
  }

  lemma VisibleStep<T, S>(s: seq<T>, n: nat, summaryOf: T -> Option<S>)
    requires n < |s|
    ensures Visible(s[..n + 1], summaryOf) ==
            Visible(s[..n], summaryOf) + if summaryOf(s[n]).Some? then [summaryOf(s[n]).value] else []
  {
    assert s[..n + 1][..n] == s[..n];
  }

  /** Another page is scanned exactly while fewer pages have been than the bound allows. */
  lemma PagesBound(k: nat, maxScan: int, pageSize: int)
    requires pageSize >= 1
    ensures k * pageSize < maxScan <==> k < PagesFor(maxScan, pageSize)
    ensures k * pageSize < PagesFor(maxScan, pageSize) * pageSize <==> k < PagesFor(maxScan, pageSize)
    ensures k <= PagesFor(maxScan, pageSize) ==> k * pageSize <= PagesFor(maxScan, pageSize) * pageSize
    ensures k < PagesFor(maxScan, pageSize) ==> k * pageSize + pageSize <= PagesFor(maxScan, pageSize) * pageSize
  {
    if maxScan > 0 {
      var q := (maxScan - 1) / pageSize;
      assert q * pageSize <= maxScan - 1 < q * pageSize + pageSize by {
        Division(maxScan - 1, pageSize);
      }
      if k <= q {
        Multiplied(k, q, pageSize);
      } else {
        Multiplied(q + 1, k, pageSize);
        assert (q + 1) * pageSize == q * pageSize + pageSize;
      }
      if k < q + 1 {
        Multiplied(k + 1, q + 1, pageSize);
        assert (k + 1) * pageSize == k * pageSize + pageSize;
      }
    }
  }

  lemma Division(a: int, b: int)
    requires b >= 1
    ensures a / b * b <= a < a / b * b + b
  {
  }

  lemma Multiplied(a: int, b: int, c: int)
    requires a <= b && c >= 0
    ensures a * c <= b * c
  {
  }

  /** Once enough is collected, or everything, the answer is decided. */
  lemma EnoughDecides<T, S>(reach: seq<T>, scanned: nat, summaryOf: T -> Option<S>, found: seq<S>, offset: nat,
                            limit: nat)
    requires scanned <= |reach| && found == FirstN(Visible(reach[..scanned], summaryOf), offset + limit + 1)
    requires |found| >= offset + limit + 1 || scanned == |reach|
    ensures var all := Visible(reach, summaryOf);
            Slice(found, offset, offset + limit) == Slice(all, offset, offset + limit) &&
            (|found| > offset + limit <==> |all| > offset + limit)
  {
    hide Visible;
    VisiblePrefix(reach, scanned, summaryOf);
    assert reach[..|reach|] == reach;
  }

  lemma OneMorePage<T, S>(reach: seq<T>, scanned: nat, page: seq<T>, summaryOf: T -> Option<S>, needed: nat)
    requires scanned + |page| <= |reach| && page == reach[scanned..scanned + |page|]
    ensures FirstN(FirstN(Visible(reach[..scanned], summaryOf), needed) + Visible(page, summaryOf), needed) ==
            FirstN(Visible(reach[..scanned + |page|], summaryOf), needed)
  {
    hide Visible, FirstN;
    VisibleAppend(reach[..scanned], page, summaryOf);
    assert reach[..scanned] + page == reach[..scanned + |page|];
    FirstOfMore(Visible(reach[..scanned], summaryOf), Visible(page, summaryOf), needed);
  }

  /** The visible reviews of one page of threads, up to the number needed. */
  method ScanPage<T, S>(summaries: seq<S>, threads: seq<T>, summaryOf: T -> Option<S>, needed: nat) returns (r: seq<S>)
    requires |summaries| < needed
    ensures r == FirstN(summaries + Visible(threads, summaryOf), needed)
  {
    r := summaries;
    for j := 0 to |threads|
      invariant r == summaries + Visible(threads[..j], summaryOf) && |r| < needed
    {
      VisibleStep(threads, j, summaryOf);
      var summary := summaryOf(threads[j]);
      if summary.None? {
        continue;
      }
      r := r + [summary.value];
      if |r| >= needed {
        VisiblePrefix(threads, j + 1, summaryOf);
        return;
      }
    }
    assert threads[..|threads|] == threads;
  }

  /**
   * `list_reviews`: the scan stops early when it has enough, at an empty or short page, or at its bound, and still
   * returns exactly the page of all the reviews it could have found.
   */
  method ListReviews<T, S>(threads: seq<T>, summaryOf: T -> Option<S>, limit: nat, offset: nat, pageSize: int,
                           maxScan: int)
    returns (page: seq<S>, hasMore: bool)
    requires pageSize >= 1
    ensures var all := Scannable(threads, summaryOf, pageSize, maxScan);
            page == Slice(all, offset, offset + limit) && hasMore == (|all| > offset + limit)
  {
    hide Visible, PagesFor, Slice;
    var needed := offset + limit + 1;
    var summaries: seq<S> := [];
    var scanOffset := 0;
    ghost var pages: nat, scanned: nat := 0, 0;
    ghost var bound := PagesFor(maxScan, pageSize) * pageSize;
    ghost var reach := FirstN(threads, bound);
    PagesBound(0, maxScan, pageSize);
    NothingVisible(reach, summaryOf);
    while |summaries| < needed && scanOffset < maxScan
      invariant scanOffset == pages * pageSize && scanned <= |reach|
      invariant summaries == FirstN(Visible(reach[..scanned], summaryOf), needed)
      invariant scanOffset < maxScan ==> scanOffset + pageSize <= bound
      invariant scanOffset <= bound && (scanOffset < bound ==> scanOffset < maxScan)
      invariant |summaries| < needed ==> scanned == scanOffset
      decreases maxScan - scanOffset
    {
      var threadPage := Slice(threads, scanOffset, scanOffset + pageSize);
      PageOfReach(threads, bound, scanOffset, pageSize);
      if threadPage == [] {
        break;
      }
      OneMorePage(reach, scanned, threadPage, summaryOf, needed);
      summaries := ScanPage(summaries, threadPage, summaryOf, needed);
      scanned := scanned + |threadPage|;
      if |threadPage| < pageSize {
        break;
      }
      pages := pages + 1;
      NextMultiple(pages - 1, pageSize);
      PagesBound(pages, maxScan, pageSize);
      scanOffset := scanOffset + pageSize;
    }
    EnoughDecides(reach, scanned, summaryOf, summaries, offset, limit);
    page := Slice(summaries, offset, offset + limit);
    hasMore := |summaries| > offset + limit;
  }

  lemma NextMultiple(k: int, n: int)
    ensures (k + 1) * n == k * n + n
  {
  }

  lemma NothingVisible<T, S>(threads: seq<T>, summaryOf: T -> Option<S>)
    ensures Visible(threads[..0], summaryOf) == []
  {
  }

  /** Where an offset that may lie past the end cuts a list. */
  function Within<S>(s: seq<S>, offset: nat): nat {
    if offset <= |s| then offset else |s|
  }

  lemma SliceIsRange<S>(s: seq<S>, start: nat, end: nat)
    requires start <= end
    ensures Slice(s, start, end) == s[Within(s, start)..Within(s, end)]
  {
  }

  lemma PageOfReach<T>(threads: seq<T>, bound: nat, scanOffset: nat, pageSize: nat)
    requires scanOffset + pageSize <= bound && scanOffset <= |FirstN(threads, bound)|
    ensures var page := Slice(threads, scanOffset, scanOffset + pageSize);
            var reach := FirstN(threads, bound);
            |page| <= pageSize && scanOffset + |page| <= |reach| && page == reach[scanOffset..scanOffset + |page|] &&
            (|page| < pageSize ==> scanOffset + |page| == |reach|)
  {
    SliceIsRange(threads, scanOffset, scanOffset + pageSize);
    var page, reach := Slice(threads, scanOffset, scanOffset + pageSize), FirstN(threads, bound);
    assert reach == threads[..Within(threads, bound)];
    hide Slice, FirstN;
    assert page == reach[scanOffset..scanOffset + |page|];
  }

  /** `has_more` is true exactly when the next page holds something, and consecutive pages lose and repeat nothing. */
  lemma PagesTile<S>(all: seq<S>, offset: nat, limit: nat, next: nat)
    ensures next >= 1 ==> (|all| > offset + limit <==> Slice(all, offset + limit, offset + limit + next) != [])
    ensures Slice(all, offset, offset + limit) + Slice(all, offset + limit, offset + limit + next) ==
            Slice(all, offset, offset + limit + next)
  {
    hide Slice;
    SliceIsRange(all, offset, offset + limit);
    SliceIsRange(all, offset + limit, offset + limit + next);
    SliceIsRange(all, offset, offset + limit + next);
    RangesJoin(all, Within(all, offset), Within(all, offset + limit), Within(all, offset + limit + next));
  }

  lemma RangesJoin<S>(s: seq<S>, i: nat, j: nat, k: nat)
    requires i <= j <= k <= |s|
    ensures s[i..j] + s[j..k] == s[i..k]
  {
  }
}
