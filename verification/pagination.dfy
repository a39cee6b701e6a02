/**
 * Client-side paging shared by the admin ticket table and the user dashboard:
 * page p of a list shows `list.slice((p - 1) * perPage, p * perPage)` and the
 * page count is `Math.ceil(list.length / perPage)`.
 */
module Pagination {

  /** How `Array.prototype.slice` resolves a possibly negative or too large index. */
  function SliceIndex(i: int, len: nat): (r: nat)
    ensures r <= len
    ensures 0 <= i <= len ==> r == i
  {
    if i < 0 then (if len + i < 0 then 0 else len + i) else if i > len then len else i
  }

  /** `s.slice(start, end)`. */
  function Slice<T>(s: seq<T>, start: int, end: int): seq<T> {
    var a, b := SliceIndex(start, |s|), SliceIndex(end, |s|);
    if a < b then s[a..b] else []
  }

  /** The entries shown on page p: `slice(p * perPage - perPage, p * perPage)`. */
  function PageOf<T>(s: seq<T>, p: int, perPage: nat): seq<T> {
    Slice(s, p * perPage - perPage, p * perPage)
  }

  /** `Math.ceil(n / perPage)`. */
  function TotalPages(n: nat, perPage: nat): nat
    requires perPage > 0
  {
    if n % perPage == 0 then n / perPage else n / perPage + 1
  }

  /** The page count is the least number of pages of perPage entries that hold n entries. */
  lemma TotalPagesBounds(n: nat, perPage: nat)
    requires perPage > 0
    ensures n <= TotalPages(n, perPage) * perPage
    ensures TotalPages(n, perPage) > 0 ==> (TotalPages(n, perPage) - 1) * perPage < n
  {
  }

  /** Paging controls (more than one page) exactly when the list overflows one page. */
  lemma MoreThanOnePage(n: nat, perPage: nat)
    requires perPage > 0
    ensures TotalPages(n, perPage) > 1 <==> n > perPage
  {
    var t := TotalPages(n, perPage);
    TotalPagesBounds(n, perPage);
    if t > 1 {
      MulMonotone(1, t - 1, perPage);
    } else {
      MulMonotone(t, 1, perPage);
    }
  }

  /** Multiplying by a non-negative factor keeps the order. */
  lemma {:induction false} MulMonotone(a: int, b: int, c: nat)
    requires a <= b
    ensures a * c <= b * c
    decreases b - a
  {
    if a < b {
      MulMonotone(a, b - 1, c);
      assert (b - 1) * c == b * c - c;
    }
  }

  /**
   * A reference definition of paging: cut the list into consecutive chunks of
   * perPage entries, the last one possibly shorter.
   */
  function Chunks<T>(s: seq<T>, perPage: nat): seq<seq<T>>
    requires perPage > 0
    decreases |s|
  {
    if s == [] then []
    else if |s| <= perPage then [s]
    else [s[..perPage]] + Chunks(s[perPage..], perPage)
  }

  function Flatten<T>(pages: seq<seq<T>>): seq<T> {
    if pages == [] then [] else pages[0] + Flatten(pages[1..])
  }

  /** A list that fits on one page has one page (none when empty). */
  lemma OnePage(n: nat, perPage: nat)
    requires 0 < n <= perPage
    ensures TotalPages(n, perPage) == 1
  {
    if n == perPage {
      DivModUnique(n, perPage, 1, 0);
    } else {
      DivModUnique(n, perPage, 0, n);
    }
  }

  /** There are as many pages as chunks. */
  lemma {:induction false} ChunkCount<T>(s: seq<T>, perPage: nat)
    requires perPage > 0
    ensures |Chunks(s, perPage)| == TotalPages(|s|, perPage)
    decreases |s|
  {
    if s == [] {
    } else if |s| <= perPage {
      OnePage(|s|, perPage);
    } else {
      ChunkCount(s[perPage..], perPage);
      TotalPagesStep(|s|, perPage);
    }
  }

  /** Page p, for p from 1 to the page count, shows the p-th chunk. */
  lemma {:induction false} PageIsChunk<T>(s: seq<T>, perPage: nat, p: int)
    requires perPage > 0
    requires 1 <= p <= TotalPages(|s|, perPage)
    ensures p - 1 < |Chunks(s, perPage)| && PageOf(s, p, perPage) == Chunks(s, perPage)[p - 1]
    decreases |s|
  {
    ChunkCount(s, perPage);
    if |s| <= perPage {
      OnePage(|s|, perPage);
      assert PageOf(s, p, perPage) == s[0..|s|];
    } else if p == 1 {
      assert PageOf(s, p, perPage) == s[..perPage];
    } else {
      TotalPagesStep(|s|, perPage);
      ShiftedPage(s, perPage, p);
      PageIsChunk(s[perPage..], perPage, p - 1);
    }
  }

  /** Past the last page nothing is shown. */
  lemma PageBeyondLast<T>(s: seq<T>, perPage: nat, p: int)
    requires perPage > 0
    requires p > TotalPages(|s|, perPage)
    ensures PageOf(s, p, perPage) == []
  {
    TotalPagesBounds(|s|, perPage);
    MulMonotone(TotalPages(|s|, perPage), p - 1, perPage);
    assert (p - 1) * perPage == p * perPage - perPage;
  }

  /** Removing one full page removes one from the page count. */
  lemma TotalPagesStep(n: nat, perPage: nat)
    requires perPage > 0 && n > perPage
    ensures TotalPages(n - perPage, perPage) == TotalPages(n, perPage) - 1
  {
    var q, r := n / perPage, n % perPage;
    assert n - perPage == (q - 1) * perPage + r;
    DivModUnique(n - perPage, perPage, q - 1, r);
  }

  lemma DivModUnique(n: int, d: nat, q: int, r: int)
    requires d > 0 && n == q * d + r && 0 <= r < d
    ensures n / d == q && n % d == r
  {
    var q', r' := n / d, n % d;
    assert n == q' * d + r';
    if q > q' {
      assert (q' + 1) * d == q' * d + d;
      MulMonotone(q' + 1, q, d);
    } else if q < q' {
      assert (q + 1) * d == q * d + d;
      MulMonotone(q + 1, q', d);
    }
  }

  /** Past the first page, page p of s is page p - 1 of s without its first page. */
  lemma ShiftedPage<T>(s: seq<T>, perPage: nat, p: int)
    requires perPage > 0 && |s| > perPage && p >= 2
    ensures PageOf(s, p, perPage) == PageOf(s[perPage..], p - 1, perPage)
  {
    var rest := s[perPage..];
    var m := (p - 1) * perPage;
    assert p * perPage == m + perPage;
    MulMonotone(1, p - 1, perPage);
    var a, b := SliceIndex(m, |s|), SliceIndex(m + perPage, |s|);
    var a', b' := SliceIndex(m - perPage, |rest|), SliceIndex(m, |rest|);
    assert a == a' + perPage && b == b' + perPage;
    if a < b {
      forall i | 0 <= i < b - a
        ensures s[a..b][i] == rest[a'..b'][i]
      {
        assert rest[a' + i] == s[a + i];
      }
    }
  }

  /** The pages 1..TotalPages, read in order, are exactly the list: every entry is shown once. */
  lemma {:induction false} ChunksPartition<T>(s: seq<T>, perPage: nat)
    requires perPage > 0
    ensures Flatten(Chunks(s, perPage)) == s
    decreases |s|
  {
    if |s| > perPage {
      ChunksPartition(s[perPage..], perPage);
      assert Chunks(s, perPage)[1..] == Chunks(s[perPage..], perPage);
    }
  }

  /** Entry k sits at offset k % perPage of page k / perPage + 1, which starts at a multiple of perPage. */
  lemma PageStart(k: nat, perPage: nat)
    requires perPage > 0
    ensures var p := k / perPage + 1;
      && p * perPage - perPage + k % perPage == k
      && 0 <= p * perPage - perPage
      && k % perPage < perPage
  {
    var q := k / perPage;
    assert (q + 1) * perPage == q * perPage + perPage;
  }

  /** Entry k of the list is shown on page k / perPage + 1, at position k % perPage. */
  lemma PageHoldsEntry<T>(s: seq<T>, perPage: nat, k: nat)
    requires perPage > 0 && k < |s|
    ensures var p := k / perPage + 1;
      k % perPage < |PageOf(s, p, perPage)| && PageOf(s, p, perPage)[k % perPage] == s[k]
  {
    PageStart(k, perPage);
  }
}
