/**
 * The admin's table of all tickets: the list is sorted by priority in place
 * when it arrives, filtered by a keyword, searched by id, and paged eight at a
 * time with Prev and Next buttons.
 */
module AdminTickets {
  import opened Optional
  import opened Tickets
  import opened Text
  import Pagination

  const TicketsPerPage: nat := 8

  /** The comparator's table: Critical first, Low last. */
  function Rank(p: Priority): (r: int)
    ensures 1 <= r <= 5
  {
    match p
    case Critical => 1
    case High => 2
    case Medium => 3
    case Normal => 4
    case Low => 5
  }

  /** Non-decreasing rank from front to back. */
  predicate PriorityOrdered(s: seq<Ticket>) {
    forall i, j :: 0 <= i < j < |s| ==> Rank(s[i].priority) <= Rank(s[j].priority)
  }

  /** The tickets of priority p, in their original order. */
  function WithPriority(s: seq<Ticket>, p: Priority): seq<Ticket> {
    if s == [] then [] else (if s[0].priority == p then [s[0]] else []) + WithPriority(s[1..], p)
  }

  /** The priority the comparator ranks k. */
  function PriorityOfRank(k: int): (p: Priority)
    requires 1 <= k <= 5
    ensures Rank(p) == k
  {
    if k == 1 then Critical else if k == 2 then High else if k == 3 then Medium
    else if k == 4 then Normal else Low
  }

  /** Different priorities have different ranks. */
  lemma RankInjective(p: Priority, q: Priority)
    requires Rank(p) == Rank(q)
    ensures p == q
  {
  }

  /** The tickets ranked k, then those ranked k + 1, and so on to 5, each bucket in its original order. */
  function FromRank(s: seq<Ticket>, k: int): seq<Ticket>
    requires 1 <= k <= 6
    decreases 6 - k
  {
    if k == 6 then [] else WithPriority(s, PriorityOfRank(k)) + FromRank(s, k + 1)
  }

  /**
   * The result of a stable sort by rank, defined directly: all Critical
   * tickets in their original order, then High, Medium, Normal and Low.
   */
  function ByPriority(s: seq<Ticket>): seq<Ticket> {
    FromRank(s, 1)
  }

  /** s and t hold the same tickets of each priority in the same relative order. */
  predicate SameByPriority(s: seq<Ticket>, t: seq<Ticket>) {
    forall p :: WithPriority(s, p) == WithPriority(t, p)
  }

  lemma {:induction false} WithPriorityAppend(s: seq<Ticket>, t: seq<Ticket>, p: Priority)
    ensures WithPriority(s + t, p) == WithPriority(s, p) + WithPriority(t, p)
  {
    if s != [] {
      WithPriorityAppend(s[1..], t, p);
      assert s + t == [s[0]] + (s[1..] + t);
      WithPriorityCons(s[0], s[1..] + t, p);
      WithPriorityCons(s[0], s[1..], p);
      assert s == [s[0]] + s[1..];
    } else {
      assert s + t == t;
    }
  }

  /** Every ticket kept for p has priority p, and every ticket of priority p is kept. */
  lemma {:induction false} WithPriorityMembers(s: seq<Ticket>, p: Priority)
    ensures forall t :: t in WithPriority(s, p) <==> t in s && t.priority == p
  {
    if s != [] {
      WithPriorityMembers(s[1..], p);
      assert s == [s[0]] + s[1..];
    }
  }

  /** Swapping two neighbours of different priority keeps each priority's tickets in order. */
  lemma SwapKeepsOrderWithinPriority(s: seq<Ticket>, j: int)
    requires 0 < j < |s| && s[j - 1].priority != s[j].priority
    ensures SameByPriority(s[j - 1 := s[j]][j := s[j - 1]], s)
  {
    var u := s[j - 1 := s[j]][j := s[j - 1]];
    assert s == s[..j - 1] + ([s[j - 1]] + [s[j]]) + s[j + 1..];
    assert u == s[..j - 1] + ([s[j]] + [s[j - 1]]) + s[j + 1..];
    forall p | true
      ensures WithPriority(u, p) == WithPriority(s, p)
    {
      WithPriorityAppend(s[..j - 1] + ([s[j - 1]] + [s[j]]), s[j + 1..], p);
      WithPriorityAppend(s[..j - 1], [s[j - 1]] + [s[j]], p);
      WithPriorityAppend([s[j - 1]], [s[j]], p);
      WithPriorityAppend(s[..j - 1] + ([s[j]] + [s[j - 1]]), s[j + 1..], p);
      WithPriorityAppend(s[..j - 1], [s[j]] + [s[j - 1]], p);
      WithPriorityAppend([s[j]], [s[j - 1]], p);
    }
  }

  lemma WithPriorityCons(x: Ticket, rest: seq<Ticket>, p: Priority)
    ensures WithPriority([x] + rest, p) == (if x.priority == p then [x] else []) + WithPriority(rest, p)
  {
    assert ([x] + rest)[1..] == rest;
  }

  lemma {:induction false} NoneLeft(s: seq<Ticket>, p: Priority)
    requires forall t :: t in s ==> t.priority != p
    ensures WithPriority(s, p) == []
  {
    if s != [] {
      assert s[0] in s;
      NoneLeft(s[1..], p);
    }
  }

  /** A ticket put in front is in none of the buckets ranked below its own. */
  lemma {:induction false} FromRankConsAbove(x: Ticket, rest: seq<Ticket>, k: int)
    requires Rank(x.priority) < k <= 6
    ensures FromRank([x] + rest, k) == FromRank(rest, k)
    decreases 6 - k
  {
    if k < 6 {
      var p := PriorityOfRank(k);
      FromRankConsAbove(x, rest, k + 1);
      WithPriorityCons(x, rest, p);
      assert WithPriority([x] + rest, p) == WithPriority(rest, p);
    }
  }

  /** Below the rank of the ticket in front, neither list has a ticket of rank k. */
  lemma SkipEmptyBucket(x: Ticket, rest: seq<Ticket>, k: int)
    requires 1 <= k < Rank(x.priority)
    requires forall t :: t in rest ==> Rank(x.priority) <= Rank(t.priority)
    ensures FromRank([x] + rest, k) == FromRank([x] + rest, k + 1)
    ensures FromRank(rest, k) == FromRank(rest, k + 1)
  {
    var p := PriorityOfRank(k);
    WithPriorityCons(x, rest, p);
    NoneLeft(rest, p);
  }

  /** The ticket in front heads the bucket of its own rank. */
  lemma ConsAtOwnRank(x: Ticket, rest: seq<Ticket>)
    ensures FromRank([x] + rest, Rank(x.priority)) == [x] + FromRank(rest, Rank(x.priority))
  {
    var k := Rank(x.priority);
    var p := PriorityOfRank(k);
    RankInjective(p, x.priority);
    var bucket, below := WithPriority(rest, p), FromRank(rest, k + 1);
    WithPriorityCons(x, rest, p);
    assert WithPriority([x] + rest, p) == [x] + bucket;
    FromRankConsAbove(x, rest, k + 1);
    assert FromRank([x] + rest, k + 1) == below;
    assert FromRank([x] + rest, k) == ([x] + bucket) + below;
    assert ([x] + bucket) + below == [x] + (bucket + below);
  }

  /**
   * A ticket put in front of tickets ranked no higher than it lands in front
   * of the buckets from any rank k up to its own.
   */
  lemma {:induction false} FromRankCons(x: Ticket, rest: seq<Ticket>, k: int)
    requires 1 <= k <= Rank(x.priority)
    requires forall t :: t in rest ==> Rank(x.priority) <= Rank(t.priority)
    ensures FromRank([x] + rest, k) == [x] + FromRank(rest, k)
    decreases 6 - k
  {
    if k < Rank(x.priority) {
      FromRankCons(x, rest, k + 1);
      SkipEmptyBucket(x, rest, k);
    } else {
      ConsAtOwnRank(x, rest);
    }
  }

  /** Putting in front a ticket ranked no lower than the rest puts it in front of the stable sort. */
  lemma ByPriorityCons(x: Ticket, rest: seq<Ticket>)
    requires forall t :: t in rest ==> Rank(x.priority) <= Rank(t.priority)
    ensures ByPriority([x] + rest) == [x] + ByPriority(rest)
  {
    FromRankCons(x, rest, 1);
  }

  /** A ticket ranked no lower than an ordered list can go in front of it. */
  lemma OrderedCons(x: Ticket, rest: seq<Ticket>)
    requires PriorityOrdered(rest)
    requires forall t :: t in rest ==> Rank(x.priority) <= Rank(t.priority)
    ensures PriorityOrdered([x] + rest)
  {
    forall i, j | 0 <= i < j < |[x] + rest|
      ensures Rank(([x] + rest)[i].priority) <= Rank(([x] + rest)[j].priority)
    {
      assert ([x] + rest)[j] == rest[j - 1];
      if i == 0 {
        assert rest[j - 1] in rest;
      } else {
        assert ([x] + rest)[i] == rest[i - 1];
      }
    }
  }

  /** The head of an ordered list is ranked no lower than the tickets after it. */
  lemma OrderedHead(s: seq<Ticket>)
    requires s != [] && PriorityOrdered(s)
    ensures PriorityOrdered(s[1..])
    ensures forall t :: t in s[1..] ==> Rank(s[0].priority) <= Rank(t.priority)
  {
    forall t | t in s[1..]
      ensures Rank(s[0].priority) <= Rank(t.priority)
    {
      var k :| 0 <= k < |s[1..]| && s[1..][k] == t;
      assert s[k + 1] == t;
    }
  }

  /** A priority-ordered list is its own stable sort. */
  lemma {:induction false} OrderedIsByPriority(s: seq<Ticket>)
    requires PriorityOrdered(s)
    ensures ByPriority(s) == s
  {
    if s != [] {
      OrderedHead(s);
      OrderedIsByPriority(s[1..]);
      ByPriorityCons(s[0], s[1..]);
      assert s == [s[0]] + s[1..];
    }
  }

  /** A bucket of rank k followed by an ordered list ranked below k is ordered. */
  lemma OrderedAppend(b: seq<Ticket>, f: seq<Ticket>, k: int)
    requires forall t :: t in b ==> Rank(t.priority) == k
    requires PriorityOrdered(f) && forall i :: 0 <= i < |f| ==> k < Rank(f[i].priority)
    ensures PriorityOrdered(b + f)
    ensures forall i :: 0 <= i < |b + f| ==> k <= Rank((b + f)[i].priority)
  {
    forall i | 0 <= i < |b + f|
      ensures Rank((b + f)[i].priority) == (if i < |b| then k else Rank(f[i - |b|].priority))
    {
      if i < |b| {
        assert (b + f)[i] == b[i] && b[i] in b;
      }
    }
  }

  /** The buckets from rank k on are ordered, and hold only tickets ranked k or lower. */
  lemma {:induction false} FromRankOrdered(s: seq<Ticket>, k: int)
    requires 1 <= k <= 6
    ensures PriorityOrdered(FromRank(s, k))
    ensures forall i :: 0 <= i < |FromRank(s, k)| ==> k <= Rank(FromRank(s, k)[i].priority)
    decreases 6 - k
  {
    if k < 6 {
      FromRankOrdered(s, k + 1);
      WithPriorityMembers(s, PriorityOfRank(k));
      OrderedAppend(WithPriority(s, PriorityOfRank(k)), FromRank(s, k + 1), k);
    }
  }

  /** The stable sort is ordered by rank. */
  lemma ByPriorityOrdered(s: seq<Ticket>)
    ensures PriorityOrdered(ByPriority(s))
  {
    FromRankOrdered(s, 1);
  }

  /** Bucket k of a list with a ticket of another rank in front is the bucket without it. */
  lemma OtherBucket(x: Ticket, rest: seq<Ticket>, k: int)
    requires 1 <= k <= 5 && k != Rank(x.priority)
    ensures FromRank([x] + rest, k) == WithPriority(rest, PriorityOfRank(k)) + FromRank([x] + rest, k + 1)
  {
    WithPriorityCons(x, rest, PriorityOfRank(k));
  }

  /** A ticket put in front is in the buckets from rank k on when its rank is at least k. */
  lemma {:induction false} FromRankConsMultiset(x: Ticket, rest: seq<Ticket>, k: int)
    requires 1 <= k <= Rank(x.priority)
    ensures multiset(FromRank([x] + rest, k)) == multiset(FromRank(rest, k)) + multiset{x}
    decreases 6 - k
  {
    if k < Rank(x.priority) {
      FromRankConsMultiset(x, rest, k + 1);
      OtherBucket(x, rest, k);
      var b, with, without := WithPriority(rest, PriorityOfRank(k)), FromRank([x] + rest, k + 1), FromRank(rest, k + 1);
      assert FromRank(rest, k) == b + without;
      assert multiset(b + with) == multiset(b) + multiset(with);
      assert multiset(b + without) == multiset(b) + multiset(without);
    } else {
      ConsAtOwnRank(x, rest);
      assert multiset([x] + FromRank(rest, k)) == multiset{x} + multiset(FromRank(rest, k));
    }
  }

  lemma {:induction false} FromRankMultiset(s: seq<Ticket>)
    ensures multiset(FromRank(s, 1)) == multiset(s)
  {
    if s != [] {
      var x, rest := s[0], s[1..];
      assert s == [x] + rest;
      assert multiset(s) == multiset(rest) + multiset{x};
      FromRankMultiset(rest);
      FromRankConsMultiset(x, rest, 1);
    }
  }

  /** The stable sort is a permutation of its input. */
  lemma ByPriorityPermutation(s: seq<Ticket>)
    ensures multiset(ByPriority(s)) == multiset(s)
    ensures |ByPriority(s)| == |s|
  {
    FromRankMultiset(s);
    assert |multiset(ByPriority(s))| == |ByPriority(s)|;
  }

  lemma {:induction false} SameFromRank(t: seq<Ticket>, s: seq<Ticket>, k: int)
    requires 1 <= k <= 6 && SameByPriority(t, s)
    ensures FromRank(t, k) == FromRank(s, k)
    decreases 6 - k
  {
    if k < 6 {
      SameFromRank(t, s, k + 1);
      assert WithPriority(t, PriorityOfRank(k)) == WithPriority(s, PriorityOfRank(k));
    }
  }

  /** An ordered list with the same tickets of each priority, in the same order, is the stable sort. */
  lemma OrderedSameIsByPriority(t: seq<Ticket>, s: seq<Ticket>)
    requires PriorityOrdered(t) && SameByPriority(t, s)
    ensures t == ByPriority(s)
  {
    OrderedIsByPriority(t);
    SameFromRank(t, s, 1);
  }

  /**
   * One step of the sort: the ticket at index i sinks past the higher-ranked
   * ones before it, swapping neighbours, until data[..i + 1] is ordered.
   */
  method InsertAt(data: array<Ticket>, i: int)
    requires 0 <= i < data.Length && PriorityOrdered(data[..i])
    modifies data
    ensures PriorityOrdered(data[..i + 1])
    ensures SameByPriority(data[..], old(data[..]))
    ensures data[i + 1..] == old(data[i + 1..])
  {
    var j := i;
    while j > 0 && Rank(data[j - 1].priority) > Rank(data[j].priority)
      invariant 0 <= j <= i
      invariant forall k, l :: 0 <= k < l <= i && l != j ==> Rank(data[k].priority) <= Rank(data[l].priority)
      invariant SameByPriority(data[..], old(data[..]))
      invariant data[i + 1..] == old(data[i + 1..])
    {
      SwapKeepsOrderWithinPriority(data[..], j);
      data[j - 1], data[j] := data[j], data[j - 1];
      j := j - 1;
    }
  }

  /**
   * `sortByPriority`: sorts the array in place by rank (stably, as
   * `Array.prototype.sort` does) and returns the same array.
   */
  method SortByPriority(data: array<Ticket>) returns (sorted: array<Ticket>)
    modifies data
    ensures sorted == data
    ensures data[..] == ByPriority(old(data[..]))
  {
    var i := 0;
    while i < data.Length
      invariant 0 <= i <= data.Length
      invariant PriorityOrdered(data[..i])
      invariant SameByPriority(data[..], old(data[..]))
    {
      InsertAt(data, i);
      i := i + 1;
    }
    assert data[..data.Length] == data[..];
    OrderedSameIsByPriority(data[..], old(data[..]));
    sorted := data;
  }

  /** The search keyword occurs in the lower-cased title or status. */
  predicate Matches(t: Ticket, keyword: string) {
    Includes(Lower(t.title), keyword) || Includes(Lower(t.status), keyword)
  }

  /** `tickets.filter(...)` of `handleSearch`: the matching tickets, in list order. */
  function SearchFilter(s: seq<Ticket>, keyword: string): (r: seq<Ticket>)
    ensures forall t :: t in r <==> t in s && Matches(t, keyword)
    ensures |r| <= |s|
  {
    if s == [] then []
    else (if Matches(s[0], keyword) then [s[0]] else []) + SearchFilter(s[1..], keyword)
  }

  /** Every matching ticket is kept as often as it occurs, and no other ticket is. */
  lemma {:induction false} SearchFilterCounts(s: seq<Ticket>, keyword: string, t: Ticket)
    ensures multiset(SearchFilter(s, keyword))[t] == if Matches(t, keyword) then multiset(s)[t] else 0
  {
    if s != [] {
      SearchFilterCounts(s[1..], keyword, t);
      var head := if Matches(s[0], keyword) then [s[0]] else [];
      assert SearchFilter(s, keyword) == head + SearchFilter(s[1..], keyword);
      assert s == [s[0]] + s[1..];
      assert multiset(s) == multiset([s[0]]) + multiset(s[1..]);
    }
  }

  /** Filtering works piece by piece: together with the multiset clause this fixes the order of what is kept. */
  lemma {:induction false} SearchFilterAppend(s: seq<Ticket>, u: seq<Ticket>, keyword: string)
    ensures SearchFilter(s + u, keyword) == SearchFilter(s, keyword) + SearchFilter(u, keyword)
  {
    if s == [] {
      assert s + u == u;
    } else {
      assert (s + u)[1..] == s[1..] + u;
      SearchFilterAppend(s[1..], u, keyword);
    }
  }

  /** The empty keyword keeps every ticket. */
  lemma {:induction false} SearchEmptyKeepsAll(s: seq<Ticket>)
    ensures SearchFilter(s, "") == s
  {
    if s != [] {
      IncludesEmpty(Lower(s[0].title));
      SearchEmptyKeepsAll(s[1..]);
    }
  }

  /** Filtering a priority-ordered list leaves it priority-ordered. */
  lemma {:induction false} SearchKeepsOrder(s: seq<Ticket>, keyword: string)
    requires PriorityOrdered(s)
    ensures PriorityOrdered(SearchFilter(s, keyword))
  {
    if s != [] {
      OrderedHead(s);
      SearchKeepsOrder(s[1..], keyword);
      if Matches(s[0], keyword) {
        OrderedCons(s[0], SearchFilter(s[1..], keyword));
      }
    }
  }

  /** Whether the Prev/Next controls are shown. */
  predicate ShowsPagination(n: nat) {
    n > TicketsPerPage
  }

  /** The controls are shown exactly when there is more than one page. */
  lemma ShowsPaginationWhenSeveralPages(n: nat)
    ensures ShowsPagination(n) <==> Pagination.TotalPages(n, TicketsPerPage) > 1
  {
    Pagination.MoreThanOnePage(n, TicketsPerPage);
  }

  /** The page number stays between 1 and the page count (1 when there are no pages). */
  predicate PageInRange(p: int, total: nat) {
    1 <= p <= (if total < 1 then 1 else total)
  }

  /** A fresh array holding s, as `filter` returns a new array. */
  method ToArray(s: seq<Ticket>) returns (a: array<Ticket>)
    ensures fresh(a) && a[..] == s
  {
    a := new Ticket[|s|](k requires 0 <= k < |s| => s[k]);
  }

  class AdminTicketsPage {
    var tickets: seq<Ticket>
    var filteredTickets: seq<Ticket>
    var search: string
    var ticketId: string
    var currentPage: int

    /** The full list is always in priority order. */
    ghost predicate Valid()
      reads this
    {
      PriorityOrdered(tickets)
    }

    function TotalPages(): nat
      reads this
    {
      Pagination.TotalPages(|filteredTickets|, TicketsPerPage)
    }

    /** The rows of the table. */
    function CurrentTickets(): seq<Ticket>
      reads this
    {
      Pagination.PageOf(filteredTickets, currentPage, TicketsPerPage)
    }

    constructor ()
      ensures Valid()
      ensures tickets == [] && filteredTickets == [] && search == "" && ticketId == "" && currentPage == 1
    {
      tickets, filteredTickets := [], [];
      search, ticketId := "", "";
      currentPage := 1;
    }

    /**
     * Reset (and the first load): `data` is the server's list, sorted in
     * place; it becomes both lists, and the search, the id and the page are
     * reset. On a failed request nothing changes.
     */
    method FetchAllTickets(succeeded: bool, data: array<Ticket>)
      modifies this, data
      ensures succeeded ==>
        && data[..] == ByPriority(old(data[..]))
        && tickets == data[..] && filteredTickets == data[..]
        && search == "" && ticketId == "" && currentPage == 1
      ensures !succeeded ==> unchanged(this) && unchanged(data)
      ensures succeeded || old(Valid()) ==> Valid()
    {
      if !succeeded {
        return;
      }
      var sorted := SortByPriority(data);
      ByPriorityOrdered(old(data[..]));
      tickets := sorted[..];
      filteredTickets := sorted[..];
      search := "";
      ticketId := "";
      currentPage := 1;
    }

    /** Typing in the search box: lower-case the keyword, filter the full list, re-sort, go to page 1. */
    method HandleSearch(value: string)
      requires Valid()
      modifies this
      ensures Valid()
      ensures search == Lower(value)
      ensures filteredTickets == SearchFilter(tickets, Lower(value))
      ensures PriorityOrdered(filteredTickets)
      ensures currentPage == 1
      ensures tickets == old(tickets) && ticketId == old(ticketId)
    {
      var keyword := Lower(value);
      var results := SearchFilter(tickets, keyword);
      SearchKeepsOrder(tickets, keyword);
      OrderedIsByPriority(results);
      var buffer := ToArray(results);
      var sorted := SortByPriority(buffer);
      assert sorted[..] == results;
      search := keyword;
      filteredTickets := sorted[..];
      currentPage := 1;
    }

    /** Typing in the id box. */
    method SetTicketId(value: string)
      modifies this`ticketId
      ensures ticketId == value
    {
      ticketId := value;
    }

    /**
     * Search by ID: a blank id does nothing and sends nothing. Otherwise the
     * list becomes the one ticket found (and the page 1), or empty when the
     * request fails; the page is not reset on failure.
     */
    method HandleSearchById(response: Option<Ticket>) returns (requested: bool)
      modifies this`filteredTickets, this`currentPage
      ensures requested == !IsBlank(ticketId)
      ensures !requested ==> filteredTickets == old(filteredTickets) && currentPage == old(currentPage)
      ensures requested && response.Some? ==> filteredTickets == [response.value] && currentPage == 1
      ensures requested && response.None? ==> filteredTickets == [] && currentPage == old(currentPage)
    {
      if IsBlank(ticketId) {
        return false;
      }
      requested := true;
      match response
      case Some(t) =>
        filteredTickets := [t];
        currentPage := 1;
      case None =>
        filteredTickets := [];
    }

    /** Next: one page on, unless on the last page. */
    method GoToNextPage()
      modifies this`currentPage
      ensures currentPage == if old(currentPage) < TotalPages() then old(currentPage) + 1 else old(currentPage)
      ensures PageInRange(old(currentPage), TotalPages()) ==> PageInRange(currentPage, TotalPages())
    {
      if currentPage < TotalPages() {
        currentPage := currentPage + 1;
      }
    }

    /** Prev: one page back, unless on the first page. */
    method GoToPrevPage()
      modifies this`currentPage
      ensures currentPage == if old(currentPage) > 1 then old(currentPage) - 1 else old(currentPage)
      ensures PageInRange(old(currentPage), TotalPages()) ==> PageInRange(currentPage, TotalPages())
    {
      if currentPage > 1 {
        currentPage := currentPage - 1;
      }
    }
  }
}
