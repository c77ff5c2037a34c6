/**
 * The page loop shared by the "list news" tools, as a specification over an
 * abstract page source: `fetch(p)` is what page `p` yields, with a failed
 * fetch already turned into an empty page. The loop asks for pages 1, 2, ...
 * up to `numPages`, stops at the first empty page, and keeps the items of the
 * pages before it in order.
 */
module Pagination {

  /** The pages `lo`, `lo + 1`, ..., `hi - 1`. */
  function Range(lo: int, hi: int): (r: seq<int>)
    decreases hi - lo
    ensures |r| == if hi <= lo then 0 else hi - lo
    ensures forall i :: 0 <= i < |r| ==> r[i] == lo + i
  {
    if hi <= lo then [] else [lo] + Range(lo + 1, hi)
  }

  /** The items of the given pages, in the order of `pages`. */
  function Concat<T>(fetch: int -> seq<T>, pages: seq<int>): seq<T>
  {
    if pages == [] then [] else fetch(pages[0]) + Concat(fetch, pages[1..])
  }

  /** The sum of the lengths of the given pages. */
  function TotalLength<T>(fetch: int -> seq<T>, pages: seq<int>): nat
  {
    if pages == [] then 0 else |fetch(pages[0])| + TotalLength(fetch, pages[1..])
  }

  /** How many pages the loop may ask for when it starts at `page`. */
  function Budget(page: int, numPages: int): nat
  {
    if numPages < page then 0 else numPages - page + 1
  }

  /** The page numbers the loop requests when it starts at `page`. */
  function PagesFrom<T>(fetch: int -> seq<T>, page: int, numPages: int): seq<int>
    decreases Budget(page, numPages)
  {
    if numPages < page then []
    else if fetch(page) == [] then [page]
    else [page] + PagesFrom(fetch, page + 1, numPages)
  }

  /**
   * The requests from `page` on are consecutive from `page` and within the
   * budget; every one but the last was non-empty, and the last one was empty
   * unless the budget is used up.
   */
  lemma {:induction false} PagesFromShape<T>(fetch: int -> seq<T>, page: int, numPages: int)
    decreases Budget(page, numPages)
    ensures var r := PagesFrom(fetch, page, numPages);
      |r| <= Budget(page, numPages) &&
      (forall i :: 0 <= i < |r| ==> r[i] == page + i) &&
      (forall i :: 0 <= i < |r| - 1 ==> fetch(r[i]) != []) &&
      (|r| < Budget(page, numPages) ==> r != [] && fetch(r[|r| - 1]) == [])
  {
    if page <= numPages && fetch(page) != [] {
      PagesFromShape(fetch, page + 1, numPages);
      var rest := PagesFrom(fetch, page + 1, numPages);
      var r := [page] + rest;
      assert forall i :: 1 <= i < |r| ==> r[i] == rest[i - 1];
    }
  }

  /** The items the loop accumulates when it starts at `page`. */
  function CollectFrom<T>(fetch: int -> seq<T>, page: int, numPages: int): seq<T>
    decreases Budget(page, numPages)
  {
    if numPages < page || fetch(page) == [] then []
    else fetch(page) + CollectFrom(fetch, page + 1, numPages)
  }

  /** The page numbers requested for a call with `numPages`. */
  function Requested<T>(fetch: int -> seq<T>, numPages: int): seq<int>
  {
    PagesFrom(fetch, 1, numPages)
  }

  /** The accumulated list for a call with `numPages`. */
  function Paginate<T>(fetch: int -> seq<T>, numPages: int): seq<T>
  {
    CollectFrom(fetch, 1, numPages)
  }

  /**
   * The requests are exactly 1, 2, ..., m for some m with m <= max(numPages, 0);
   * every requested page but the last was non-empty, and fewer than
   * `numPages` requests means the last one came back empty.
   */
  lemma RequestedPagesAreConsecutive<T>(fetch: int -> seq<T>, numPages: int)
    ensures var r := Requested(fetch, numPages);
      |r| <= (if numPages < 0 then 0 else numPages) &&
      r == Range(1, |r| + 1) &&
      (forall i :: 0 <= i < |r| - 1 ==> fetch(r[i]) != []) &&
      (|r| < numPages ==> r != [] && fetch(r[|r| - 1]) == [])
  {
    PagesFromShape(fetch, 1, numPages);
    var r := Requested(fetch, numPages);
    var expected := Range(1, |r| + 1);
    assert |expected| == |r|;
    assert forall i :: 0 <= i < |r| ==> r[i] == expected[i];
  }

  /** A non-positive page count makes no request and collects nothing. */
  lemma NoRequestsWithoutPages<T>(fetch: int -> seq<T>, numPages: int)
    requires numPages <= 0
    ensures Requested(fetch, numPages) == [] && Paginate(fetch, numPages) == []
  {
  }

  /** What the loop collects is the items of the pages it requested, in request order. */
  lemma {:induction false} CollectIsConcatOfRequested<T>(fetch: int -> seq<T>, page: int, numPages: int)
    decreases Budget(page, numPages)
    ensures CollectFrom(fetch, page, numPages) == Concat(fetch, PagesFrom(fetch, page, numPages))
  {
    if numPages < page {
    } else if fetch(page) == [] {
      assert Concat(fetch, [page]) == fetch(page) + Concat(fetch, []);
    } else {
      CollectIsConcatOfRequested(fetch, page + 1, numPages);
      var rest := PagesFrom(fetch, page + 1, numPages);
      assert ([page] + rest)[1..] == rest;
    }
  }

  /** Concatenation keeps every item: its length is the sum of the page lengths. */
  lemma {:induction false} ConcatLength<T>(fetch: int -> seq<T>, pages: seq<int>)
    ensures |Concat(fetch, pages)| == TotalLength(fetch, pages)
  {
    if pages != [] {
      ConcatLength(fetch, pages[1..]);
    }
  }

  /**
   * The aggregated list is the in-order concatenation of the requested pages,
   * nothing dropped or merged: its length is the sum of their lengths.
   */
  lemma PaginateIsConcatOfRequested<T>(fetch: int -> seq<T>, numPages: int)
    ensures Paginate(fetch, numPages) == Concat(fetch, Requested(fetch, numPages))
    ensures |Paginate(fetch, numPages)| == TotalLength(fetch, Requested(fetch, numPages))
  {
    CollectIsConcatOfRequested(fetch, 1, numPages);
    ConcatLength(fetch, Requested(fetch, numPages));
  }

  /** From `page`, a run of non-empty pages ending in an empty page `stop` requests page..stop and keeps page..stop-1. */
  lemma {:induction false} StopsAtFirstEmpty<T>(fetch: int -> seq<T>, page: int, stop: int, numPages: int)
    requires page <= stop <= numPages
    requires forall p :: page <= p < stop ==> fetch(p) != []
    requires fetch(stop) == []
    decreases stop - page
    ensures PagesFrom(fetch, page, numPages) == Range(page, stop + 1)
    ensures CollectFrom(fetch, page, numPages) == Concat(fetch, Range(page, stop))
  {
    if page < stop {
      StopsAtFirstEmpty(fetch, page + 1, stop, numPages);
    }
  }

  /**
   * Early stop: if pages 1..k are non-empty, page k+1 is empty and k < numPages,
   * exactly k+1 pages are requested (1..k+1, nothing after) and the result is
   * pages 1..k concatenated in order.
   */
  lemma EarlyStop<T>(fetch: int -> seq<T>, numPages: int, k: nat)
    requires k < numPages
    requires forall p :: 1 <= p <= k ==> fetch(p) != []
    requires fetch(k + 1) == []
    ensures Requested(fetch, numPages) == Range(1, k + 2)
    ensures |Requested(fetch, numPages)| == k + 1
    ensures Paginate(fetch, numPages) == Concat(fetch, Range(1, k + 1))
  {
    StopsAtFirstEmpty(fetch, 1, k + 1, numPages);
  }

  /** From `page`, when every page up to numPages is non-empty, all of them are requested and kept. */
  lemma {:induction false} RunsToBudget<T>(fetch: int -> seq<T>, page: int, numPages: int)
    requires page >= 1
    requires forall p :: page <= p <= numPages ==> fetch(p) != []
    decreases Budget(page, numPages)
    ensures PagesFrom(fetch, page, numPages) == Range(page, numPages + 1)
    ensures CollectFrom(fetch, page, numPages) == Concat(fetch, Range(page, numPages + 1))
  {
    if page <= numPages {
      RunsToBudget(fetch, page + 1, numPages);
    }
  }

  /** With no empty page among 1..numPages, all numPages pages are requested and concatenated. */
  lemma AllPagesFull<T>(fetch: int -> seq<T>, numPages: int)
    requires forall p :: 1 <= p <= numPages ==> fetch(p) != []
    ensures Requested(fetch, numPages) == Range(1, numPages + 1)
    ensures Paginate(fetch, numPages) == Concat(fetch, Range(1, numPages + 1))
  {
    RunsToBudget(fetch, 1, numPages);
  }

  /** The loop's result depends only on what each page yields, not on how it is obtained. */
  lemma {:induction false} SamePagesSameResult<T>(f: int -> seq<T>, g: int -> seq<T>, page: int, numPages: int)
    requires forall p :: f(p) == g(p)
    decreases Budget(page, numPages)
    ensures PagesFrom(f, page, numPages) == PagesFrom(g, page, numPages)
    ensures CollectFrom(f, page, numPages) == CollectFrom(g, page, numPages)
  {
    if page <= numPages {
      SamePagesSameResult(f, g, page + 1, numPages);
    }
  }
}
