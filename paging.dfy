/**
 * Client-side pagination shared by the product, user and category lists and
 * the dashboard: the `slice((p-1)*n, p*n)` window, `Math.ceil(len / n)` pages
 * and the Previous/Next buttons.
 */
module Paging {

  function Min(a: int, b: int): int {
    if a <= b then a else b
  }

  function Max(a: int, b: int): int {
    if a <= b then b else a
  }

  /** How `Array.prototype.slice` resolves one bound: negative counts from the end, then clamp to `[0, len]`. */
  function SliceIndex(i: int, len: nat): (r: nat)
    ensures r <= len
    ensures 0 <= i ==> r == Min(i, len)
  {
    if i < 0 then (if len + i < 0 then 0 else len + i)
    else if i < len then i
    else len
  }

  /**
   * `s.slice(start, end)`: the run of `s` between the two clamped positions,
   * empty when they cross; for positions inside `s` that is `s[start..end]`.
   */
  function JsSlice<T>(s: seq<T>, start: int, end: int): (r: seq<T>)
    ensures |r| == Max(0, SliceIndex(end, |s|) - SliceIndex(start, |s|))
    ensures forall i :: 0 <= i < |r| ==> r[i] == s[SliceIndex(start, |s|) + i]
    ensures 0 <= start <= end <= |s| ==> r == s[start..end]
  {
    var a := SliceIndex(start, |s|);
    var b := SliceIndex(end, |s|);
    if a < b then s[a..b] else []
  }

  /**
   * The items of page `page`: `indexOfLastItem = page * perPage`,
   * `indexOfFirstItem = indexOfLastItem - perPage`; a run of `s` that starts at
   * the clamped first index.
   */
  function PageWindow<T>(s: seq<T>, page: int, perPage: int): (r: seq<T>)
    ensures |r| <= |s|
    ensures SliceIndex(page * perPage - perPage, |s|) + |r| <= |s|
    ensures forall i :: 0 <= i < |r| ==> r[i] == s[SliceIndex(page * perPage - perPage, |s|) + i]
  {
    var last := page * perPage;
    var first := last - perPage;
    JsSlice(s, first, last)
  }

  /** `Math.ceil(count / perPage)`. */
  function TotalPages(count: nat, perPage: int): (r: nat)
    requires perPage > 0
    ensures r == 0 <==> count == 0
    ensures count <= r * perPage
    ensures r > 0 ==> (r - 1) * perPage < count
  {
    var r := (count + perPage - 1) / perPage;
    assert r * perPage <= count + perPage - 1 < r * perPage + perPage;
    assert (r - 1) * perPage == r * perPage - perPage;
    r
  }

  /** A page number the list has items for. */
  predicate InRange(page: int, totalPages: nat) {
    1 <= page <= totalPages
  }

  /**
   * For a page number of at least 1 the window is the clamped run
   * `[(page-1)*perPage, page*perPage)` of the list, holds at most `perPage`
   * items, and is non-empty exactly when the page is in range.
   */
  lemma {:induction false} WindowOfPage<T>(s: seq<T>, page: int, perPage: int)
    requires page >= 1 && perPage > 0
    ensures PageWindow(s, page, perPage)
         == s[Min((page - 1) * perPage, |s|)..Min(page * perPage, |s|)]
    ensures |PageWindow(s, page, perPage)| <= perPage
    ensures PageWindow(s, page, perPage) != [] <==> InRange(page, TotalPages(|s|, perPage))
  {
    var first := (page - 1) * perPage;
    var last := page * perPage;
    Distribute(page, perPage);
    MulMonotone(0, page - 1, perPage);
    var t := TotalPages(|s|, perPage);
    if page <= t {
      MulMonotone(page - 1, t - 1, perPage);
    } else {
      MulMonotone(t, page - 1, perPage);
    }
  }

  /** For a page number of at least 1 the window is the clamped run `[(page-1)*perPage, page*perPage)`. */
  lemma WindowIsSlice<T>(s: seq<T>, page: int, perPage: int)
    requires page >= 1 && perPage > 0
    ensures 0 <= (page - 1) * perPage <= page * perPage
    ensures PageWindow(s, page, perPage)
         == s[Min((page - 1) * perPage, |s|)..Min(page * perPage, |s|)]
  {
    Distribute(page, perPage);
    MulMonotone(0, page - 1, perPage);
  }

  /** The same window, with its end written as the start plus one page (as an offset and a limit give it). */
  lemma WindowAtOffset<T>(s: seq<T>, page: int, perPage: int)
    requires page >= 1 && perPage > 0
    ensures 0 <= (page - 1) * perPage
    ensures PageWindow(s, page, perPage)
         == s[Min((page - 1) * perPage, |s|)..Min((page - 1) * perPage + perPage, |s|)]
  {
    WindowIsSlice(s, page, perPage);
    Distribute(page, perPage);
  }

  /** Whatever the page number, even one below 1, the window holds at most `perPage` items. */
  lemma WindowAtMostPerPage<T>(s: seq<T>, page: int, perPage: int)
    requires perPage > 0
    ensures |PageWindow(s, page, perPage)| <= perPage
  {
  }

  /** `(a - 1) * b == a * b - b`. */
  lemma Distribute(a: int, b: int)
    ensures (a - 1) * b == a * b - b
  {
  }

  /** Multiplying by a non-negative factor keeps order. */
  lemma MulMonotone(a: int, b: int, c: int)
    requires a <= b && c >= 0
    ensures a * c <= b * c
  {
  }

  /** The windows of pages `1..k`, one after another. */
  function PagesUpTo<T>(s: seq<T>, perPage: int, k: nat): seq<T> {
    if k == 0 then [] else PagesUpTo(s, perPage, k - 1) + PageWindow(s, k, perPage)
  }

  /** The first `k` pages show the first `k * perPage` items, in order, each once. */
  lemma {:induction false} PagesUpToPrefix<T>(s: seq<T>, perPage: int, k: nat)
    requires perPage > 0
    ensures PagesUpTo(s, perPage, k) == s[..Min(k * perPage, |s|)]
  {
    if k > 0 {
      PagesUpToPrefix(s, perPage, k - 1);
      WindowIsSlice(s, k, perPage);
      ConcatSlices(s, (k - 1) * perPage, k * perPage);
    }
  }

  /** Two adjacent clamped runs make one. */
  lemma ConcatSlices<T>(s: seq<T>, a: int, b: int)
    requires 0 <= a <= b
    ensures s[..Min(a, |s|)] + s[Min(a, |s|)..Min(b, |s|)] == s[..Min(b, |s|)]
  {
  }

  /** Pages `1..TotalPages` together show the whole list, in order, each item exactly once. */
  lemma AllPagesCoverList<T>(s: seq<T>, perPage: int)
    requires perPage > 0
    ensures PagesUpTo(s, perPage, TotalPages(|s|, perPage)) == s
  {
    PagesUpToPrefix(s, perPage, TotalPages(|s|, perPage));
  }

  /**
   * The Previous button is disabled on page 1: from a reachable page, exactly
   * when the page before it is not reachable, whatever the page count.
   */
  predicate PreviousDisabled(currentPage: int)
    ensures forall totalPages: nat :: Reachable(currentPage, totalPages) ==>
      (PreviousDisabled(currentPage) <==> !Reachable(currentPage - 1, totalPages))
  {
    currentPage == 1
  }

  /**
   * The Next button of the product, user and category lists, as written:
   * disabled only when `currentPage === totalPages`. With at least one page it
   * is disabled exactly when the next page is not reachable; with no page it is
   * enabled on every page but 0.
   */
  predicate NextDisabledAsWritten(currentPage: int, totalPages: nat)
    ensures totalPages >= 1 && Reachable(currentPage, totalPages) ==>
      (NextDisabledAsWritten(currentPage, totalPages) <==> !Reachable(currentPage + 1, totalPages))
    ensures totalPages == 0 ==> (NextDisabledAsWritten(currentPage, totalPages) <==> currentPage == 0)
  {
    currentPage == totalPages
  }

  /**
   * The Next button as intended: disabled on the last page and on any page past
   * it. From a reachable page it is disabled exactly when the next page is not
   * reachable, and it is disabled wherever the written button is.
   */
  predicate NextDisabled(currentPage: int, totalPages: nat)
    ensures Reachable(currentPage, totalPages) ==>
      (NextDisabled(currentPage, totalPages) <==> !Reachable(currentPage + 1, totalPages))
    ensures NextDisabledAsWritten(currentPage, totalPages) ==> NextDisabled(currentPage, totalPages)
  {
    currentPage >= totalPages
  }

  /** The pages the buttons can lead to: 1 up to the last page, and page 1 of an empty list. */
  predicate Reachable(page: int, totalPages: nat) {
    1 <= page <= Max(1, totalPages)
  }

  /**
   * As written, an empty filtered list (0 pages) leaves Next enabled on page 1,
   * and pressing it moves to page 2, which is outside the list; the same holds
   * on every later page.
   */
  lemma NextEnabledPastLastPage(perPage: int, page: int)
    requires perPage > 0 && page >= 1
    ensures TotalPages(0, perPage) == 0
    ensures !NextDisabledAsWritten(page, TotalPages(0, perPage))
    ensures !Reachable(page + 1, TotalPages(0, perPage))
  {
  }

  /** With the intended Next button, Previous, Next and the numbered buttons only lead to reachable pages. */
  lemma {:induction false} ButtonsStayReachable(page: int, totalPages: nat, pressed: int)
    requires Reachable(page, totalPages)
    ensures !PreviousDisabled(page) ==> Reachable(page - 1, totalPages)
    ensures !NextDisabled(page, totalPages) ==> Reachable(page + 1, totalPages)
    ensures 0 <= pressed < totalPages ==> Reachable(pressed + 1, totalPages)
  {
  }
}
