/** Page arithmetic of the lead table: the page count, the slice shown for
    the current page and the clamping of the navigation buttons' targets. */
module Pagination {

  /** The "Rows per page" choices. */
  const PAGE_SIZES: set<int> := {5, 10, 25, 50}

  /** `Math.ceil(len / itemsPerPage)`. */
  function TotalPages(len: nat, perPage: nat): (r: nat)
    requires perPage > 0
    ensures r * perPage >= len
    ensures r > 0 ==> (r - 1) * perPage < len
    ensures r == 0 <==> len == 0
  {
    (len + perPage - 1) / perPage
  }

  /** `(currentPage - 1) * itemsPerPage`. */
  function StartIndex(page: int, perPage: nat): (r: int)
    ensures page >= 1 ==> r >= 0
    ensures page >= 1 ==> r + perPage == page * perPage
  {
    (page - 1) * perPage
  }

  /** JavaScript `s.slice(start, end)` for `0 <= start <= end`. */
  function Slice<T>(s: seq<T>, start: nat, end: nat): (r: seq<T>)
    requires start <= end
    ensures |r| == (if end <= |s| then end - start else if start <= |s| then |s| - start else 0)
    ensures forall k :: 0 <= k < |r| ==> r[k] == s[start + k]
  {
    var hi := if end <= |s| then end else |s|;
    var lo := if start <= hi then start else hi;
    s[lo..hi]
  }

  /** `filteredLeads.slice(startIndex, endIndex)` for the current page. */
  function PageRows<T>(s: seq<T>, page: int, perPage: nat): (r: seq<T>)
    requires page >= 1
    ensures var start := StartIndex(page, perPage);
      |r| == Min(perPage, Max(0, |s| - start))
    ensures forall k :: 0 <= k < |r| ==> r[k] == s[StartIndex(page, perPage) + k]
  {
    var start := StartIndex(page, perPage);
    Slice(s, start, start + perPage)
  }

  function Min(a: int, b: int): int { if a <= b then a else b }
  function Max(a: int, b: int): int { if a >= b then a else b }

  /** Pages 1 to n, one after another. */
  function Pages<T>(s: seq<T>, perPage: nat, n: nat): seq<T>
  {
    if n == 0 then [] else Pages(s, perPage, n - 1) + PageRows(s, n, perPage)
  }

  lemma {:induction false} PagesPrefix<T>(s: seq<T>, perPage: nat, n: nat)
    requires perPage > 0
    ensures Pages(s, perPage, n) == s[..Min(n * perPage, |s|)]
  {
    if n > 0 {
      PagesPrefix(s, perPage, n - 1);
      var lo := Min((n - 1) * perPage, |s|);
      var hi := Min(n * perPage, |s|);
      assert StartIndex(n, perPage) == (n - 1) * perPage;
      assert PageRows(s, n, perPage) == s[lo..hi];
      assert s[..lo] + s[lo..hi] == s[..hi];
    }
  }

  /** Reading every page in order shows each row exactly once. */
  lemma AllPagesCoverRows<T>(s: seq<T>, perPage: nat)
    requires perPage > 0
    ensures Pages(s, perPage, TotalPages(|s|, perPage)) == s
  {
    PagesPrefix(s, perPage, TotalPages(|s|, perPage));
  }

  /** A page past the last one shows no rows. */
  lemma PageBeyondLastIsEmpty<T>(s: seq<T>, perPage: nat, page: int)
    requires perPage > 0 && page > TotalPages(|s|, perPage)
    ensures PageRows(s, page, perPage) == []
  {
    var t := TotalPages(|s|, perPage);
    assert (page - 1) * perPage >= t * perPage;
  }

  /** Every page up to the last is full except possibly the last one. */
  lemma FullPagesBeforeLast<T>(s: seq<T>, perPage: nat, page: int)
    requires perPage > 0 && 1 <= page < TotalPages(|s|, perPage)
    ensures |PageRows(s, page, perPage)| == perPage
  {
    assert page * perPage <= (TotalPages(|s|, perPage) - 1) * perPage;
  }

  /** `Math.max(1, Math.min(totalPages, target))`. */
  function ClampPage(target: int, totalPages: nat): (r: int)
    ensures r >= 1
    ensures totalPages >= 1 ==> r <= totalPages
    ensures totalPages == 0 ==> r == 1
    ensures 1 <= target <= totalPages ==> r == target
    ensures totalPages >= 1 && target > totalPages ==> r == totalPages
    ensures target < 1 ==> r == 1
  {
    Max(1, Min(totalPages, target))
  }

  /** The four navigation buttons: first, previous, next, last. */
  datatype NavButton = First | Previous | Next | Last

  /** The page a button asks for. */
  function NavTarget(b: NavButton, current: int, totalPages: nat): int
  {
    match b
    case First => 1
    case Previous => current - 1
    case Next => current + 1
    case Last => totalPages
  }

  /** A button is disabled on the first page (first, previous) or on the last (next, last). */
  predicate NavDisabled(b: NavButton, current: int, totalPages: nat)
  {
    match b
    case First => current == 1
    case Previous => current == 1
    case Next => current == totalPages
    case Last => current == totalPages
  }

  /** The page after clicking a button: unchanged when disabled, else the clamped target. */
  function Navigate(b: NavButton, current: int, totalPages: nat): (r: int)
    ensures NavDisabled(b, current, totalPages) ==> r == current
    ensures !NavDisabled(b, current, totalPages) ==> r >= 1 && (totalPages >= 1 ==> r <= totalPages)
    ensures current >= 1 ==> r >= 1
    ensures !NavDisabled(b, current, totalPages) ==>
      r == match b
        case First => 1
        case Last => Max(1, totalPages)
        case Next => ClampPage(current + 1, totalPages)
        case Previous => ClampPage(current - 1, totalPages)
  {
    if NavDisabled(b, current, totalPages) then current
    else ClampPage(NavTarget(b, current, totalPages), totalPages)
  }

  /** From a page in range, a step moves by one page and never leaves the range. */
  lemma NavigateStaysInRange(b: NavButton, current: int, totalPages: nat)
    requires 1 <= current <= totalPages
    ensures 1 <= Navigate(b, current, totalPages) <= totalPages
    ensures b == Next ==> Navigate(b, current, totalPages) == if current < totalPages then current + 1 else current
    ensures b == Previous ==> Navigate(b, current, totalPages) == if current > 1 then current - 1 else current
  {
  }
}
