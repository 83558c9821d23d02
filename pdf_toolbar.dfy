/** The page controls of the PDF toolbar (src/components/pdf/pdf-toolbar.tsx):
    guards that decide whether and with which page `onPageChange` is called.
    A result `Some(p)` means `onPageChange(p)` is called, `None` that the
    callback is not called. */
module PdfToolbar {
  import opened Js

  /** What `parseInt` makes of the page input's text. */
  datatype ParsedInt = NaN | Int(n: int)

  /** The key of a keydown event on the page input. */
  datatype Key = Enter | OtherKey

  /** `goToPage`: forwards the page only when it lies in `[1, numPages]`;
      a NaN fails both comparisons and is never forwarded. */
  function GoToPage(page: ParsedInt, numPages: int): (r: Option<int>)
    ensures r.Some? <==> page.Int? && 1 <= page.n <= numPages
    ensures r.Some? ==> r.value == page.n && 1 <= r.value <= numPages
  {
    match page
    case NaN => None
    case Int(n) => if n >= 1 && n <= numPages then Some(n) else None
  }

  /** The input's `onChange`: any parsed integer is forwarded, without a range
      check; NaN is ignored. */
  function OnChange(value: ParsedInt): (r: Option<int>)
    ensures r.Some? <==> value.Int?
    ensures r.Some? ==> r.value == value.n
  {
    if value.Int? then Some(value.n) else None
  }

  /** The input's `onBlur`: the guarded `goToPage`. */
  function OnBlur(value: ParsedInt, numPages: int): (r: Option<int>)
    ensures r == GoToPage(value, numPages)
  {
    GoToPage(value, numPages)
  }

  /** The input's `onKeyDown`: Enter runs the guarded `goToPage`, every other
      key does nothing. */
  function OnKeyDown(key: Key, value: ParsedInt, numPages: int): (r: Option<int>)
    ensures key == OtherKey ==> r == None
    ensures key == Enter ==> r == GoToPage(value, numPages)
  {
    if key == Enter then GoToPage(value, numPages) else None
  }

  predicate PreviousDisabled(currentPage: int) {
    currentPage <= 1
  }

  predicate NextDisabled(currentPage: int, numPages: int) {
    currentPage >= numPages
  }

  /** A click on "Previous page": a disabled button fires nothing, an
      enabled one runs `goToPage(currentPage - 1)`. */
  function PreviousClick(currentPage: int, numPages: int): (r: Option<int>)
    ensures PreviousDisabled(currentPage) ==> r == None
    ensures r.Some? ==> r.value == currentPage - 1 && 1 <= r.value <= numPages
  {
    if PreviousDisabled(currentPage) then None else GoToPage(Int(currentPage - 1), numPages)
  }

  /** A click on "Next page": a disabled button fires nothing, an enabled one
      runs `goToPage(currentPage + 1)`. */
  function NextClick(currentPage: int, numPages: int): (r: Option<int>)
    ensures NextDisabled(currentPage, numPages) ==> r == None
    ensures r.Some? ==> r.value == currentPage + 1 && 1 <= r.value <= numPages
  {
    if NextDisabled(currentPage, numPages) then None else GoToPage(Int(currentPage + 1), numPages)
  }

  /** While the current page lies in `[1, numPages]`, an enabled arrow always
      moves exactly one page, and a disabled one is exactly the arrow that
      would leave the range. */
  lemma ArrowsAgreeWithGuard(currentPage: int, numPages: int)
    requires 1 <= currentPage <= numPages
    ensures PreviousClick(currentPage, numPages).Some? <==> currentPage > 1
    ensures NextClick(currentPage, numPages).Some? <==> currentPage < numPages
    ensures !PreviousDisabled(currentPage) ==> PreviousClick(currentPage, numPages) == Some(currentPage - 1)
    ensures !NextDisabled(currentPage, numPages) ==> NextClick(currentPage, numPages) == Some(currentPage + 1)
  {
  }

  /** Typing can move the parent's page outside the document (onChange does
      not check the range); from there the enabled "Previous" arrow is
      swallowed by the guard. */
  lemma OutOfRangeTypingStrandsPrevious(numPages: int, typed: int)
    requires numPages >= 1 && typed > numPages + 1
    ensures OnChange(Int(typed)) == Some(typed)
    ensures GoToPage(Int(typed), numPages) == None
    ensures !PreviousDisabled(typed) && PreviousClick(typed, numPages) == None
  {
  }
}
