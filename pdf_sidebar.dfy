/** The outline and bookmark lists of the reader's sidebar
    (src/components/pdf/pdf-sidebar.tsx). The component keeps no state: a
    click either navigates (calls `onGoToPage`) or removes a bookmark (calls
    `onRemoveBookmark`). */
module PdfSidebar {
  import opened Js
  import opened PdfTypes

  /** What a click in the sidebar asks the reader to do. */
  datatype Action = GoTo(page: int) | RemoveAt(index: int)

  /** The first element of an explicit destination; `None` is `undefined`,
      what `dest[0]` yields on an empty array. */
  function FirstRef(items: seq<PageRef>): (r: Option<PageRef>)
    ensures r.Some? <==> items != []
    ensures r.Some? ==> r.value == items[0]
  {
    if items == [] then None else Some(items[0])
  }

  /** `handleOutlineClick`. `getPageIndex` is the document's lookup of the
      zero-based index of a referenced page; `None` from it is a rejected
      lookup, which ends the handler without navigating. The result is the
      page passed to `onGoToPage`, or `None` when it is not called. */
  function OutlineTarget(dest: Dest, documentLoaded: bool,
                         getPageIndex: Option<PageRef> -> Option<int>): (r: Option<int>)
    ensures !documentLoaded ==> r == None
    ensures dest.NoDest? || dest.NamedDest? ==> r == None
    ensures dest.NumberDest? && documentLoaded ==> r == (if dest.n == 0 then None else Some(dest.n))
    ensures dest.ArrayDest? && documentLoaded ==>
      match getPageIndex(FirstRef(dest.items))
      case None => r == None
      case Some(index) => r == Some(index + 1)
  {
    if !documentLoaded then None
    else match dest
      case NoDest => None
      // the page number 0 is falsy and fails the `!item.dest` test
      case NumberDest(n) => if n == 0 then None else Some(n)
      case ArrayDest(items) =>
        (match getPageIndex(FirstRef(items))
         case None => None
         case Some(index) => Some(index + 1))
      // matches neither the number nor the array branch
      case NamedDest(_) => None
  }

  /** Navigation happens only for a loaded document and a number or array
      destination; a resolved array destination lands one past the
      zero-based index, so every index of the document maps to a page in
      `[1, numPages]`. */
  lemma OutlineTargetInRange(dest: Dest, documentLoaded: bool,
                             getPageIndex: Option<PageRef> -> Option<int>, numPages: int)
    requires dest.ArrayDest? ==> match getPageIndex(FirstRef(dest.items))
                                 case None => true
                                 case Some(index) => 0 <= index < numPages
    requires dest.NumberDest? ==> 0 <= dest.n <= numPages
    ensures OutlineTarget(dest, documentLoaded, getPageIndex).Some? ==>
      documentLoaded && (dest.NumberDest? || dest.ArrayDest?)
      && 1 <= OutlineTarget(dest, documentLoaded, getPageIndex).value <= numPages
  {
  }

  /** A click on the title of bookmark `index` navigates to its page. */
  function BookmarkClick(bookmarks: seq<Bookmark>, index: int): (r: Action)
    requires 0 <= index < |bookmarks|
    ensures r.GoTo? && r.page == bookmarks[index].pageNumber
  {
    GoTo(bookmarks[index].pageNumber)
  }

  /** A click on the remove button of bookmark `index` passes its position in
      the list. */
  function RemoveClick(bookmarks: seq<Bookmark>, index: int): (r: Action)
    requires 0 <= index < |bookmarks|
    ensures r.RemoveAt? && 0 <= r.index < |bookmarks| && r.index == index
  {
    RemoveAt(index)
  }
}
