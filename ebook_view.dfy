/** The virtualized reader (src/pages/view/ebook-view-page.tsx): row extent
    of the page list, the current page derived from the scroll offset,
    guarded navigation, zoom and rotation steps, and the bookmark list that
    is mirrored into local storage. */
module EbookView {
  import opened Js
  import opened PdfTypes
  import PdfSidebar

  /** Unscaled size of the document's first page, used for every row. */
  datatype PageDimensions = PageDimensions(width: real, height: real)

  const UnknownPageExtent: real := 800.0
  const MinScale: real := 0.5
  const MaxScale: real := 3.0
  const ZoomStep: real := 0.2
  const HeaderHeight: int := 80
  const BookmarksKey: string := "pdf-bookmarks"

  predicate PositiveDimensions(dims: Option<PageDimensions>) {
    dims.Some? ==> dims.value.width > 0.0 && dims.value.height > 0.0
  }

  predicate IsQuarterTurn(rotation: int) {
    rotation == 0 || rotation == 90 || rotation == 180 || rotation == 270
  }

  /** JavaScript's `%`, which truncates toward zero. */
  function JsRem(a: int, b: int): (r: int)
    requires b > 0
    ensures a >= 0 ==> r == a % b
  {
    if a >= 0 then a % b else -((-a) % b)
  }

  /** `getItemSize`: the height of one row of the page list. */
  function ItemSize(dims: Option<PageDimensions>, scale: real, rotation: int): (r: real)
    ensures dims.None? ==> r == UnknownPageExtent * scale
    ensures scale > 0.0 && PositiveDimensions(dims) ==> r > 0.0
  {
    match dims
    case None => UnknownPageExtent * scale
    case Some(d) =>
      var isRotated := JsRem(rotation, 180) != 0;
      (if isRotated then d.width else d.height) * scale
  }

  /** Upright and upside-down pages use the page height, quarter turns the
      page width. */
  lemma ItemSizeByRotation(d: PageDimensions, scale: real, rotation: int)
    requires IsQuarterTurn(rotation)
    ensures rotation == 0 || rotation == 180 ==> ItemSize(Some(d), scale, rotation) == d.height * scale
    ensures rotation == 90 || rotation == 270 ==> ItemSize(Some(d), scale, rotation) == d.width * scale
  {
  }

  /** One rotation step swaps the roles of width and height; two steps give
      the extent back. */
  lemma ItemSizeUnderRotation(d: PageDimensions, scale: real, rotation: int)
    requires IsQuarterTurn(rotation)
    ensures ItemSize(Some(d), scale, NextRotation(rotation))
         == ItemSize(Some(PageDimensions(d.height, d.width)), scale, rotation)
    ensures ItemSize(Some(d), scale, NextRotation(NextRotation(rotation)))
         == ItemSize(Some(d), scale, rotation)
  {
  }

  function Max(a: int, b: int): int { if a >= b then a else b }
  function Min(a: int, b: int): int { if a <= b then a else b }

  /** The page shown at a scroll offset (`handleScroll`): the row under the
      offset, one-based, clamped to the document. */
  function PageAtOffset(offset: real, extent: real, numPages: int): (r: int)
    requires extent > 0.0 && numPages >= 1
    ensures 1 <= r <= numPages
  {
    var pageIndex := (offset / extent).Floor + 1;
    Min(Max(1, pageIndex), numPages)
  }

  lemma ScaledLe(a: real, b: real, c: real)
    requires c > 0.0 && a * c <= b * c
    ensures a <= b
  {
  }

  lemma ScaledLt(a: real, b: real, c: real)
    requires c > 0.0 && a * c < b * c
    ensures a < b
  {
  }

  lemma DivisionBounds(offset: real, extent: real, lo: real, hi: real)
    requires extent > 0.0
    requires lo * extent <= offset < hi * extent
    ensures lo <= offset / extent < hi
  {
    var x := offset / extent;
    assert x * extent == offset;
    ScaledLe(lo, x, extent);
    ScaledLt(x, hi, extent);
  }

  /** Every offset inside row `p` reports page `p`, the start of the row
      included. (`scrollToItem(…, "center")` may leave the offset before the
      row's start, so a jump need not report its own page.) */
  lemma PageAtOffsetInsideRow(offset: real, extent: real, numPages: int, p: int)
    requires extent > 0.0 && 1 <= p <= numPages
    requires (p - 1) as real * extent <= offset < p as real * extent
    ensures PageAtOffset(offset, extent, numPages) == p
  {
    DivisionBounds(offset, extent, (p - 1) as real, p as real);
    var x := offset / extent;
    assert (p - 1) as real <= x < p as real;
    assert x.Floor == p - 1;
  }

  /** Scrolling further down never reports an earlier page. */
  lemma PageAtOffsetMonotone(offset1: real, offset2: real, extent: real, numPages: int)
    requires extent > 0.0 && numPages >= 1 && offset1 <= offset2
    ensures PageAtOffset(offset1, extent, numPages) <= PageAtOffset(offset2, extent, numPages)
  {
    var x1, x2 := offset1 / extent, offset2 / extent;
    assert x1 * extent == offset1 && x2 * extent == offset2;
    ScaledLe(x1, x2, extent);
    assert x1.Floor <= x2.Floor;
  }

  /** The "Zoom out" button. */
  function ZoomOut(scale: real): (r: real)
    ensures r >= MinScale
    ensures scale >= MinScale ==> r <= scale
    ensures scale - ZoomStep >= MinScale ==> r == scale - ZoomStep
  {
    if MinScale >= scale - ZoomStep then MinScale else scale - ZoomStep
  }

  /** The "Zoom in" button. */
  function ZoomIn(scale: real): (r: real)
    ensures r <= MaxScale
    ensures scale <= MaxScale ==> r >= scale
    ensures scale + ZoomStep <= MaxScale ==> r == scale + ZoomStep
  {
    if MaxScale <= scale + ZoomStep then MaxScale else scale + ZoomStep
  }

  /** Away from the bounds, zooming in undoes zooming out and vice versa; the
      scale range is closed under both buttons. */
  lemma ZoomSteps(scale: real)
    requires MinScale <= scale <= MaxScale
    ensures MinScale <= ZoomIn(scale) <= MaxScale && MinScale <= ZoomOut(scale) <= MaxScale
    ensures scale >= MinScale + ZoomStep ==> ZoomIn(ZoomOut(scale)) == scale
    ensures scale <= MaxScale - ZoomStep ==> ZoomOut(ZoomIn(scale)) == scale
  {
  }

  /** The "Rotate" button: `(r + 90) % 360`. */
  function NextRotation(rotation: int): (r: int)
    ensures -360 < r < 360
  {
    JsRem(rotation + 90, 360)
  }

  /** The four quarter turns are closed under rotation, and four steps come
      back to the start. */
  lemma RotationCycle(rotation: int)
    requires IsQuarterTurn(rotation)
    ensures IsQuarterTurn(NextRotation(rotation))
    ensures NextRotation(rotation) != rotation
    ensures NextRotation(NextRotation(NextRotation(NextRotation(rotation)))) == rotation
  {
  }

  /** Any non-negative angle, whatever the settings panel stored, falls into
      `[0, 360)` after one rotation step. */
  lemma RotationNormalises(rotation: int)
    requires rotation >= 0
    ensures 0 <= NextRotation(rotation) < 360
    ensures NextRotation(rotation) == (rotation + 90) % 360
  {
  }

  /** The list height left below the header: the header is 80 pixels high
      when the controls are shown, absent otherwise. */
  function ListHeight(clientHeight: int, showControls: bool): (r: int)
    ensures r <= clientHeight
    ensures r == clientHeight <==> !showControls
    ensures showControls ==> r + HeaderHeight == clientHeight
  {
    clientHeight - (if showControls then HeaderHeight else 0)
  }

  /** `bookmarks.filter((_, i) => i !== index)`, specified: exactly the entry
      at `index` goes, an index outside the list removes nothing. */
  function WithoutIndex(s: seq<Bookmark>, index: int): seq<Bookmark> {
    if 0 <= index < |s| then s[..index] + s[index + 1..] else s
  }

  /** Removal keeps every other entry, in its original order. */
  lemma WithoutIndexEntries(s: seq<Bookmark>, index: int)
    requires 0 <= index < |s|
    ensures |WithoutIndex(s, index)| == |s| - 1
    ensures forall k :: 0 <= k < index ==> WithoutIndex(s, index)[k] == s[k]
    ensures forall k :: index <= k < |s| - 1 ==> WithoutIndex(s, index)[k] == s[k + 1]
    ensures multiset(WithoutIndex(s, index)) + multiset{s[index]} == multiset(s)
  {
    assert s == s[..index] + [s[index]] + s[index + 1..];
  }

  /** The filter as the array method runs it: one pass, keeping every entry
      whose position differs from `index`. */
  method FilterOutIndex(s: seq<Bookmark>, index: int) returns (r: seq<Bookmark>)
    ensures r == WithoutIndex(s, index)
  {
    r := [];
    var i := 0;
    while i < |s|
      invariant 0 <= i <= |s|
      invariant r == WithoutIndex(s[..i], index)
    {
      if i != index {
        r := r + [s[i]];
      }
      assert s[..i + 1] == s[..i] + [s[i]];
      i := i + 1;
    }
    assert s[..|s|] == s;
  }

  /** Everything the page keeps between renders. */
  datatype ReaderState = ReaderState(
    currentPage: int, scale: real, rotation: int,
    bookmarks: seq<Bookmark>, storage: map<string, seq<Bookmark>>,
    showControls: bool, listHeight: int,
    documentLoaded: bool, numPages: int, dims: Option<PageDimensions>,
    loading: bool, scrolledTo: seq<int>)

  /** The page's state. `storage` is the browser's local storage (the value
      under a key is the parsed bookmark list); `documentLoaded` says whether
      the PDF engine delivered a document; `loading` is the engine's
      `isLoading`, during which the list is not mounted; `scrolledTo` records
      the row indices passed to `scrollToItem`. */
  class Reader {
    var currentPage: int
    var scale: real
    var rotation: int
    var bookmarks: seq<Bookmark>
    var storage: map<string, seq<Bookmark>>
    var showControls: bool
    var listHeight: int
    var documentLoaded: bool
    var numPages: int
    var dims: Option<PageDimensions>
    var loading: bool
    var scrolledTo: seq<int>

    ghost function State(): ReaderState
      reads this
    {
      ReaderState(currentPage, scale, rotation, bookmarks, storage, showControls, listHeight,
                  documentLoaded, numPages, dims, loading, scrolledTo)
    }

    /** The page's invariant: the page index stays positive, the zoom within
        the slider's range, the rotation a quarter turn, and local storage
        holds exactly the current bookmark list. */
    ghost predicate Valid()
      reads this
    {
      1 <= currentPage && MinScale <= scale <= MaxScale && IsQuarterTurn(rotation)
      && numPages >= 0 && PositiveDimensions(dims)
      && BookmarksKey in storage && storage[BookmarksKey] == bookmarks
    }

    /** Mounting: the saved bookmarks are loaded, then written back by the
        persisting effect, and the list height is measured with the
        controls shown. */
    constructor (saved: map<string, seq<Bookmark>>, clientHeight: int)
      ensures Valid()
      ensures bookmarks == (if BookmarksKey in saved then saved[BookmarksKey] else [])
      ensures storage == saved[BookmarksKey := bookmarks]
      ensures currentPage == 1 && scale == 1.0 && rotation == 0
      ensures showControls && listHeight == ListHeight(clientHeight, true)
      ensures !documentLoaded && numPages == 0 && dims == None && loading && scrolledTo == []
    {
      currentPage := 1;
      scale := 1.0;
      rotation := 0;
      showControls := true;
      listHeight := ListHeight(clientHeight, true);
      var loaded := if BookmarksKey in saved then saved[BookmarksKey] else [];
      bookmarks := loaded;
      storage := saved[BookmarksKey := loaded];
      documentLoaded := false;
      numPages := 0;
      dims := None;
      loading := true;
      scrolledTo := [];
    }

    /** The PDF engine delivered a document of `pages` pages whose first page
        measures `firstPage`; the list mounts. */
    method DocumentLoaded(pages: nat, firstPage: PageDimensions)
      requires Valid()
      requires firstPage.width > 0.0 && firstPage.height > 0.0
      modifies this
      ensures Valid()
      ensures State() == old(State()).(documentLoaded := true, numPages := pages,
                                       dims := if pages > 0 then Some(firstPage) else old(dims),
                                       loading := false)
    {
      documentLoaded := true;
      numPages := pages;
      if pages > 0 {
        dims := Some(firstPage);
      }
      loading := false;
    }

    /** Loading the document failed; the (empty) list mounts regardless. */
    method DocumentFailed()
      requires Valid()
      modifies this
      ensures Valid()
      ensures State() == old(State()).(loading := false)
    {
      loading := false;
    }

    /** `handleScroll`. */
    method OnScroll(scrollOffset: real)
      requires Valid()
      modifies this
      ensures Valid()
      ensures old(!documentLoaded || numPages == 0) ==> State() == old(State())
      ensures old(documentLoaded && numPages != 0) ==>
        State() == old(State()).(currentPage :=
          old(PageAtOffset(scrollOffset, ItemSize(dims, scale, rotation), numPages)))
      ensures old(documentLoaded && numPages != 0) ==> 1 <= currentPage <= numPages
    {
      if !documentLoaded || numPages == 0 {
        return;
      }
      var itemHeight := ItemSize(dims, scale, rotation);
      currentPage := PageAtOffset(scrollOffset, itemHeight, numPages);
    }

    /** `goToPage`: a page inside the document is centred and becomes
        current, provided the list is mounted; anything else is ignored, not
        clamped. */
    method GoToPage(page: int)
      requires Valid()
      modifies this
      ensures Valid()
      ensures old(1 <= page <= numPages && !loading) ==>
        State() == old(State()).(currentPage := page, scrolledTo := old(scrolledTo) + [page - 1])
      ensures !old(1 <= page <= numPages && !loading) ==> State() == old(State())
    {
      if page >= 1 && page <= numPages && !loading {
        scrolledTo := scrolledTo + [page - 1];
        currentPage := page;
      }
    }

    /** The "Previous page" arrow, which is disabled on the first page. */
    method PreviousPage()
      requires Valid()
      modifies this
      ensures Valid()
      ensures old(currentPage > 1 && currentPage - 1 <= numPages && !loading) ==>
        State() == old(State()).(currentPage := old(currentPage) - 1,
                                 scrolledTo := old(scrolledTo) + [old(currentPage) - 2])
      ensures !old(currentPage > 1 && currentPage - 1 <= numPages && !loading) ==> State() == old(State())
    {
      if currentPage > 1 {
        GoToPage(currentPage - 1);
      }
    }

    /** The "Next page" arrow, which is disabled on the last page. */
    method NextPage()
      requires Valid()
      modifies this
      ensures Valid()
      ensures old(currentPage < numPages && !loading) ==>
        State() == old(State()).(currentPage := old(currentPage) + 1,
                                 scrolledTo := old(scrolledTo) + [old(currentPage)])
      ensures !old(currentPage < numPages && !loading) ==> State() == old(State())
    {
      if currentPage < numPages {
        GoToPage(currentPage + 1);
      }
    }

    method ZoomOutClick()
      requires Valid()
      modifies this
      ensures Valid()
      ensures State() == old(State()).(scale := ZoomOut(old(scale)))
    {
      scale := ZoomOut(scale);
    }

    method ZoomInClick()
      requires Valid()
      modifies this
      ensures Valid()
      ensures State() == old(State()).(scale := ZoomIn(old(scale)))
    {
      scale := ZoomIn(scale);
      ZoomSteps(old(scale));
    }

    method RotateClick()
      requires Valid()
      modifies this
      ensures Valid()
      ensures State() == old(State()).(rotation := NextRotation(old(rotation)))
    {
      RotationCycle(rotation);
      rotation := NextRotation(rotation);
    }

    /** The settings panel's zoom slider, whose range is `[0.5, 3]`. */
    method SetScale(value: real)
      requires Valid()
      requires MinScale <= value <= MaxScale
      modifies this
      ensures Valid()
      ensures State() == old(State()).(scale := value)
    {
      scale := value;
    }

    /** The settings panel's rotation buttons, one per quarter turn. */
    method SetRotation(degrees: int)
      requires Valid()
      requires IsQuarterTurn(degrees)
      modifies this
      ensures Valid()
      ensures State() == old(State()).(rotation := degrees)
    {
      rotation := degrees;
    }

    /** `onRemoveBookmark(index)`; the persisting effect writes the new list
        to local storage. */
    method RemoveBookmark(index: int)
      requires Valid()
      modifies this
      ensures Valid()
      ensures State() == old(State()).(bookmarks := WithoutIndex(old(bookmarks), index),
                                       storage := old(storage)[BookmarksKey := WithoutIndex(old(bookmarks), index)])
    {
      var remaining := FilterOutIndex(bookmarks, index);
      bookmarks := remaining;
      storage := storage[BookmarksKey := remaining];
    }

    /** An outline entry clicked in the sidebar: its destination is resolved
        and handed to `goToPage`. */
    method OutlineClicked(dest: Dest, getPageIndex: Option<PageRef> -> Option<int>)
      requires Valid()
      modifies this
      ensures Valid()
      ensures var t := PdfSidebar.OutlineTarget(dest, old(documentLoaded), getPageIndex);
        if t.Some? && old(1 <= t.value <= numPages && !loading)
        then State() == old(State()).(currentPage := t.value, scrolledTo := old(scrolledTo) + [t.value - 1])
        else State() == old(State())
    {
      var target := PdfSidebar.OutlineTarget(dest, documentLoaded, getPageIndex);
      if target.Some? {
        GoToPage(target.value);
      }
    }

    /** A bookmark's title clicked in the sidebar. */
    method BookmarkClicked(index: int)
      requires Valid()
      requires 0 <= index < |bookmarks|
      modifies this
      ensures Valid()
      ensures var p := old(bookmarks[index].pageNumber);
        if old(1 <= p <= numPages && !loading)
        then State() == old(State()).(currentPage := p, scrolledTo := old(scrolledTo) + [p - 1])
        else State() == old(State())
    {
      var action := PdfSidebar.BookmarkClick(bookmarks, index);
      GoToPage(action.page);
    }

    /** The show/hide controls button; the height effect re-measures. */
    method ToggleControls(clientHeight: int)
      requires Valid()
      modifies this
      ensures Valid()
      ensures State() == old(State()).(showControls := !old(showControls),
                                       listHeight := ListHeight(clientHeight, !old(showControls)))
    {
      showControls := !showControls;
      listHeight := ListHeight(clientHeight, showControls);
    }

    /** A window resize re-measures the list height. */
    method Resized(clientHeight: int)
      requires Valid()
      modifies this
      ensures Valid()
      ensures State() == old(State()).(listHeight := ListHeight(clientHeight, old(showControls)))
    {
      listHeight := ListHeight(clientHeight, showControls);
    }
  }
}
