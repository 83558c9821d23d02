/** The records shared by the reader components (src/types/pdf.ts). */
module PdfTypes {

  /** A user-created marker on a page; `timestamp` is the creation time in
      milliseconds since the epoch. */
  datatype Bookmark = Bookmark(pageNumber: int, title: string, timestamp: int)

  /** An opaque reference to a page object inside an open document, as the
      PDF engine hands it out in explicit destinations. */
  datatype PageRef = PageRef(objectNumber: int, generation: int)

  /** The `dest` of an outline entry as the PDF engine delivers it at run
      time: absent or `null`, a page number, a named destination, or an
      explicit destination array whose first element designates the page. */
  datatype Dest =
    | NoDest
    | NumberDest(n: int)
    | NamedDest(name: string)
    | ArrayDest(items: seq<PageRef>)
}
