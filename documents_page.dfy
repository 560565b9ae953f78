/**
 * The student's document library (frontend/src/pages/Documents.js): the
 * list narrowed by a case-insensitive name search and a type filter, and the
 * icon and colour chosen from a file name's extension.
 */
module DocumentsPage {
  import opened Wrappers
  import opened Text
  import opened Lists
  import opened Uploads
  import opened FileKinds

  /** A library document: `name` as some records carry it, `fileName` as uploads carry it. */
  datatype LibraryDoc = LibraryDoc(id: string, name: Option<string>, fileName: Option<string>, processed: bool)

  /** The type filter: `all`, or names ending in `.pdf`, `.docx` or `.txt` in any case. */
  predicate TypeMatches(name: string, filterType: string) {
    || filterType == "all"
    || (filterType == "pdf" && EndsWith(Lower(name), ".pdf"))
    || (filterType == "docx" && EndsWith(Lower(name), ".docx"))
    || (filterType == "txt" && EndsWith(Lower(name), ".txt"))
  }

  /** A document is listed when it has a `name` that contains the search term and passes the type filter. */
  predicate Listed(doc: LibraryDoc, term: string, filterType: string) {
    Present(doc.name) && Includes(Lower(doc.name.value), Lower(term)) && TypeMatches(doc.name.value, filterType)
  }

  /** `filteredDocuments` */
  function FilteredDocuments(docs: seq<LibraryDoc>, term: string, filterType: string): (r: seq<LibraryDoc>)
    ensures |r| <= |docs|
    ensures forall i :: 0 <= i < |r| ==> Listed(r[i], term, filterType)
  {
    Filter(docs, d => Listed(d, term, filterType))
  }

  /**
   * The listed documents keep the library's order, and a document is listed
   * exactly when it is in the library and passes the name, search and type
   * tests; one without a `name` never is.
   */
  lemma FilteredDocumentsSelection(docs: seq<LibraryDoc>, term: string, filterType: string, d: LibraryDoc)
    ensures IsSubsequence(FilteredDocuments(docs, term, filterType), docs)
    ensures d in FilteredDocuments(docs, term, filterType) <==> d in docs && Listed(d, term, filterType)
    ensures !Present(d.name) ==> d !in FilteredDocuments(docs, term, filterType)
  {
    FilterIsSubsequence(docs, d' => Listed(d', term, filterType));
    FilterMembership(docs, d' => Listed(d', term, filterType), d);
  }

  /** `getFileIcon`: 📝 for docx, 📃 for txt, 📄 for pdf, anything else or no name. */
  function FileIcon(fileName: Option<string>): (g: Glyph)
    ensures g == Memo <==> Present(fileName) && Extension(fileName.value) == "docx"
    ensures g == PageCurl <==> Present(fileName) && Extension(fileName.value) == "txt"
    ensures g == Page <==> !Present(fileName) || Extension(fileName.value) !in {"docx", "txt"}
  {
    if !Present(fileName) then Page
    else match Extension(fileName.value)
      case "docx" => Memo
      case "txt" => PageCurl
      case _ => Page
  }

  /** `getFileColor`: red for pdf, blue for docx, grey for txt, green for anything else or no name. */
  function FileColor(fileName: Option<string>): (c: string)
    ensures c == "from-red-500 to-red-600" <==> Present(fileName) && Extension(fileName.value) == "pdf"
    ensures c == "from-blue-500 to-blue-600" <==> Present(fileName) && Extension(fileName.value) == "docx"
    ensures c == "from-gray-500 to-gray-600" <==> Present(fileName) && Extension(fileName.value) == "txt"
    ensures c == "from-green-500 to-emerald-600" <==> !Present(fileName) || Extension(fileName.value) !in {"pdf", "docx", "txt"}
  {
    if !Present(fileName) then "from-green-500 to-emerald-600"
    else match Extension(fileName.value)
      case "pdf" => "from-red-500 to-red-600"
      case "docx" => "from-blue-500 to-blue-600"
      case "txt" => "from-gray-500 to-gray-600"
      case _ => "from-green-500 to-emerald-600"
  }

  /**
   * A document the `pdf`, `docx` or `txt` filter lists has that extension,
   * so it is drawn with that type's icon and colour: the filter and the
   * styling read the same part of the name.
   */
  lemma FilteredTypeHasItsExtension(docs: seq<LibraryDoc>, term: string, ext: string, d: LibraryDoc)
    requires ext == "pdf" || ext == "docx" || ext == "txt"
    requires d in FilteredDocuments(docs, term, ext)
    ensures Present(d.name) && Extension(d.name.value) == ext
  {
    FilteredDocumentsSelection(docs, term, ext, d);
    var name := d.name.value;
    assert EndsWith(Lower(name), "." + ext);
    LowercaseExtension(ext);
    ExtensionOfSuffix(name, ext);
  }

  /** The three filterable extensions are already lowercase. */
  lemma LowercaseExtension(ext: string)
    requires ext == "pdf" || ext == "docx" || ext == "txt"
    ensures Lower(ext) == ext && '.' !in ext
  {
    if ext == "pdf" {
      assert Lower(ext) == [LowerChar('p'), LowerChar('d'), LowerChar('f')];
    } else if ext == "docx" {
      assert Lower(ext) == [LowerChar('d'), LowerChar('o'), LowerChar('c'), LowerChar('x')];
    } else {
      assert Lower(ext) == [LowerChar('t'), LowerChar('x'), LowerChar('t')];
    }
  }

  // ---------------------------------------------------------------------------
  // Uploaded documents and the name filter

  /** The record `onDrop` appends after an accepted upload: `{_id, fileName, processed}`, no `name`. */
  function UploadedDocument(file: File, receipt: Receipt): LibraryDoc {
    LibraryDoc(receipt.documentId, None, Some(file.name), receipt.processed)
  }

  /** As written, a document just uploaded is not listed, whatever the search and filter, until the list is reloaded. */
  lemma UploadedDocumentHidden(docs: seq<LibraryDoc>, file: File, receipt: Receipt, term: string, filterType: string)
    ensures UploadedDocument(file, receipt) !in FilteredDocuments(docs + [UploadedDocument(file, receipt)], term, filterType)
  {
    FilteredDocumentsSelection(docs + [UploadedDocument(file, receipt)], term, filterType, UploadedDocument(file, receipt));
  }

  /** The name the cards display: `doc.fileName || doc.name`. */
  function DisplayName(doc: LibraryDoc): (r: Option<string>)
    ensures Present(doc.fileName) ==> r == doc.fileName
    ensures !Present(doc.fileName) ==> r == doc.name
  {
    if Present(doc.fileName) then doc.fileName else doc.name
  }

  /** The filter applied to the name the cards display. */
  predicate ListedByDisplayName(doc: LibraryDoc, term: string, filterType: string) {
    Present(DisplayName(doc)) && Includes(Lower(DisplayName(doc).value), Lower(term))
    && TypeMatches(DisplayName(doc).value, filterType)
  }

  /** `filteredDocuments` over the displayed name. */
  function FilteredByDisplayName(docs: seq<LibraryDoc>, term: string, filterType: string): (r: seq<LibraryDoc>)
    ensures |r| <= |docs|
    ensures forall i :: 0 <= i < |r| ==> ListedByDisplayName(r[i], term, filterType)
  {
    Filter(docs, d => ListedByDisplayName(d, term, filterType))
  }

  /**
   * Filtering on the displayed name lists an uploaded document exactly when
   * its file name matches, and treats records without a `fileName` as before.
   */
  lemma UploadedDocumentShown(docs: seq<LibraryDoc>, file: File, receipt: Receipt, term: string, filterType: string, d: LibraryDoc)
    ensures var u := UploadedDocument(file, receipt);
            u in FilteredByDisplayName(docs + [u], term, filterType) <==>
              file.name != "" && Includes(Lower(file.name), Lower(term)) && TypeMatches(file.name, filterType)
    ensures !Present(d.fileName) ==> (ListedByDisplayName(d, term, filterType) <==> Listed(d, term, filterType))
  {
    var u := UploadedDocument(file, receipt);
    FilterMembership(docs + [u], d' => ListedByDisplayName(d', term, filterType), u);
  }
}
