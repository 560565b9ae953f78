/**
 * The upload loop of the chat page, the quiz generator and the study planner
 * (`onDrop`): files are posted one after the other; each accepted file adds a
 * document at the end of the list and selects it, a rejected one is skipped.
 */
module Uploads {
  import opened Wrappers
  import opened Selection

  /** A dropped file; only its name reaches the page state. */
  datatype File = File(name: string)

  /** What `POST /documents/upload` resolved with: `{documentId, processed}`. */
  datatype Receipt = Receipt(documentId: Id, processed: bool)

  /** A document as the pages list it: `{_id, fileName, processed}`. */
  datatype Document = Document(id: Id, fileName: string, processed: bool)

  /** The document an upload adds, if it was accepted. */
  function Added(file: File, result: Outcome<Receipt>): seq<Document> {
    match result
    case Resolved(receipt) => [Document(receipt.documentId, file.name, receipt.processed)]
    case Rejected(_) => []
  }

  /** The documents a run of uploads adds, in upload order. */
  function AddedAll(files: seq<File>, results: seq<Outcome<Receipt>>): (r: seq<Document>)
    requires |files| == |results|
    ensures |r| <= |files|
  {
    if files == [] then []
    else
      var n := |files| - 1;
      AddedAll(files[..n], results[..n]) + Added(files[n], results[n])
  }

  /** The ids of a list of documents, in order. */
  function Ids(docs: seq<Document>): (r: seq<Id>)
    ensures |r| == |docs|
    ensures forall i :: 0 <= i < |docs| ==> r[i] == docs[i].id
  {
    seq(|docs|, i requires 0 <= i < |docs| => docs[i].id)
  }

  /** The number of uploads that were accepted. */
  function Accepted(results: seq<Outcome<Receipt>>): nat {
    if results == [] then 0
    else Accepted(results[..|results| - 1]) + (if results[|results| - 1].Resolved? then 1 else 0)
  }

  /** Exactly one document is added per accepted upload, none per rejected one. */
  lemma {:induction false} AddedAllCount(files: seq<File>, results: seq<Outcome<Receipt>>)
    requires |files| == |results|
    ensures |AddedAll(files, results)| == Accepted(results)
  {
    if files != [] {
      var n := |files| - 1;
      AddedAllCount(files[..n], results[..n]);
    }
  }

  /** Every added document comes from an accepted upload, with that file's name and the server's id. */
  lemma {:induction false} AddedAllFromReceipts(files: seq<File>, results: seq<Outcome<Receipt>>, d: Document)
    requires |files| == |results|
    requires d in AddedAll(files, results)
    ensures exists i :: 0 <= i < |files| && results[i] == Resolved(Receipt(d.id, d.processed)) && files[i].name == d.fileName
  {
    var n := |files| - 1;
    if d in AddedAll(files[..n], results[..n]) {
      AddedAllFromReceipts(files[..n], results[..n], d);
      var i :| 0 <= i < n && results[..n][i] == Resolved(Receipt(d.id, d.processed)) && files[..n][i].name == d.fileName;
      assert results[i] == results[..n][i] && files[i] == files[..n][i];
    } else {
      assert d in Added(files[n], results[n]);
    }
  }

  /**
   * The loop of `onDrop`: returns the document list and the selection after
   * all uploads have settled.
   */
  method UploadAll(documents: seq<Document>, selected: seq<Id>, files: seq<File>, results: seq<Outcome<Receipt>>)
    returns (documents': seq<Document>, selected': seq<Id>)
    requires |files| == |results|
    ensures documents' == documents + AddedAll(files, results)
    ensures selected' == selected + Ids(AddedAll(files, results))
  {
    documents', selected' := documents, selected;
    for i := 0 to |files|
      invariant documents' == documents + AddedAll(files[..i], results[..i])
      invariant selected' == selected + Ids(AddedAll(files[..i], results[..i]))
    {
      ghost var before := AddedAll(files[..i], results[..i]);
      match results[i] {
        case Resolved(receipt) =>
          var doc := Document(receipt.documentId, files[i].name, receipt.processed);
          documents' := documents' + [doc];
          selected' := selected' + [doc.id];
        case Rejected(_) =>
      }
      assert files[..i + 1][..i] == files[..i] && results[..i + 1][..i] == results[..i];
      assert AddedAll(files[..i + 1], results[..i + 1]) == before + Added(files[i], results[i]);
      assert Ids(before + Added(files[i], results[i])) == Ids(before) + Ids(Added(files[i], results[i]));
    }
    assert files[..|files|] == files && results[..|results|] == results;
  }
}
