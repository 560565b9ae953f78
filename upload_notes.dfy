/**
 * The note uploader (frontend/src/pages/UploadNotes.js): each dropped file
 * is posted with its name stripped of the final extension, each accepted
 * file adds a note at the end of the list, the last outcome of each kind is
 * reported, notes can be deleted, and each note is styled by the extension
 * of its file name.
 */
module UploadNotesPage {
  import opened Wrappers
  import opened Text
  import opened Uploads
  import opened FormFields
  import opened FileKinds
  import DocumentsPage

  /** The fixed owner every upload is filed under. */
  const DemoUserId: string := "507f1f77bcf86cd799439011"

  // ---------------------------------------------------------------------------
  // The note name: `file.name.replace(/\.[^/.]+$/, "")`

  /** Position `k` starts a final extension: a dot followed by at least one character, none a `/` or `.`, up to the end. */
  predicate ExtensionAt(s: string, k: int) {
    0 <= k < |s| - 1 && s[k] == '.' && forall j :: k < j < |s| ==> s[j] != '.' && s[j] != '/'
  }

  /** The regex removes the final extension when there is one, and otherwise leaves the name as it is. */
  function StripExtension(s: string): (r: string)
    ensures forall k :: ExtensionAt(s, k) ==> r == s[..k]
    ensures (forall k :: !ExtensionAt(s, k)) ==> r == s
    ensures |r| <= |s| && r == s[..|r|]
  {
    match LastIndexOf(s, '.')
    case None => s
    case Some(k) =>
      if k + 1 < |s| && forall j :: k < j < |s| ==> s[j] != '/' then
        assert ExtensionAt(s, k);
        s[..k]
      else
        assert forall k' :: !ExtensionAt(s, k');
        s
  }

  /** At most one position can start a final extension: it is the last dot. */
  lemma ExtensionAtUnique(s: string, k1: int, k2: int)
    requires ExtensionAt(s, k1) && ExtensionAt(s, k2)
    ensures k1 == k2
  {
  }

  /** `base.ext`, with an extension free of `.` and `/`, loses exactly `.ext`. */
  lemma StripExtensionOf(base: string, ext: string)
    requires ext != [] && '.' !in ext && '/' !in ext
    ensures StripExtension(base + "." + ext) == base
  {
    var s := base + "." + ext;
    assert ExtensionAt(s, |base|) by {
      forall j | |base| < j < |s| ensures s[j] != '.' && s[j] != '/' {
        assert s[j] == ext[j - |base| - 1];
      }
    }
    assert s[..|base|] == base;
  }

  /** A name with no dot, ending in a dot, or with a `/` after its last dot keeps its name. */
  lemma StripExtensionKeeps(s: string)
    requires '.' !in s || s[|s| - 1] == '.' || exists j :: 0 <= j < |s| && s[j] == '/' && forall i :: j < i < |s| ==> s[i] != '.'
    ensures StripExtension(s) == s
  {
    if '.' in s && s[|s| - 1] != '.' {
      var j :| 0 <= j < |s| && s[j] == '/' && forall i :: j < i < |s| ==> s[i] != '.';
      assert forall k :: !ExtensionAt(s, k);
    }
  }

  // ---------------------------------------------------------------------------
  // Icons and colours

  predicate IsImage(ext: string) {
    ext == "jpg" || ext == "jpeg" || ext == "png"
  }

  /**
   * `getFileIcon(note.fileName)`: as on the documents page, plus 🖼️ for
   * jpg, jpeg and png. There is no guard for a missing name:
   * `undefined.toLowerCase()` throws.
   */
  function NoteIcon(fileName: Option<string>): (r: Outcome<Glyph>)
    ensures fileName.None? <==> r == Rejected("TypeError")
    ensures fileName.Some? && IsImage(Extension(fileName.value)) <==> r == Resolved(Picture)
    ensures fileName.Some? ==> (r == Resolved(Memo) <==> Extension(fileName.value) == "docx")
    ensures fileName.Some? ==> (r == Resolved(PageCurl) <==> Extension(fileName.value) == "txt")
  {
    match fileName
    case None => Rejected("TypeError")
    case Some(name) =>
      match Extension(name)
      case "docx" => Resolved(Memo)
      case "txt" => Resolved(PageCurl)
      case "jpg" => Resolved(Picture)
      case "jpeg" => Resolved(Picture)
      case "png" => Resolved(Picture)
      case _ => Resolved(Page)
  }

  /** The colour `getFileColor` picks for a lowercased extension. */
  function ExtensionColor(ext: string): (r: string)
    ensures IsImage(ext) <==> r == "from-purple-500 to-purple-600"
    ensures r == "from-red-500 to-red-600" <==> ext == "pdf"
  {
    match ext
    case "pdf" => "from-red-500 to-red-600"
    case "docx" => "from-blue-500 to-blue-600"
    case "txt" => "from-gray-500 to-gray-600"
    case "jpg" => "from-purple-500 to-purple-600"
    case "jpeg" => "from-purple-500 to-purple-600"
    case "png" => "from-purple-500 to-purple-600"
    case _ => "from-green-500 to-emerald-600"
  }

  /** `getFileColor(note.fileName)`: purple for images, otherwise as on the documents page; a missing name throws. */
  function NoteColor(fileName: Option<string>): (r: Outcome<string>)
    ensures fileName.None? <==> r == Rejected("TypeError")
    ensures fileName.Some? && IsImage(Extension(fileName.value)) <==> r == Resolved("from-purple-500 to-purple-600")
    ensures fileName.Some? ==> (r == Resolved("from-red-500 to-red-600") <==> Extension(fileName.value) == "pdf")
  {
    match fileName
    case None => Rejected("TypeError")
    case Some(name) => Resolved(ExtensionColor(Extension(name)))
  }

  /** For a non-empty name that is not an image, notes are styled exactly as library documents are. */
  lemma NoteStyleMatchesDocuments(fileName: string)
    requires fileName != "" && !IsImage(Extension(fileName))
    ensures NoteIcon(Some(fileName)) == Resolved(DocumentsPage.FileIcon(Some(fileName)))
    ensures NoteColor(Some(fileName)) == Resolved(DocumentsPage.FileColor(Some(fileName)))
  {
  }

  /** Image names of any case share one icon and one colour. */
  lemma ImagesShareStyle(base: string, ext: string)
    requires '.' !in ext && IsImage(Lower(ext))
    ensures NoteIcon(Some(base + "." + ext)) == Resolved(Picture)
    ensures NoteColor(Some(base + "." + ext)) == Resolved("from-purple-500 to-purple-600")
  {
    ExtensionOfName(base, ext);
  }

  // ---------------------------------------------------------------------------
  // Uploads

  /** What `POST /notes/upload` resolved with: `{noteId, name}`. */
  datatype NoteReceipt = NoteReceipt(noteId: string, name: string)

  /** A listed note: `{id, name, fileName}`. */
  datatype Note = Note(id: string, name: string, fileName: string)

  /** The multipart body of one upload: the file, the owner, and the name without its extension. */
  function UploadBody(file: File): seq<Part> {
    [FilePart("note", file), Field("userId", DemoUserId), Field("name", StripExtension(file.name))]
  }

  /** The bodies of a run of uploads: every file is posted, in order, accepted or not. */
  function UploadBodies(files: seq<File>): (r: seq<seq<Part>>)
    ensures |r| == |files| && forall i :: 0 <= i < |files| ==> r[i] == UploadBody(files[i])
  {
    seq(|files|, i requires 0 <= i < |files| => UploadBody(files[i]))
  }

  /** `Successfully uploaded {name}` */
  function SuccessMessage(file: File): string {
    "Successfully uploaded " + file.name
  }

  /** `Upload failed for {name}: {error}` */
  function FailureMessage(file: File, reason: string): string {
    "Upload failed for " + file.name + ": " + reason
  }

  /** The notes a run of uploads adds, one per accepted file, in upload order. */
  function AddedNotes(files: seq<File>, results: seq<Outcome<NoteReceipt>>): (r: seq<Note>)
    requires |files| == |results|
    ensures |r| <= |files|
  {
    if files == [] then []
    else
      var k := |files| - 1;
      var prefix := AddedNotes(files[..k], results[..k]);
      match results[k]
      case Resolved(receipt) => prefix + [Note(receipt.noteId, receipt.name, files[k].name)]
      case Rejected(_) => prefix
  }

  /** `Successfully uploaded {name}` for the last accepted file, if any. */
  function LastSuccess(files: seq<File>, results: seq<Outcome<NoteReceipt>>): Option<string>
    requires |files| == |results|
  {
    if files == [] then None
    else
      var k := |files| - 1;
      if results[k].Resolved? then Some(SuccessMessage(files[k]))
      else LastSuccess(files[..k], results[..k])
  }

  /** `Upload failed for {name}: {reason}` for the last rejected file, if any. */
  function LastFailure(files: seq<File>, results: seq<Outcome<NoteReceipt>>): Option<string>
    requires |files| == |results|
  {
    if files == [] then None
    else
      var k := |files| - 1;
      if results[k].Rejected? then Some(FailureMessage(files[k], results[k].reason))
      else LastFailure(files[..k], results[..k])
  }

  /** Every added note comes from an accepted upload: the server's id and name, the dropped file's name. */
  lemma {:induction false} AddedNotesFromReceipts(files: seq<File>, results: seq<Outcome<NoteReceipt>>, n: Note)
    requires |files| == |results|
    requires n in AddedNotes(files, results)
    ensures exists i :: 0 <= i < |files| && results[i].Resolved?
                        && n == Note(results[i].value.noteId, results[i].value.name, files[i].name)
  {
    var k := |files| - 1;
    if n !in AddedNotes(files[..k], results[..k]) {
      assert n == Note(results[k].value.noteId, results[k].value.name, files[k].name);
    } else {
      AddedNotesFromReceipts(files[..k], results[..k], n);
      var i :| 0 <= i < k && results[..k][i].Resolved?
               && n == Note(results[..k][i].value.noteId, results[..k][i].value.name, files[..k][i].name);
      assert results[..k][i] == results[i] && files[..k][i] == files[i];
    }
  }

  /**
   * The success message names the last accepted file, and there is none
   * exactly when every upload failed.
   */
  lemma {:induction false} LastSuccessIsLastAccepted(files: seq<File>, results: seq<Outcome<NoteReceipt>>)
    requires |files| == |results|
    ensures LastSuccess(files, results).None? <==> forall i :: 0 <= i < |results| ==> results[i].Rejected?
    ensures LastSuccess(files, results).Some? ==>
              exists i :: 0 <= i < |results| && results[i].Resolved?
                          && LastSuccess(files, results).value == SuccessMessage(files[i])
                          && forall j :: i < j < |results| ==> results[j].Rejected?
  {
    if files == [] { return; }
    var k := |files| - 1;
    var f, r := files[..k], results[..k];
    if results[k].Resolved? {
      assert LastSuccess(files, results) == Some(SuccessMessage(files[k]));
    } else {
      LastSuccessIsLastAccepted(f, r);
      assert LastSuccess(files, results) == LastSuccess(f, r);
      if LastSuccess(f, r).Some? {
        var i :| 0 <= i < k && r[i].Resolved? && LastSuccess(f, r).value == SuccessMessage(f[i])
                 && forall j :: i < j < k ==> r[j].Rejected?;
        assert r[i] == results[i] && f[i] == files[i];
        forall j | i < j < |results| ensures results[j].Rejected? {
          if j < k { assert r[j] == results[j]; }
        }
      } else {
        forall i | 0 <= i < |results| ensures results[i].Rejected? {
          if i < k { assert r[i] == results[i]; }
        }
      }
    }
  }

  /**
   * The error message names the last failed file and its reason, and there
   * is none exactly when every upload was accepted.
   */
  lemma {:induction false} LastFailureIsLastRejected(files: seq<File>, results: seq<Outcome<NoteReceipt>>)
    requires |files| == |results|
    ensures LastFailure(files, results).None? <==> forall i :: 0 <= i < |results| ==> results[i].Resolved?
    ensures LastFailure(files, results).Some? ==>
              exists i :: 0 <= i < |results| && results[i].Rejected?
                          && LastFailure(files, results).value == FailureMessage(files[i], results[i].reason)
                          && forall j :: i < j < |results| ==> results[j].Resolved?
  {
    if files == [] { return; }
    var k := |files| - 1;
    var f, r := files[..k], results[..k];
    if results[k].Rejected? {
      assert LastFailure(files, results) == Some(FailureMessage(files[k], results[k].reason));
    } else {
      LastFailureIsLastRejected(f, r);
      assert LastFailure(files, results) == LastFailure(f, r);
      if LastFailure(f, r).Some? {
        var i :| 0 <= i < k && r[i].Rejected? && LastFailure(f, r).value == FailureMessage(f[i], r[i].reason)
                 && forall j :: i < j < k ==> r[j].Resolved?;
        assert r[i] == results[i] && f[i] == files[i];
        forall j | i < j < |results| ensures results[j].Resolved? {
          if j < k { assert r[j] == results[j]; }
        }
      } else {
        forall i | 0 <= i < |results| ensures results[i].Resolved? {
          if i < k { assert r[i] == results[i]; }
        }
      }
    }
  }

  /** The accepted uploads: one added note each. */
  function AcceptedCount(results: seq<Outcome<NoteReceipt>>): nat {
    if results == [] then 0
    else AcceptedCount(results[..|results| - 1]) + (if results[|results| - 1].Resolved? then 1 else 0)
  }

  lemma {:induction false} AddedNotesCount(files: seq<File>, results: seq<Outcome<NoteReceipt>>)
    requires |files| == |results|
    ensures |AddedNotes(files, results)| == AcceptedCount(results)
  {
    if files != [] {
      AddedNotesCount(files[..|files| - 1], results[..|results| - 1]);
    }
  }

  /** Notes the list keeps and removes: `notes.filter(note => note.id !== noteId)`. */
  function WithoutNote(notes: seq<Note>, noteId: string): (r: seq<Note>)
    ensures |r| <= |notes| && forall i :: 0 <= i < |r| ==> r[i].id != noteId
  {
    Lists.Filter(notes, (n: Note) => n.id != noteId)
  }

  /**
   * Deleting keeps exactly the notes with another id, in their order, and
   * deleting an id not listed changes nothing.
   */
  lemma WithoutNoteKeepsOrder(notes: seq<Note>, noteId: string)
    ensures forall n :: n in WithoutNote(notes, noteId) <==> n in notes && n.id != noteId
    ensures Lists.IsSubsequence(WithoutNote(notes, noteId), notes)
    ensures (forall n :: n in notes ==> n.id != noteId) ==> WithoutNote(notes, noteId) == notes
  {
    var p := (n: Note) => n.id != noteId;
    assert WithoutNote(notes, noteId) == Lists.Filter(notes, p);
    forall n: Note ensures n in WithoutNote(notes, noteId) <==> n in notes && n.id != noteId {
      Lists.FilterMembership(notes, p, n);
    }
    Lists.FilterIsSubsequence(notes, p);
    if forall n :: n in notes ==> n.id != noteId {
      Lists.FilterKeepsAll(notes, p);
    }
  }

  /** One more settled upload extends the added notes and replaces the message of its kind. */
  lemma UploadStep(files: seq<File>, results: seq<Outcome<NoteReceipt>>, i: nat)
    requires |files| == |results| && i < |files|
    ensures var f, r := files[..i + 1], results[..i + 1];
            && UploadBodies(f) == UploadBodies(files[..i]) + [UploadBody(files[i])]
            && AddedNotes(f, r) == AddedNotes(files[..i], results[..i])
                 + (if results[i].Resolved? then [Note(results[i].value.noteId, results[i].value.name, files[i].name)] else [])
            && LastSuccess(f, r) == (if results[i].Resolved? then Some(SuccessMessage(files[i]))
                                     else LastSuccess(files[..i], results[..i]))
            && LastFailure(f, r) == (if results[i].Rejected? then Some(FailureMessage(files[i], results[i].reason))
                                     else LastFailure(files[..i], results[..i]))
  {
    assert files[..i + 1][..i] == files[..i] && results[..i + 1][..i] == results[..i];
  }

  class UploadNotesPage {
    var notes: seq<Note>
    var uploading: bool
    var error: Option<string>
    var success: Option<string>

    constructor ()
      ensures notes == [] && !uploading && error == None && success == None
    {
      notes, uploading, error, success := [], false, None, None;
    }

    /**
     * `onDrop`: the messages are cleared, every file is posted in turn
     * (`results[i]` is what its request came to), each accepted file appends
     * one note, and each outcome overwrites the message of its kind.
     */
    method OnDrop(files: seq<File>, results: seq<Outcome<NoteReceipt>>) returns (bodies: seq<seq<Part>>)
      requires |files| == |results|
      modifies this`notes, this`uploading, this`error, this`success
      ensures bodies == UploadBodies(files)
      ensures notes == old(notes) + AddedNotes(files, results)
      ensures success == LastSuccess(files, results) && error == LastFailure(files, results)
      ensures !uploading
    {
      uploading, error, success := true, None, None;
      bodies := [];
      var i := 0;
      while i < |files|
        invariant 0 <= i <= |files|
        invariant bodies == UploadBodies(files[..i])
        invariant notes == old(notes) + AddedNotes(files[..i], results[..i])
        invariant success == LastSuccess(files[..i], results[..i])
        invariant error == LastFailure(files[..i], results[..i])
      {
        bodies := bodies + [UploadBody(files[i])];
        UploadStep(files, results, i);
        Record(files[i], results[i]);
        i := i + 1;
      }
      assert files[..i] == files && results[..i] == results;
      uploading := false;
    }

    /** The effect of one settled upload on the list and the messages. */
    method Record(file: File, result: Outcome<NoteReceipt>)
      modifies this`notes, this`error, this`success
      ensures result.Resolved? ==> notes == old(notes) + [Note(result.value.noteId, result.value.name, file.name)]
                                   && success == Some(SuccessMessage(file)) && error == old(error)
      ensures result.Rejected? ==> notes == old(notes) && success == old(success)
                                   && error == Some(FailureMessage(file, result.reason))
    {
      match result
      case Resolved(receipt) =>
        notes := notes + [Note(receipt.noteId, receipt.name, file.name)];
        success := Some(SuccessMessage(file));
      case Rejected(reason) =>
        error := Some(FailureMessage(file, reason));
    }

    /** `deleteNote(noteId)`: on success every note with that id goes; on failure only the error is set. */
    method DeleteNote(noteId: string, response: Outcome<bool>)
      modifies this`notes, this`error, this`success
      ensures response.Resolved? ==> notes == WithoutNote(old(notes), noteId) && success == Some("Note deleted successfully")
                                     && error == old(error)
      ensures response.Rejected? ==> notes == old(notes) && error == Some("Failed to delete note") && success == old(success)
    {
      if response.Resolved? {
        notes := WithoutNote(notes, noteId);
        success := Some("Note deleted successfully");
      } else {
        error := Some("Failed to delete note");
      }
    }
  }
}
