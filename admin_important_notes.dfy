/**
 * The important-notes editor (frontend/src/pages/AdminImportantNotes.js): a
 * title, message, semester and priority, with an optional attached file,
 * sent as a multipart body as a new note or over the note being edited.
 */
module AdminImportantNotes {
  import opened Wrappers
  import opened FormFields
  import opened Uploads
  import opened AdminRequests

  const Required: seq<string> := ["title", "message", "semester"]

  /** `{ priority: 'medium' }`: the form before anything is typed, after a save and after a reset. */
  const DefaultForm: Form := [Entry("priority", Str("medium"))]

  /** A stored important note as the editor lists it. */
  datatype ImportantNote = ImportantNote(id: string, title: string, message: string, semester: string, priority: string)

  /** The form `handleEdit` loads from a stored note. */
  function EditForm(n: ImportantNote): Form {
    [Entry("title", Str(n.title)), Entry("message", Str(n.message)),
     Entry("semester", Str(n.semester)), Entry("priority", Str(n.priority))]
  }

  /** The default form has priority `medium` and cannot be sent until the other fields are filled. */
  lemma DefaultFormFields()
    ensures Get(DefaultForm, "priority") == Some(Str("medium"))
    ensures UniqueKeys(DefaultForm)
    ensures !AllFilled(DefaultForm, Required)
  {
    assert Keys(DefaultForm) == ["priority"];
    assert Get(DefaultForm, "title") == Get([], "title");
    assert Missing(DefaultForm, Required[0]);
  }

  /** Editing a note loads its four fields, each once under its own name. */
  lemma EditFormFields(n: ImportantNote)
    ensures Get(EditForm(n), "title") == Some(Str(n.title))
    ensures Get(EditForm(n), "message") == Some(Str(n.message))
    ensures Get(EditForm(n), "semester") == Some(Str(n.semester))
    ensures Get(EditForm(n), "priority") == Some(Str(n.priority))
    ensures UniqueKeys(EditForm(n))
  {
    var f := EditForm(n);
    assert f[1..][1..][1..][1..] == [];
    assert Keys(f) == ["title", "message", "semester", "priority"];
    UniqueKeyLookup(f, 0);
    UniqueKeyLookup(f, 1);
    UniqueKeyLookup(f, 2);
    UniqueKeyLookup(f, 3);
  }

  /** A note loaded for editing can be sent exactly when its title, message and semester are non-empty. */
  lemma EditFormSendable(n: ImportantNote)
    ensures AllFilled(EditForm(n), Required) <==> n.title != "" && n.message != "" && n.semester != ""
  {
    EditFormFields(n);
    AllFilledThree(EditForm(n), "title", "message", "semester");
  }

  class AdminImportantNotesPage {
    var formData: Form
    var file: Option<File>
    var editingId: Option<string>

    /** The form is an object: no key twice. */
    predicate Valid()
      reads this
    {
      UniqueKeys(formData)
    }

    constructor ()
      ensures Valid()
      ensures formData == DefaultForm && file == None && editingId == None
    {
      formData, file, editingId := DefaultForm, None, None;
      DefaultFormFields();
    }

    /** An input's `onChange`: `setFormData({ ...formData, key: value })`. */
    method SetField(key: string, value: string)
      requires Valid()
      modifies this`formData
      ensures Valid()
      ensures formData == Set(old(formData), key, Str(value))
    {
      SetKeepsUniqueKeys(formData, key, Str(value));
      formData := Set(formData, key, Str(value));
    }

    /** The file input's `onChange`: `setFile(files[0])`, nothing when the picker is cancelled. */
    method SetFile(chosen: Option<File>)
      modifies this`file
      ensures file == chosen
    {
      file := chosen;
    }

    /** `resetForm` */
    method ResetForm()
      modifies this`formData, this`file, this`editingId
      ensures Valid()
      ensures formData == DefaultForm && file == None && editingId == None
    {
      formData, file, editingId := DefaultForm, None, None;
      DefaultFormFields();
    }

    /** `handleEdit(note)`: its four fields are loaded and its id is being edited. */
    method HandleEdit(n: ImportantNote)
      modifies this`formData, this`editingId
      ensures Valid()
      ensures formData == EditForm(n) && editingId == Some(n.id)
    {
      formData := EditForm(n);
      editingId := Some(n.id);
      EditFormFields(n);
    }

    /**
     * `handleSubmit`: nothing is sent while the title, message or semester
     * is missing. Otherwise every form key, and then the file when one is
     * chosen, goes by PUT to `important-notes/{editingId}` or by POST to
     * `important-notes`; an ok response restores the default form and clears
     * file and edited id, anything else changes nothing.
     */
    method HandleSubmit(token: Option<string>, response: Outcome<bool>) returns (request: Option<Request<seq<Part>>>)
      requires Valid()
      modifies this`formData, this`file, this`editingId
      ensures Valid()
      ensures request.None? <==> !AllFilled(old(formData), Required)
      ensures request.Some? ==>
                request.value == Request(SaveTarget("important-notes", old(editingId)), AuthorizationHeader(token),
                                         Body(old(formData), "file", old(file)))
      ensures request.Some? && response == Resolved(true) ==>
                formData == DefaultForm && file == None && editingId == None
      ensures request.None? || response != Resolved(true) ==>
                formData == old(formData) && file == old(file) && editingId == old(editingId)
    {
      AllFilledThree(formData, "title", "message", "semester");
      if Missing(formData, "title") || Missing(formData, "message") || Missing(formData, "semester") {
        return None;
      }
      var body := BuildFormData(formData, "file", file);
      request := Some(Request(SaveTarget("important-notes", editingId), AuthorizationHeader(token), body));
      if response == Resolved(true) {
        ResetForm();
      }
    }
  }
}
