/**
 * The timetable editor (frontend/src/pages/AdminTimetable.js). In upload
 * mode a title, description, semester and an image are posted as a
 * multipart body, as a new timetable or over the one being edited; in create
 * mode a 7-day by 8-slot grid of class names is filled in cell by cell and
 * posted as JSON.
 */
module AdminTimetable {
  import opened Wrappers
  import opened FormFields
  import opened Uploads
  import opened AdminRequests

  /** Monday to Sunday. */
  const Days: nat := 7
  /** The eight hourly slots from 9:00 to 5:00. */
  const Slots: nat := 8

  const Required: seq<string> := ["title", "description", "semester"]

  /** `createMode`: 'upload' or 'create'. */
  datatype CreateMode = UploadMode | CreateMode

  /** A grid as rows of cells, for stating what the array holds. */
  type Grid = seq<seq<string>>

  /** A grid of the editor's shape: 7 rows of 8 cells. */
  predicate WellShaped(g: Grid) {
    |g| == Days && forall d :: 0 <= d < |g| ==> |g[d]| == Slots
  }

  /** `Array(7).fill().map(() => Array(8).fill(''))` */
  function EmptyGrid(): (g: Grid)
    ensures WellShaped(g)
    ensures forall d, t :: 0 <= d < Days && 0 <= t < Slots ==> g[d][t] == ""
  {
    seq(Days, _ => seq(Slots, _ => ""))
  }

  /** The grid with cell `[d][t]` set to `v`. */
  function UpdatedGrid(g: Grid, d: nat, t: nat, v: string): (r: Grid)
    requires WellShaped(g) && d < Days && t < Slots
    ensures WellShaped(r)
    ensures r[d][t] == v
    ensures forall i, j :: 0 <= i < Days && 0 <= j < Slots && (i, j) != (d, t) ==> r[i][j] == g[i][j]
  {
    g[d := g[d][t := v]]
  }

  /** The last write to a cell wins. */
  lemma LastWriteWins(g: Grid, d: nat, t: nat, v: string, w: string)
    requires WellShaped(g) && d < Days && t < Slots
    ensures UpdatedGrid(UpdatedGrid(g, d, t, v), d, t, w) == UpdatedGrid(g, d, t, w)
  {
    var a := UpdatedGrid(UpdatedGrid(g, d, t, v), d, t, w);
    var b := UpdatedGrid(g, d, t, w);
    assert forall i :: 0 <= i < Days ==> a[i] == b[i];
  }

  /** Writes to two different cells can be made in either order. */
  lemma DistinctWritesCommute(g: Grid, d1: nat, t1: nat, v1: string, d2: nat, t2: nat, v2: string)
    requires WellShaped(g) && d1 < Days && t1 < Slots && d2 < Days && t2 < Slots
    requires (d1, t1) != (d2, t2)
    ensures UpdatedGrid(UpdatedGrid(g, d1, t1, v1), d2, t2, v2) == UpdatedGrid(UpdatedGrid(g, d2, t2, v2), d1, t1, v1)
  {
    var a := UpdatedGrid(UpdatedGrid(g, d1, t1, v1), d2, t2, v2);
    var b := UpdatedGrid(UpdatedGrid(g, d2, t2, v2), d1, t1, v1);
    forall i | 0 <= i < Days ensures a[i] == b[i] {
      assert |a[i]| == |b[i]| == Slots;
    }
  }

  /** The JSON body of `timetable/create`: the draft and its grid. */
  datatype Draft = Draft(title: string, description: string, semester: string, schedule: Grid)

  /** What a submit sends: the created grid as JSON, or the multipart upload. */
  datatype TimetableRequest =
    | CreateRequest(create: Request<Draft>)
    | UploadRequest(upload: Request<seq<Part>>)

  /** A stored timetable as the editor lists it. */
  datatype Timetable = Timetable(id: string, title: string, description: string, semester: string)

  /** The form `handleEdit` loads from a stored timetable. */
  function EditForm(t: Timetable): Form {
    [Entry("title", Str(t.title)), Entry("description", Str(t.description)), Entry("semester", Str(t.semester))]
  }

  /** Editing a timetable loads its three fields, each once under its own name. */
  lemma EditFormFields(t: Timetable)
    ensures Get(EditForm(t), "title") == Some(Str(t.title))
    ensures Get(EditForm(t), "description") == Some(Str(t.description))
    ensures Get(EditForm(t), "semester") == Some(Str(t.semester))
    ensures UniqueKeys(EditForm(t))
    ensures AllFilled(EditForm(t), Required) <==> t.title != "" && t.description != "" && t.semester != ""
  {
    var f := EditForm(t);
    assert f[1..][1..][1..] == [];
    assert Keys(f) == ["title", "description", "semester"];
    UniqueKeyLookup(f, 0);
    UniqueKeyLookup(f, 1);
    UniqueKeyLookup(f, 2);
    AllFilledThree(f, "title", "description", "semester");
  }

  class AdminTimetablePage {
    var formData: Form
    var file: Option<File>
    var editingId: Option<string>
    var mode: CreateMode
    var title: string
    var description: string
    var semester: string
    var schedule: array2<string>

    /** The grid has the editor's 7 by 8 shape, and the form is an object: no key twice. */
    predicate Valid()
      reads this
    {
      schedule.Length0 == Days && schedule.Length1 == Slots && UniqueKeys(formData)
    }

    /** The grid's contents, row by row. */
    function Schedule(): (g: Grid)
      requires Valid()
      reads this, schedule
      ensures WellShaped(g)
      ensures forall d, t :: 0 <= d < Days && 0 <= t < Slots ==> g[d][t] == schedule[d, t]
    {
      var a := schedule;
      seq(Days, d requires 0 <= d < a.Length0 reads a =>
        seq(Slots, t requires 0 <= t < a.Length1 reads a => a[d, t]))
    }

    /** Upload mode, an empty form, no file, nothing being edited and an empty draft grid. */
    constructor ()
      ensures Valid() && fresh(schedule)
      ensures formData == [] && file == None && editingId == None && mode == UploadMode
      ensures title == "" && description == "" && semester == "" && Schedule() == EmptyGrid()
    {
      formData, file, editingId, mode := [], None, None, UploadMode;
      title, description, semester := "", "", "";
      schedule := new string[Days, Slots]((_, _) => "");
      new;
      assert UniqueKeys([]);
      assert Schedule() == EmptyGrid() by {
        forall d | 0 <= d < Days ensures Schedule()[d] == EmptyGrid()[d] {
        }
      }
    }

    /**
     * `updateSchedule(d, t, v)`: cell `[d][t]` of the grid now holds `v`;
     * the grid keeps its shape and every other cell.
     */
    method UpdateSchedule(d: nat, t: nat, v: string)
      requires Valid() && d < Days && t < Slots
      modifies schedule
      ensures Valid()
      ensures Schedule() == UpdatedGrid(old(Schedule()), d, t, v)
    {
      schedule[d, t] := v;
      ghost var g := UpdatedGrid(old(Schedule()), d, t, v);
      assert Schedule() == g by {
        forall i | 0 <= i < Days ensures Schedule()[i] == g[i] {
        }
      }
    }

    /** An upload-form input's `onChange`: `setFormData({ ...formData, key: value })`. */
    method SetField(key: string, value: string)
      requires Valid()
      modifies this`formData
      ensures Valid()
      ensures formData == Set(old(formData), key, Str(value))
    {
      SetKeepsUniqueKeys(formData, key, Str(value));
      formData := Set(formData, key, Str(value));
    }

    /** Empties the draft and replaces its grid by a fresh empty one. */
    method ClearDraft()
      requires UniqueKeys(formData)
      modifies this`title, this`description, this`semester, this`schedule
      ensures Valid() && fresh(schedule)
      ensures title == "" && description == "" && semester == "" && Schedule() == EmptyGrid()
    {
      title, description, semester := "", "", "";
      schedule := new string[Days, Slots]((_, _) => "");
      assert Schedule() == EmptyGrid() by {
        forall d | 0 <= d < Days ensures Schedule()[d] == EmptyGrid()[d] {
        }
      }
    }

    /** The mode select's `onChange`: `setCreateMode(value)`; nothing else changes. */
    method SetMode(m: CreateMode)
      modifies this`mode
      ensures mode == m
    {
      mode := m;
    }

    /** The image input's `onChange`: `setFile(files[0])`, nothing when the picker is cancelled. */
    method SetFile(chosen: Option<File>)
      modifies this`file
      ensures file == chosen
    {
      file := chosen;
    }

    /** The draft's title input: `setTimetableData({ ...timetableData, title })`; the grid is kept. */
    method SetDraftTitle(value: string)
      modifies this`title
      ensures title == value && description == old(description) && semester == old(semester)
    {
      title := value;
    }

    /** The draft's description input; title, semester and grid are kept. */
    method SetDraftDescription(value: string)
      modifies this`description
      ensures description == value && title == old(title) && semester == old(semester)
    {
      description := value;
    }

    /** The draft's semester input; title, description and grid are kept. */
    method SetDraftSemester(value: string)
      modifies this`semester
      ensures semester == value && title == old(title) && description == old(description)
    {
      semester := value;
    }

    /** `resetForm`: form, file and edited id are cleared and the draft grid emptied. */
    method ResetForm()
      modifies this`formData, this`file, this`editingId, this`title, this`description, this`semester, this`schedule
      ensures formData == [] && file == None && editingId == None
      ensures Valid() && fresh(schedule)
      ensures title == "" && description == "" && semester == "" && Schedule() == EmptyGrid()
    {
      formData, file, editingId := [], None, None;
      assert UniqueKeys([]);
      ClearDraft();
    }

    /** `handleEdit(timetable)`: its fields are loaded into the upload form and its id is being edited. */
    method HandleEdit(t: Timetable)
      requires Valid()
      modifies this`formData, this`editingId
      ensures Valid()
      ensures formData == EditForm(t) && editingId == Some(t.id)
    {
      formData := EditForm(t);
      editingId := Some(t.id);
      EditFormFields(t);
    }

    /**
     * `handleSubmit`. Create mode checks the draft's title, description and
     * semester, posts the draft to `timetable/create`, and on an ok response
     * empties the draft and its grid. Upload mode checks the same fields of
     * the form, sends every form key and the image (when one is chosen) by
     * PUT to `timetable/{editingId}` or by POST to `timetable`, and on an ok
     * response clears form, file and edited id. A missing field sends
     * nothing; an error response or a failed request changes nothing.
     */
    method HandleSubmit(token: Option<string>, response: Outcome<bool>) returns (request: Option<TimetableRequest>)
      requires Valid()
      modifies this`formData, this`file, this`editingId, this`title, this`description, this`semester, this`schedule
      ensures Valid()
      ensures mode == CreateMode ==>
                (request.None? <==> old(title) == "" || old(description) == "" || old(semester) == "")
      ensures mode == UploadMode ==>
                (request.None? <==> !AllFilled(old(formData), Required))
      ensures request.Some? && mode == CreateMode ==>
                request.value == CreateRequest(Request(Target(Post, Api + "timetable/create"), AuthorizationHeader(token),
                                               Draft(old(title), old(description), old(semester), old(Schedule()))))
      ensures request.Some? && mode == UploadMode ==>
                request.value == UploadRequest(Request(SaveTarget("timetable", old(editingId)), AuthorizationHeader(token),
                                               Body(old(formData), "image", old(file))))
      ensures request.Some? && response == Resolved(true) && mode == CreateMode ==>
                && title == "" && description == "" && semester == "" && Schedule() == EmptyGrid() && fresh(schedule)
                && formData == old(formData) && file == old(file) && editingId == old(editingId)
      ensures request.Some? && response == Resolved(true) && mode == UploadMode ==>
                && formData == [] && file == None && editingId == None
                && title == old(title) && description == old(description) && semester == old(semester)
                && schedule == old(schedule)
      ensures request.None? || response != Resolved(true) ==>
                && formData == old(formData) && file == old(file) && editingId == old(editingId)
                && title == old(title) && description == old(description) && semester == old(semester)
                && schedule == old(schedule)
    {
      if mode == CreateMode {
        var r := SubmitCreate(token, response);
        request := if r.Some? then Some(CreateRequest(r.value)) else None;
      } else {
        var r := SubmitUpload(token, response);
        request := if r.Some? then Some(UploadRequest(r.value)) else None;
      }
    }

    /** The create-mode branch of `handleSubmit`. */
    method SubmitCreate(token: Option<string>, response: Outcome<bool>) returns (request: Option<Request<Draft>>)
      requires Valid()
      modifies this`title, this`description, this`semester, this`schedule
      ensures Valid()
      ensures request.None? <==> old(title) == "" || old(description) == "" || old(semester) == ""
      ensures request.Some? ==>
                request.value == Request(Target(Post, Api + "timetable/create"), AuthorizationHeader(token),
                                         Draft(old(title), old(description), old(semester), old(Schedule())))
      ensures request.Some? && response == Resolved(true) ==>
                title == "" && description == "" && semester == "" && Schedule() == EmptyGrid() && fresh(schedule)
      ensures request.None? || response != Resolved(true) ==>
                title == old(title) && description == old(description) && semester == old(semester)
                && schedule == old(schedule)
    {
      if title == "" || description == "" || semester == "" {
        return None;
      }
      request := Some(Request(Target(Post, Api + "timetable/create"), AuthorizationHeader(token),
                              Draft(title, description, semester, Schedule())));
      if response == Resolved(true) {
        ClearDraft();
      }
    }

    /** Clears the upload form, its file and the edited id. */
    method ClearUpload()
      requires Valid()
      modifies this`formData, this`file, this`editingId
      ensures Valid()
      ensures formData == [] && file == None && editingId == None
    {
      formData, file, editingId := [], None, None;
      assert UniqueKeys([]);
    }

    /** The upload-mode branch of `handleSubmit`. */
    method SubmitUpload(token: Option<string>, response: Outcome<bool>) returns (request: Option<Request<seq<Part>>>)
      requires Valid()
      modifies this`formData, this`file, this`editingId
      ensures Valid()
      ensures request.None? <==> !AllFilled(old(formData), Required)
      ensures request.Some? ==>
                request.value == Request(SaveTarget("timetable", old(editingId)), AuthorizationHeader(token),
                                         Body(old(formData), "image", old(file)))
      ensures request.Some? && response == Resolved(true) ==> formData == [] && file == None && editingId == None
      ensures request.None? || response != Resolved(true) ==>
                formData == old(formData) && file == old(file) && editingId == old(editingId)
    {
      AllFilledThree(formData, "title", "description", "semester");
      if Missing(formData, "title") || Missing(formData, "description") || Missing(formData, "semester") {
        return None;
      }
      var body := BuildFormData(formData, "image", file);
      request := Some(Request(SaveTarget("timetable", editingId), AuthorizationHeader(token), body));
      if response == Resolved(true) {
        ClearUpload();
      }
    }
  }
}
