/**
 * The decisions the admin router (backend/src/routes/admin.js) takes before
 * and around its database calls: the bearer-token guard, login rejection,
 * the required fields of a new MCQ test and the default time limit, the
 * update documents of the PUT routes, the download dispatch, and the name an
 * upload is stored under. The database, bcrypt and the JWT library are
 * parameters: lookups and checks whose results are inputs.
 */
module AdminRoutes {
  import opened Wrappers
  import opened Text
  import opened FormFields
  import opened Mcq
  import AdminRequests

  /** A JSON reply: status 200 with a body, or an error status with `{ error }`. */
  datatype Response<T> = Ok(body: T) | Error(status: nat, error: string)

  // ---------------------------------------------------------------------------
  // Stored upload names

  /** multer's `filename`: `Date.now() + '-' + file.originalname`. */
  function StoredFileName(now: nat, originalName: string): string {
    NatToString(now) + "-" + originalName
  }

  /**
   * The first `-` of a stored name is the one after the timestamp, so the
   * timestamp and the original name (which may hold dashes of its own) can
   * both be read back.
   */
  lemma StoredFileNameParts(now: nat, originalName: string)
    ensures var s := StoredFileName(now, originalName);
            var k := |NatToString(now)|;
            && IndexOf(s, "-") == Some(k)
            && AllDigits(s[..k]) && ParseDigits(s[..k]) == now
            && s[k + 1..] == originalName
  {
    var digits := NatToString(now);
    var s := StoredFileName(now, originalName);
    var k := |digits|;
    assert s[..k] == digits;
    assert s[k + 1..] == originalName;
    assert OccursAt(s, "-", k) by {
      assert s[k..k + 1] == [s[k]];
    }
    forall j: nat | j < k ensures !OccursAt(s, "-", j) {
      assert s[j] == digits[j];
      assert s[j..j + 1] == [s[j]];
    }
    ParseNatToString(now);
  }

  /** multer's destination directory. */
  const UploadDir: string := "uploads/admin/"

  /** The `path` multer reports for a file stored at time `now`. */
  function StoredPath(now: nat, originalName: string): (r: string)
    ensures |r| > |UploadDir| && r[..|UploadDir|] == UploadDir
  {
    UploadDir + StoredFileName(now, originalName)
  }

  // ---------------------------------------------------------------------------
  // adminAuth

  /** An admin account: `{_id, email, password (hash), name}`. */
  datatype Admin = Admin(id: string, email: string, passwordHash: string, name: string)

  /** `req.header('Authorization')?.replace('Bearer ', '')`: the first `Bearer ` removed; no header, no token. */
  function TokenOf(header: Option<string>): Option<string> {
    match header
    case None => None
    case Some(h) => Some(ReplaceFirst(h, "Bearer ", ""))
  }

  /**
   * `adminAuth`: a missing or empty token is refused with `Access denied`;
   * a token that `verify` (standing for `jwt.verify`) rejects, or whose admin
   * id `findAdmin` (standing for `Admin.findById`) does not find, is refused
   * with `Invalid token`; otherwise the request proceeds as that admin.
   */
  function AdminAuth(header: Option<string>, verify: string -> Option<string>, findAdmin: string -> Option<Admin>): (r: Response<Admin>)
    ensures TokenOf(header).None? || TokenOf(header).value == "" <==> r == Error(401, "Access denied")
    ensures r.Ok? <==> TokenOf(header).Some? && TokenOf(header).value != ""
                       && verify(TokenOf(header).value).Some?
                       && findAdmin(verify(TokenOf(header).value).value).Some?
    ensures r.Ok? ==> r.body == findAdmin(verify(TokenOf(header).value).value).value
    ensures r.Error? ==> r.status == 401 && (r.error == "Access denied" || r.error == "Invalid token")
  {
    match TokenOf(header)
    case None => Error(401, "Access denied")
    case Some(token) =>
      if token == "" then Error(401, "Access denied")
      else match verify(token)
        case None => Error(401, "Invalid token")
        case Some(id) =>
          match findAdmin(id)
          case None => Error(401, "Invalid token")
          case Some(admin) => Ok(admin)
  }

  /** Removing the `Bearer ` prefix from `Bearer <token>` gives the token back. */
  lemma BearerPrefixRemoved(token: string)
    ensures ReplaceFirst("Bearer " + token, "Bearer ", "") == token
  {
    var h := "Bearer " + token;
    assert OccursAt(h, "Bearer ", 0) by {
      assert h[0..7] == "Bearer ";
    }
    assert IndexOf(h, "Bearer ") == Some(0);
    assert h[7..] == token;
  }

  /**
   * The editors' `Authorization` header is accepted exactly when the stored
   * token verifies to an existing admin; an empty stored token is refused as
   * `Access denied`, and a token never stored reaches the guard as the text
   * `null`.
   */
  lemma EditorHeaderAuthenticates(token: Option<string>, verify: string -> Option<string>, findAdmin: string -> Option<Admin>)
    ensures var sent := token.GetOr("null");
            var r := AdminAuth(Some(AdminRequests.AuthorizationHeader(token)), verify, findAdmin);
            && (sent == "" ==> r == Error(401, "Access denied"))
            && (sent != "" && verify(sent).Some? && findAdmin(verify(sent).value).Some? ==>
                  r == Ok(findAdmin(verify(sent).value).value))
            && (sent != "" && verify(sent).None? ==> r == Error(401, "Invalid token"))
            && (sent != "" && verify(sent).Some? && findAdmin(verify(sent).value).None? ==> r == Error(401, "Invalid token"))
            && (r.Ok? <==> sent != "" && verify(sent).Some? && findAdmin(verify(sent).value).Some?)
  {
    BearerPrefixRemoved(token.GetOr("null"));
  }

  // ---------------------------------------------------------------------------
  // Login

  /** `Admin.findOne({ email })`: the first admin with that email. */
  function FindByEmail(admins: seq<Admin>, email: string): (r: Option<Admin>)
    ensures r.None? <==> forall i :: 0 <= i < |admins| ==> admins[i].email != email
    ensures r.Some? ==> r.value.email == email && r.value in admins
  {
    if admins == [] then None
    else if admins[0].email == email then Some(admins[0])
    else FindByEmail(admins[1..], email)
  }

  /** The admin found is the first one with the email: every admin before it has another email. */
  lemma {:induction false} FindByEmailFirst(admins: seq<Admin>, email: string)
    requires FindByEmail(admins, email).Some?
    ensures exists i :: 0 <= i < |admins| && admins[i] == FindByEmail(admins, email).value
                        && forall j :: 0 <= j < i ==> admins[j].email != email
  {
    if admins[0].email == email {
      assert admins[0] == FindByEmail(admins, email).value;
    } else {
      FindByEmailFirst(admins[1..], email);
      var i :| 0 <= i < |admins[1..]| && admins[1..][i] == FindByEmail(admins[1..], email).value
               && forall j :: 0 <= j < i ==> admins[1..][j].email != email;
      assert admins[i + 1] == FindByEmail(admins, email).value;
      forall j | 0 <= j < i + 1 ensures admins[j].email != email {
        if j > 0 { assert admins[j] == admins[1..][j - 1]; }
      }
    }
  }

  /** The reply to a successful login: `{ token, admin: { id, email, name } }`. */
  datatype LoginReply = LoginReply(token: string, id: string, email: string, name: string)

  /**
   * `POST /login`: `Invalid credentials` when no admin has the email or the
   * password does not match (`matches` stands for `bcrypt.compare`);
   * otherwise a token signed (by `sign`, standing for `jwt.sign`) for that
   * admin's id.
   */
  function Login(admins: seq<Admin>, email: string, password: string,
                 matches: (string, string) -> bool, sign: string -> string): (r: Response<LoginReply>)
    ensures r.Error? <==> FindByEmail(admins, email).None? || !matches(password, FindByEmail(admins, email).value.passwordHash)
    ensures r.Error? ==> r == Error(401, "Invalid credentials")
    ensures r.Ok? ==> var a := FindByEmail(admins, email).value;
                      r.body == LoginReply(sign(a.id), a.id, a.email, a.name)
  {
    match FindByEmail(admins, email)
    case None => Error(401, "Invalid credentials")
    case Some(a) =>
      if !matches(password, a.passwordHash) then Error(401, "Invalid credentials")
      else Ok(LoginReply(sign(a.id), a.id, a.email, a.name))
  }

  /**
   * A login succeeds only for an admin with that email whose password
   * matches, and only the first admin with the email is ever tried.
   */
  lemma LoginNeedsMatchingAdmin(admins: seq<Admin>, email: string, password: string,
                                matches: (string, string) -> bool, sign: string -> string)
    requires Login(admins, email, password, matches, sign).Ok?
    ensures exists i :: 0 <= i < |admins| && admins[i].email == email && matches(password, admins[i].passwordHash)
                        && Login(admins, email, password, matches, sign).body.id == admins[i].id
                        && forall j :: 0 <= j < i ==> admins[j].email != email
  {
    var a := FindByEmail(admins, email).value;
    FindByEmailFirst(admins, email);
    var i :| 0 <= i < |admins| && admins[i] == a && forall j :: 0 <= j < i ==> admins[j].email != email;
  }

  // ---------------------------------------------------------------------------
  // MCQ tests

  /** `!x` for an optional body field. */
  predicate Absent(v: Option<Value>) {
    v.None? || !Truthy(v.value)
  }

  /** The JSON body of the MCQ routes; a field left out of the JSON is `None`. */
  datatype McqBody = McqBody(title: Option<Value>, description: Option<Value>, semester: Option<Value>,
                             questions: Option<seq<Question>>, timeLimit: Option<Value>)

  /** `parseInt(timeLimit) || 30`: NaN (including a missing field) and 0 both give 30. */
  function TimeLimit(v: Option<Value>): (r: int)
    ensures r != 0
  {
    var parsed := ParseInt(match v case None => "undefined" case Some(x) => ValueString(x));
    if parsed.None? || parsed.value == 0 then 30 else parsed.value
  }

  /**
   * A non-zero number, or its decimal text, is kept as the time limit; 0, a
   * missing field and text without leading digits become 30.
   */
  lemma TimeLimitDefaults(n: int, s: string)
    ensures TimeLimit(Some(Num(n))) == (if n == 0 then 30 else n)
    ensures TimeLimit(Some(Str(IntToString(n)))) == (if n == 0 then 30 else n)
    ensures TimeLimit(None) == 30
    ensures s == "" || (s[0] != '-' && s[0] != '+' && !IsDigit(s[0]) && !IsJsSpace(s[0])) ==> TimeLimit(Some(Str(s))) == 30
  {
    ParseIntRoundTrip(n);
    assert TrimStart("undefined") == "undefined";
    if s != [] && s[0] != '-' && s[0] != '+' && !IsDigit(s[0]) && !IsJsSpace(s[0]) {
      assert TrimStart(s) == s;
    }
  }

  /** The test `POST /mcq-tests` saves. */
  datatype StoredTest = StoredTest(title: Value, description: Value, semester: Value,
                                   questions: Option<seq<Question>>, timeLimit: int, createdBy: string)

  /**
   * `POST /mcq-tests`: 400 and nothing saved when the title, description or
   * semester is missing; otherwise the test as saved, with its time limit
   * defaulted and the admin recorded as its author.
   */
  function CreateMcq(body: McqBody, adminId: string): (r: Response<StoredTest>)
    ensures r.Error? <==> Absent(body.title) || Absent(body.description) || Absent(body.semester)
    ensures r.Error? ==> r == Error(400, "Title, description, and semester are required")
    ensures r.Ok? ==> && Some(r.body.title) == body.title && Some(r.body.description) == body.description
                      && Some(r.body.semester) == body.semester && r.body.questions == body.questions
                      && r.body.timeLimit == TimeLimit(body.timeLimit) && r.body.createdBy == adminId
  {
    if Absent(body.title) || Absent(body.description) || Absent(body.semester) then
      Error(400, "Title, description, and semester are required")
    else
      Ok(StoredTest(body.title.value, body.description.value, body.semester.value, body.questions,
                    TimeLimit(body.timeLimit), adminId))
  }

  /** The update document of `PUT /mcq-tests/:id`: no field is required, the time limit is defaulted. */
  datatype McqUpdate = McqUpdate(title: Option<Value>, description: Option<Value>, semester: Option<Value>,
                                 questions: Option<seq<Question>>, timeLimit: int)

  function UpdateMcq(body: McqBody): (r: McqUpdate)
    ensures r.title == body.title && r.description == body.description && r.semester == body.semester
    ensures r.questions == body.questions
    ensures r.timeLimit == TimeLimit(body.timeLimit) && r.timeLimit != 0
  {
    McqUpdate(body.title, body.description, body.semester, body.questions, TimeLimit(body.timeLimit))
  }

  // ---------------------------------------------------------------------------
  // PUT update documents

  /** What multer reports for an uploaded file: `originalname` and the stored `path`. */
  datatype UploadedFile = UploadedFile(originalName: string, path: string)

  /** The file fields of an update or of a stored record; a key the update does not name is `None`. */
  datatype FileFields = FileFields(fileName: Option<string>, filePath: Option<string>)

  /** `updateData` of `PUT /notes/:id`. */
  datatype NoteUpdate = NoteUpdate(title: Option<string>, content: Option<string>, semester: Option<string>, file: FileFields)

  /** `updateData` of `PUT /important-notes/:id`. */
  datatype ImportantUpdate = ImportantUpdate(title: Option<string>, message: Option<string>, semester: Option<string>,
                                             priority: Option<string>, file: FileFields)

  /** `updateData` of `PUT /timetable/:id`. */
  datatype TimetableUpdate = TimetableUpdate(title: Option<string>, description: Option<string>, semester: Option<string>,
                                             imagePath: Option<string>)

  /**
   * `fileName: req.file?.originalname, filePath: req.file?.path` of the
   * `POST /notes` and `POST /important-notes` records: both present with an
   * upload, both absent without one.
   */
  function CreatedFileFields(file: Option<UploadedFile>): (f: FileFields)
    ensures f.fileName.Some? <==> file.Some?
    ensures f.filePath.Some? <==> file.Some?
    ensures file.Some? ==> f.fileName.value == file.value.originalName && f.filePath.value == file.value.path
  {
    match file
    case None => FileFields(None, None)
    case Some(u) => FileFields(Some(u.originalName), Some(u.path))
  }

  /** `if (req.file) { updateData.fileName = …; updateData.filePath = … }`: an update writes the fields a creation would. */
  method UploadFields(file: Option<UploadedFile>) returns (f: FileFields)
    ensures f == CreatedFileFields(file)
  {
    f := FileFields(None, None);
    if file.Some? {
      f := f.(fileName := Some(file.value.originalName));
      f := f.(filePath := Some(file.value.path));
    }
  }

  method NoteUpdateData(title: Option<string>, content: Option<string>, semester: Option<string>,
                        file: Option<UploadedFile>) returns (u: NoteUpdate)
    ensures u.title == title && u.content == content && u.semester == semester
    ensures u.file == CreatedFileFields(file)
  {
    u := NoteUpdate(title, content, semester, FileFields(None, None));
    var f := UploadFields(file);
    u := u.(file := f);
  }

  method ImportantUpdateData(title: Option<string>, message: Option<string>, semester: Option<string>,
                             priority: Option<string>, file: Option<UploadedFile>) returns (u: ImportantUpdate)
    ensures u.title == title && u.message == message && u.semester == semester && u.priority == priority
    ensures u.file == CreatedFileFields(file)
  {
    u := ImportantUpdate(title, message, semester, priority, FileFields(None, None));
    var f := UploadFields(file);
    u := u.(file := f);
  }

  method TimetableUpdateData(title: Option<string>, description: Option<string>, semester: Option<string>,
                             image: Option<UploadedFile>) returns (u: TimetableUpdate)
    ensures u.title == title && u.description == description && u.semester == semester
    ensures u.imagePath == (if image.Some? then Some(image.value.path) else None)
  {
    u := TimetableUpdate(title, description, semester, None);
    if image.Some? {
      u := u.(imagePath := Some(image.value.path));
    }
  }

  /** The file fields of a stored record after an update: a field the update names replaces the stored one. */
  function ApplyFileFields(stored: FileFields, update: FileFields): FileFields {
    FileFields(if update.fileName.Some? then update.fileName else stored.fileName,
               if update.filePath.Some? then update.filePath else stored.filePath)
  }

  // ---------------------------------------------------------------------------
  // Download

  /** The path fields of a stored note, important note or timetable. */
  datatype StoredPaths = StoredPaths(filePath: Option<string>, imagePath: Option<string>)

  /** `!filePath` */
  predicate NoPath(p: Option<string>) {
    p.None? || p.value == ""
  }

  /**
   * `GET /download/:type/:id`: `note` and `important` serve the record's
   * `filePath`, `timetable` its `imagePath`; any other type, a record that
   * is not found, or a missing path is a 404. The lookups stand for
   * `findById` in the three collections.
   */
  function Download(kind: string, id: string, notes: string -> Option<StoredPaths>,
                    importantNotes: string -> Option<StoredPaths>, timetables: string -> Option<StoredPaths>): (r: Response<string>)
    ensures kind != "note" && kind != "important" && kind != "timetable" ==> r == Error(404, "File not found")
    ensures r.Error? ==> r == Error(404, "File not found")
    ensures r.Ok? ==> r.body != ""
    ensures r.Ok? && kind == "note" ==> notes(id).Some? && notes(id).value.filePath == Some(r.body)
    ensures r.Ok? && kind == "important" ==> importantNotes(id).Some? && importantNotes(id).value.filePath == Some(r.body)
    ensures r.Ok? && kind == "timetable" ==> timetables(id).Some? && timetables(id).value.imagePath == Some(r.body)
    ensures kind == "note" && notes(id).Some? && !NoPath(notes(id).value.filePath) ==>
              r == Ok(notes(id).value.filePath.value)
    ensures kind == "important" && importantNotes(id).Some? && !NoPath(importantNotes(id).value.filePath) ==>
              r == Ok(importantNotes(id).value.filePath.value)
    ensures kind == "timetable" && timetables(id).Some? && !NoPath(timetables(id).value.imagePath) ==>
              r == Ok(timetables(id).value.imagePath.value)
  {
    var path: Option<string> :=
      if kind == "note" then (if notes(id).Some? then notes(id).value.filePath else None)
      else if kind == "important" then (if importantNotes(id).Some? then importantNotes(id).value.filePath else None)
      else if kind == "timetable" then (if timetables(id).Some? then timetables(id).value.imagePath else None)
      else None;
    if NoPath(path) then Error(404, "File not found") else Ok(path.value)
  }

  /**
   * A note updated with an uploaded file is then served from that file's
   * stored path; an update without a file keeps what was served before.
   */
  lemma UpdatedNoteDownloads(stored: FileFields, file: Option<UploadedFile>, id: string,
                             notes: string -> Option<StoredPaths>, importantNotes: string -> Option<StoredPaths>,
                             timetables: string -> Option<StoredPaths>)
    requires var after := ApplyFileFields(stored, CreatedFileFields(file));
             notes(id) == Some(StoredPaths(after.filePath, None))
    ensures file.Some? && file.value.path != "" ==> Download("note", id, notes, importantNotes, timetables) == Ok(file.value.path)
    ensures file.None? ==> Download("note", id, notes, importantNotes, timetables) ==
                           (if NoPath(stored.filePath) then Error(404, "File not found") else Ok(stored.filePath.value))
  {
  }

  /**
   * A note created with an upload is served from the stored file (whose
   * path is never empty); one created without an upload has nothing to serve.
   */
  lemma CreatedNoteDownloads(now: nat, originalName: string, uploaded: bool, id: string,
                             notes: string -> Option<StoredPaths>, importantNotes: string -> Option<StoredPaths>,
                             timetables: string -> Option<StoredPaths>)
    requires var file := if uploaded then Some(UploadedFile(originalName, StoredPath(now, originalName))) else None;
             notes(id) == Some(StoredPaths(CreatedFileFields(file).filePath, None))
    ensures uploaded ==> Download("note", id, notes, importantNotes, timetables) == Ok(StoredPath(now, originalName))
    ensures !uploaded ==> Download("note", id, notes, importantNotes, timetables) == Error(404, "File not found")
  {
  }
}
