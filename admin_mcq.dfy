/**
 * The MCQ test editor (frontend/src/pages/AdminMCQ.js): the test's form
 * fields, its list of questions (added one at a time and edited one field
 * at a time), and saving it as a new test or over the test being edited.
 */
module AdminMcq {
  import opened Wrappers
  import opened FormFields
  import opened Mcq
  import opened AdminRequests

  /** The fields that must be filled before a test can be saved. */
  const Required: seq<string> := ["title", "description", "semester"]

  /** `updateQuestion(index, field, value)`: the field named and its new value. */
  datatype QuestionEdit = QuestionText(text: string) | Options(options: seq<string>) | CorrectAnswer(index: int)

  /** `question[field] = value`: the named field takes the value, the other two are kept. */
  function Edited(q: Question, e: QuestionEdit): (r: Question)
    ensures e.QuestionText? ==> r.question == e.text
    ensures e.Options? ==> r.options == e.options
    ensures e.CorrectAnswer? ==> r.correctAnswer == e.index
    ensures !e.QuestionText? ==> r.question == q.question
    ensures !e.Options? ==> r.options == q.options
    ensures !e.CorrectAnswer? ==> r.correctAnswer == q.correctAnswer
  {
    match e
    case QuestionText(t) => q.(question := t)
    case Options(o) => q.(options := o)
    case CorrectAnswer(c) => q.(correctAnswer := c)
  }

  /** Repeating an edit changes nothing more. */
  lemma EditIdempotent(q: Question, e: QuestionEdit)
    ensures Edited(Edited(q, e), e) == Edited(q, e)
  {
  }

  /** Edits of two different fields can be made in either order. */
  lemma EditsCommute(q: Question, e1: QuestionEdit, e2: QuestionEdit)
    requires e1.QuestionText? != e2.QuestionText? || e1.Options? != e2.Options?
    ensures Edited(Edited(q, e1), e2) == Edited(Edited(q, e2), e1)
  {
  }

  /** The question list after editing question `index`: same length, only that question changed. */
  function UpdatedQuestions(qs: seq<Question>, index: nat, e: QuestionEdit): (r: seq<Question>)
    requires index < |qs|
    ensures |r| == |qs|
    ensures r[index] == Edited(qs[index], e)
    ensures forall j :: 0 <= j < |qs| && j != index ==> r[j] == qs[j]
  {
    qs[index := Edited(qs[index], e)]
  }

  /** The JSON body of a save: `{ ...formData, questions }`. */
  datatype McqPayload = McqPayload(fields: Form, questions: seq<Question>)

  /** The form `handleEdit` loads from a stored test. */
  function EditForm(test: McqTest): Form {
    [Entry("title", Str(test.title)), Entry("description", Str(test.description)),
     Entry("semester", Str(test.semester)), Entry("timeLimit", Num(test.timeLimit))]
  }

  /** Editing a test loads each of its fields under its own name, each once. */
  lemma EditFormFields(test: McqTest)
    ensures Get(EditForm(test), "title") == Some(Str(test.title))
    ensures Get(EditForm(test), "description") == Some(Str(test.description))
    ensures Get(EditForm(test), "semester") == Some(Str(test.semester))
    ensures Get(EditForm(test), "timeLimit") == Some(Num(test.timeLimit))
    ensures UniqueKeys(EditForm(test))
  {
    var f := EditForm(test);
    assert f[1..][1..][1..][1..] == [];
    assert Keys(f) == ["title", "description", "semester", "timeLimit"];
    UniqueKeyLookup(f, 0);
    UniqueKeyLookup(f, 1);
    UniqueKeyLookup(f, 2);
    UniqueKeyLookup(f, 3);
  }

  /** A test loaded for editing can be saved exactly when its title, description and semester are non-empty. */
  lemma EditFormSavable(test: McqTest)
    ensures AllFilled(EditForm(test), Required) <==> test.title != "" && test.description != "" && test.semester != ""
  {
    EditFormFields(test);
    AllFilledThree(EditForm(test), "title", "description", "semester");
  }

  /** `test.questions || [blank]`: a missing list falls back to one blank question; an empty list is kept. */
  function LoadedQuestions(test: McqTest): (r: seq<Question>)
    ensures test.questions.Some? ==> r == test.questions.value
    ensures test.questions.None? ==> r == [BlankQuestion]
  {
    test.questions.GetOr([BlankQuestion])
  }

  class AdminMcqPage {
    var formData: Form
    var questions: seq<Question>
    var editingId: Option<string>

    /** The empty form and a single blank question. */
    constructor ()
      ensures formData == [] && questions == [BlankQuestion] && editingId == None
    {
      formData, questions, editingId := [], [BlankQuestion], None;
    }

    /** An input's `onChange`: `setFormData({ ...formData, key: value })`. */
    method SetField(key: string, value: string)
      modifies this`formData
      ensures formData == Set(old(formData), key, Str(value))
    {
      formData := Set(formData, key, Str(value));
    }

    /** `addQuestion`: one blank question at the end; the others are kept. */
    method AddQuestion()
      modifies this`questions
      ensures questions == old(questions) + [BlankQuestion]
    {
      questions := questions + [BlankQuestion];
    }

    /**
     * `updateQuestion(index, field, value)`: only that field of question
     * `index` changes. An index with no question makes `updated[index]`
     * undefined and the assignment throws; nothing changes then.
     */
    method UpdateQuestion(index: int, e: QuestionEdit) returns (r: Outcome<bool>)
      modifies this`questions
      ensures r.Resolved? <==> 0 <= index < |old(questions)|
      ensures r.Resolved? ==> questions == UpdatedQuestions(old(questions), index, e)
      ensures r.Rejected? ==> questions == old(questions)
    {
      if !(0 <= index < |questions|) {
        return Rejected("TypeError");
      }
      questions := questions[index := Edited(questions[index], e)];
      r := Resolved(true);
    }

    /** `resetForm` */
    method ResetForm()
      modifies this`formData, this`questions, this`editingId
      ensures formData == [] && questions == [BlankQuestion] && editingId == None
    {
      formData, questions, editingId := [], [BlankQuestion], None;
    }

    /** `handleEdit(test)`: the test's fields and questions are loaded and its id is being edited. */
    method HandleEdit(test: McqTest)
      modifies this`formData, this`questions, this`editingId
      ensures formData == EditForm(test)
      ensures questions == LoadedQuestions(test)
      ensures editingId == Some(test.id)
    {
      formData := EditForm(test);
      questions := LoadedQuestions(test);
      editingId := Some(test.id);
    }

    /**
     * `handleSubmit`: nothing is sent while a required field is missing or
     * no admin token is stored. Otherwise the payload goes to
     * `mcq-tests/{editingId}` by PUT when a test is being edited and to
     * `mcq-tests` by POST otherwise; an ok response (`Resolved(true)`) resets
     * the editor, an error response or a failed request leaves it as it was.
     */
    method HandleSubmit(token: Option<string>, response: Outcome<bool>) returns (request: Option<Request<McqPayload>>)
      modifies this`formData, this`questions, this`editingId
      ensures request.None? <==> !AllFilled(old(formData), Required) || token.None? || token.value == ""
      ensures request.Some? ==>
                request.value == Request(SaveTarget("mcq-tests", old(editingId)), AuthorizationHeader(token),
                                         McqPayload(old(formData), old(questions)))
      ensures request.Some? && response == Resolved(true) ==>
                formData == [] && questions == [BlankQuestion] && editingId == None
      ensures request.None? || response != Resolved(true) ==>
                formData == old(formData) && questions == old(questions) && editingId == old(editingId)
    {
      if Missing(formData, "title") || Missing(formData, "description") || Missing(formData, "semester") {
        assert !AllFilled(formData, Required) by {
          assert Required[0] == "title" && Required[1] == "description" && Required[2] == "semester";
        }
        return None;
      }
      assert AllFilled(formData, Required);
      if token.None? || token.value == "" {
        return None;
      }
      request := Some(Request(SaveTarget("mcq-tests", editingId), AuthorizationHeader(token),
                              McqPayload(formData, questions)));
      if response == Resolved(true) {
        ResetForm();
      }
    }
  }

  /** A test loaded for editing and saved goes to that test's own address by PUT. */
  lemma EditedTestIsUpdatedInPlace(test: McqTest)
    requires test.id != ""
    ensures SaveTarget("mcq-tests", Some(test.id)) == Target(Put, Api + "mcq-tests/" + test.id)
  {
  }
}
