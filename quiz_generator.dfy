/**
 * The quiz generator (frontend/src/pages/QuizGenerator.js): documents are
 * uploaded and selected, and a quiz is requested for the selection with the
 * chosen number of questions, difficulty and question type.
 */
module QuizGenerator {
  import opened Wrappers
  import opened Text
  import opened Selection
  import opened Uploads
  import opened ChatApi

  /** `quizSettings` */
  datatype QuizSettings = QuizSettings(numQuestions: int, difficulty: string, questionType: string)

  const DefaultSettings: QuizSettings := QuizSettings(10, "medium", "multiple-choice")

  /** The options of the three selects. */
  const QuestionCounts: seq<int> := [5, 10, 15, 20]
  const Difficulties: seq<string> := ["easy", "medium", "hard"]
  const QuestionTypes: seq<string> := ["multiple-choice", "true-false", "mixed"]

  /** The request text: `Generate a {difficulty} difficulty quiz with {n} {type} questions`. */
  function QuizPrompt(s: QuizSettings): string {
    "Generate a " + s.difficulty + " difficulty quiz with " + IntToString(s.numQuestions) + " " + s.questionType + " questions"
  }

  /** For one difficulty and question type, the request text names the question count unambiguously. */
  lemma {:induction false} QuizPromptFixesCount(a: QuizSettings, b: QuizSettings)
    requires a.difficulty == b.difficulty && a.questionType == b.questionType
    requires QuizPrompt(a) == QuizPrompt(b)
    ensures a.numQuestions == b.numQuestions
  {
    var head := "Generate a " + a.difficulty + " difficulty quiz with ";
    var tail := " " + a.questionType + " questions";
    var na, nb := IntToString(a.numQuestions), IntToString(b.numQuestions);
    assert QuizPrompt(a) == head + na + tail;
    assert QuizPrompt(b) == head + nb + tail;
    assert |na| == |nb|;
    assert na == QuizPrompt(a)[|head|..|head| + |na|];
    assert nb == QuizPrompt(b)[|head|..|head| + |nb|];
    IntToStringInjective(a.numQuestions, b.numQuestions);
  }

  class QuizGeneratorPage {
    var documents: seq<Document>
    var selectedDocs: seq<Id>
    var quiz: Option<seq<QuizItem>>
    var loading: bool
    var uploading: bool
    var settings: QuizSettings

    constructor ()
      ensures documents == [] && selectedDocs == [] && quiz == None
      ensures !loading && !uploading && settings == DefaultSettings
    {
      documents, selectedDocs, quiz := [], [], None;
      loading, uploading, settings := false, false, DefaultSettings;
    }

    /** Choosing option `k` of the question-count select: `{...quizSettings, numQuestions: Number(value)}`. */
    method SetNumQuestions(k: nat)
      requires k < |QuestionCounts|
      modifies this`settings
      ensures settings == old(settings).(numQuestions := QuestionCounts[k])
    {
      settings := settings.(numQuestions := QuestionCounts[k]);
    }

    /** Choosing option `k` of the difficulty select; count and type are kept. */
    method SetDifficulty(k: nat)
      requires k < |Difficulties|
      modifies this`settings
      ensures settings == old(settings).(difficulty := Difficulties[k])
    {
      settings := settings.(difficulty := Difficulties[k]);
    }

    /** Choosing option `k` of the question-type select; count and difficulty are kept. */
    method SetQuestionType(k: nat)
      requires k < |QuestionTypes|
      modifies this`settings
      ensures settings == old(settings).(questionType := QuestionTypes[k])
    {
      settings := settings.(questionType := QuestionTypes[k]);
    }

    /** `toggleDocument(docId)` */
    method ToggleDocument(id: Id)
      modifies this`selectedDocs
      ensures selectedDocs == Toggle(old(selectedDocs), id)
    {
      selectedDocs := Toggle(selectedDocs, id);
    }

    /** `onDrop`: every accepted upload appends its document and selects it. */
    method OnDrop(files: seq<File>, results: seq<Outcome<Receipt>>)
      requires |files| == |results|
      modifies this`documents, this`selectedDocs, this`uploading
      ensures documents == old(documents) + AddedAll(files, results)
      ensures selectedDocs == old(selectedDocs) + Ids(AddedAll(files, results))
      ensures !uploading
    {
      uploading := true;
      documents, selectedDocs := UploadAll(documents, selectedDocs, files, results);
      uploading := false;
    }

    /**
     * `generateQuiz`: with nothing selected no request is made and nothing
     * changes. Otherwise a session is opened (`session`), the quiz request
     * for the selection is sent on it (`response` is what it came to), the
     * quiz is replaced only when the reply carries one, and `loading` ends
     * false whatever happened.
     */
    method GenerateQuiz(session: Outcome<string>, response: Outcome<Reply>) returns (request: Option<MessageRequest>)
      modifies this`quiz, this`loading
      ensures selectedDocs == [] ==> request.None? && quiz == old(quiz) && loading == old(loading)
      ensures selectedDocs != [] ==> !loading
      ensures request.Some? <==> selectedDocs != [] && session.Resolved?
      ensures request.Some? ==>
                request.value == MessageRequest(session.value, QuizPrompt(settings), selectedDocs, "quiz-generation")
      ensures quiz == (if request.Some? && response.Resolved? && response.value.quiz.Some? then response.value.quiz
                       else old(quiz))
    {
      if selectedDocs == [] {
        return None;
      }
      loading := true;
      request := None;
      if session.Resolved? {
        request := Some(MessageRequest(session.value, QuizPrompt(settings), selectedDocs, "quiz-generation"));
        if response.Resolved? && response.value.quiz.Some? {
          quiz := response.value.quiz;
        }
      }
      loading := false;
    }
  }
}
