/**
 * The chat page (frontend/src/pages/Chat.js): sending a turn in one of three
 * modes, selecting documents, uploading documents, and the option marking of
 * a generated quiz.
 */
module ChatPage {
  import opened Wrappers
  import opened Text
  import opened Selection
  import opened Uploads
  import opened ChatApi

  /** `messageType`: 'chat', 'quiz' or 'study-plan'. */
  datatype Mode = Chat | Quiz | StudyPlanMode

  function ModeName(m: Mode): (r: string)
    ensures m == Chat <==> r == "chat"
  {
    match m
    case Chat => "chat"
    case Quiz => "quiz"
    case StudyPlanMode => "study-plan"
  }

  /** The content of the user turn and of the request: the typed text, or a default request for the mode. */
  function OutgoingContent(message: string, mode: Mode): (r: string)
    ensures message != "" ==> r == message
    ensures message == "" && mode == Quiz ==> r == "Generate a quiz"
    ensures message == "" && mode != Quiz ==> r == "Create a study plan"
    ensures r != ""
  {
    if message != "" then message
    else if mode == Quiz then "Generate a quiz" else "Create a study plan"
  }

  /** `handleSend` returns at once: a blank chat message, or no session yet. */
  predicate SendIgnored(message: string, mode: Mode, sessionId: Option<string>) {
    (Trim(message) == "" && mode == Chat) || sessionId.None? || sessionId.value == ""
  }

  /** The send button's `disabled` condition. */
  predicate SendDisabled(message: string, mode: Mode, loading: bool, selectedDocs: seq<Id>) {
    (mode == Chat && Trim(message) == "") || loading || |selectedDocs| == 0
  }

  /**
   * The button is disabled exactly for a white-space-only chat message, while
   * loading, or with nothing selected; when it is enabled and a session
   * exists, the click is not ignored.
   */
  lemma SendEnabledIsNotIgnored(message: string, mode: Mode, loading: bool, selectedDocs: seq<Id>, sessionId: Option<string>)
    ensures SendDisabled(message, mode, loading, selectedDocs) <==>
            (mode == Chat && IsBlank(message)) || loading || selectedDocs == []
    ensures !SendDisabled(message, mode, loading, selectedDocs) && sessionId.Some? && sessionId.value != "" ==>
            !SendIgnored(message, mode, sessionId)
  {
    TrimEmptyIffBlank(message);
  }

  /**
   * The letter shown before option `i` of a quiz question:
   * `String.fromCharCode(65 + i)`; options 0 to 25 get 'A' to 'Z'.
   */
  function OptionLetter(i: nat): (c: char)
    requires 65 + i < 0xD800
    ensures c as int == 65 + i
    ensures i < 26 ==> 'A' <= c <= 'Z'
  {
    (65 + i) as char
  }

  /** Option `i` is shown as the correct one: `i === q.correct`. */
  predicate MarkedCorrect(q: QuizItem, i: nat) {
    i == q.correct
  }

  /** The options marked correct: exactly one when `correct` is a valid index, none otherwise. */
  function MarkedOptions(q: QuizItem): (r: seq<nat>)
    ensures 0 <= q.correct < |q.options| ==> r == [q.correct as nat]
    ensures !(0 <= q.correct < |q.options|) ==> r == []
    ensures forall k :: 0 <= k < |r| ==> r[k] < |q.options| && MarkedCorrect(q, r[k])
  {
    MarkedFrom(q, 0)
  }

  function MarkedFrom(q: QuizItem, i: nat): (r: seq<nat>)
    requires i <= |q.options|
    ensures i <= q.correct < |q.options| ==> r == [q.correct as nat]
    ensures !(i <= q.correct < |q.options|) ==> r == []
    decreases |q.options| - i
  {
    if i == |q.options| then []
    else (if MarkedCorrect(q, i) then [i] else []) + MarkedFrom(q, i + 1)
  }

  /** The page state the chat page keeps with `useState`. */
  class ChatPage {
    var message: string
    var messages: seq<Message>
    var documents: seq<Document>
    var selectedDocs: seq<Id>
    var messageType: Mode
    var quiz: Option<seq<QuizItem>>
    var studyPlan: Option<StudyPlan>
    var sessionId: Option<string>
    var loading: bool
    var uploading: bool

    /** The initial state; the mode comes from the navigation state when one is given. */
    constructor (navigationMode: Option<Mode>)
      ensures message == "" && messages == [] && documents == [] && selectedDocs == []
      ensures messageType == navigationMode.GetOr(Chat)
      ensures quiz == None && studyPlan == None && sessionId == None
      ensures !loading && !uploading
    {
      message, messages, documents, selectedDocs := "", [], [], [];
      messageType := navigationMode.GetOr(Chat);
      quiz, studyPlan, sessionId := None, None, None;
      loading, uploading := false, false;
    }

    /** `loadDocuments`: a successful fetch replaces the list; a failure leaves it. */
    method LoadDocuments(response: Outcome<seq<Document>>)
      modifies this`documents
      ensures documents == if response.Resolved? then response.value else old(documents)
    {
      if response.Resolved? {
        documents := response.value;
      }
    }

    /** `createSession`: a successful request stores the new session id; a failure leaves it. */
    method CreateSession(response: Outcome<string>)
      modifies this`sessionId
      ensures sessionId == if response.Resolved? then Some(response.value) else old(sessionId)
    {
      if response.Resolved? {
        sessionId := Some(response.value);
      }
    }

    /** The first half of `handleSend`, up to the request: guard, `loading`, the user turn. */
    method BeginSend() returns (request: Option<MessageRequest>)
      modifies this`loading, this`messages
      ensures SendIgnored(old(message), messageType, sessionId) ==>
                request == None && messages == old(messages) && loading == old(loading)
      ensures !SendIgnored(old(message), messageType, sessionId) ==>
                && loading
                && messages == old(messages) + [Message(User, OutgoingContent(message, messageType), false)]
                && request == Some(MessageRequest(sessionId.value, OutgoingContent(message, messageType),
                                                  selectedDocs, ModeName(messageType)))
    {
      if Trim(message) == "" && messageType == Chat {
        return None;
      }
      if sessionId.None? || sessionId.value == "" {
        return None;
      }
      loading := true;
      var content := OutgoingContent(message, messageType);
      messages := messages + [Message(User, content, false)];
      request := Some(MessageRequest(sessionId.value, content, selectedDocs, ModeName(messageType)));
    }

    /**
     * The second half of `handleSend`, once the request has settled: the
     * reply (or an apology) is appended; on success the quiz and study plan
     * the reply carries are stored, the input is cleared and the mode goes
     * back to chat; `loading` ends either way.
     */
    method FinishSend(response: Outcome<Reply>)
      modifies this`messages, this`quiz, this`studyPlan, this`message, this`messageType, this`loading
      ensures !loading
      ensures response.Resolved? ==>
                && messages == old(messages) + [response.value.message]
                && quiz == (if response.value.quiz.Some? then response.value.quiz else old(quiz))
                && studyPlan == (if response.value.studyPlan.Some? then response.value.studyPlan else old(studyPlan))
                && message == "" && messageType == Chat
      ensures response.Rejected? ==>
                && messages == old(messages) + [Message(Assistant, Apology, false)]
                && quiz == old(quiz) && studyPlan == old(studyPlan)
                && message == old(message) && messageType == old(messageType)
    {
      match response {
        case Resolved(reply) =>
          messages := messages + [reply.message];
          if reply.quiz.Some? {
            quiz := reply.quiz;
          }
          if reply.studyPlan.Some? {
            studyPlan := reply.studyPlan;
          }
          message := "";
          messageType := Chat;
        case Rejected(_) =>
          messages := messages + [Message(Assistant, Apology, false)];
      }
      loading := false;
    }

    /**
     * `handleSend` as a whole: an ignored send changes nothing; otherwise the
     * history grows by the user turn and then the reply (or the apology), and
     * the reply's quiz and study plan, the cleared input and the reset mode
     * are kept exactly when the request succeeded.
     */
    method HandleSend(response: Outcome<Reply>) returns (request: Option<MessageRequest>)
      modifies this`loading, this`messages, this`quiz, this`studyPlan, this`message, this`messageType
      ensures request.None? <==> SendIgnored(old(message), old(messageType), sessionId)
      ensures request.Some? ==> request.value == MessageRequest(sessionId.value, OutgoingContent(old(message), old(messageType)),
                                                                selectedDocs, ModeName(old(messageType)))
      ensures request.None? ==> && messages == old(messages) && loading == old(loading)
                                && message == old(message) && messageType == old(messageType)
                                && quiz == old(quiz) && studyPlan == old(studyPlan)
      ensures request.Some? ==>
                && messages == old(messages) + [Message(User, OutgoingContent(old(message), old(messageType)), false),
                                                if response.Resolved? then response.value.message
                                                else Message(Assistant, Apology, false)]
                && !loading
      ensures request.Some? && response.Resolved? ==>
                && quiz == (if response.value.quiz.Some? then response.value.quiz else old(quiz))
                && studyPlan == (if response.value.studyPlan.Some? then response.value.studyPlan else old(studyPlan))
                && message == "" && messageType == Chat
      ensures request.Some? && response.Rejected? ==>
                && quiz == old(quiz) && studyPlan == old(studyPlan)
                && message == old(message) && messageType == old(messageType)
    {
      request := BeginSend();
      if request.Some? {
        FinishSend(response);
      }
    }

    /** `toggleDocumentSelection` */
    method ToggleDocumentSelection(id: Id)
      modifies this`selectedDocs
      ensures selectedDocs == Toggle(old(selectedDocs), id)
    {
      selectedDocs := Toggle(selectedDocs, id);
    }

    /** `onDrop`: every accepted upload appends its document and selects it. */
    method OnDrop(files: seq<File>, results: seq<Outcome<Receipt>>)
      requires |files| == |results|
      modifies this`documents, this`selectedDocs, this`uploading
      ensures documents == old(documents) + AddedAll(files, results)
      ensures selectedDocs == old(selectedDocs) + Ids(AddedAll(files, results))
      ensures !uploading
    {
      uploading := true;
      documents, selectedDocs := UploadAll(documents, selectedDocs, files, results);
      uploading := false;
    }
  }
}
