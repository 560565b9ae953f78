/**
 * The values exchanged with the chat backend (`/chat/session`,
 * `/chat/message`) as the pages see them. The backend itself is not part of
 * this model: its replies are inputs.
 */
module ChatApi {
  import opened Wrappers
  import opened Selection

  datatype Role = User | Assistant

  /** One turn of a conversation: `{role, content, error?}` (timestamps are not modelled). */
  datatype Message = Message(role: Role, content: string, error: bool)

  /** One generated question: its text, options, the index of the correct option and an explanation. */
  datatype QuizItem = QuizItem(question: string, options: seq<string>, correct: int, explanation: string)

  /** A generated study plan, kept and displayed as the server sent it. */
  datatype StudyPlan = StudyPlan(body: string)

  /** The body of `POST /chat/message`. */
  datatype MessageRequest = MessageRequest(sessionId: string, message: string, documentIds: seq<Id>, messageType: string)

  /** The fields of a `/chat/message` response the pages read; an absent `quiz`/`studyPlan` is `None`. */
  datatype Reply = Reply(message: Message, quiz: Option<seq<QuizItem>>, studyPlan: Option<StudyPlan>)

  /** The assistant turn shown when a request fails. */
  const Apology: string := "Sorry, I encountered an error. Please try again."
}
