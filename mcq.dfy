/** MCQ tests as the admin editor builds them and the test taker loads them. */
module Mcq {
  import opened Wrappers

  /** One question: `{question, options, correctAnswer}`. */
  datatype Question = Question(question: string, options: seq<string>, correctAnswer: int)

  /** `{ question: '', options: ['', '', '', ''], correctAnswer: 0 }` */
  const BlankQuestion: Question := Question("", ["", "", "", ""], 0)

  /**
   * A stored test. `timeLimit` is in minutes; `questions` is `None` when the
   * stored document has no such field.
   */
  datatype McqTest = McqTest(id: string, title: string, description: string, semester: string,
                             timeLimit: int, questions: Option<seq<Question>>)
}
