/** The records and enumerations the two applications share. */
module Types {

  /** One quiz item: the word to guess and the definition shown to the player. */
  datatype QuizQuestion = QuizQuestion(word: string, definition: string)

  /** The four screens of the quiz; exactly one is current. */
  datatype GameState = Initial | Loading | Playing | Finished

  /** Whether the current answer has been judged, and how. */
  datatype FeedbackType = None | Correct | Incorrect

  /** The judgement of the last submitted answer and the message shown with it. */
  datatype Feedback = Feedback(kind: FeedbackType, message: string)

  /** A project card of the portfolio gallery. */
  datatype Website = Website(
    id: int,
    title: string,
    description: string,
    imageUrl: string,
    url: string,
    tags: seq<string>)
}
