/** The value types of the quiz: a question and the result of one finished round. */
module Models {

  /** A point in time. The model never computes with it: it is stored, read back
      and compared for equality, which is all the quiz does with a `Date`. */
  datatype Date = Date(secondsSinceReference: int)

  /** One question. Only `correctAnswer` takes part in the quiz's rules; the image
      data and the prompt are carried through to the screen. */
  datatype QuizQuestion = QuizQuestion(image: string, text: string, correctAnswer: bool)

  /** The outcome of one round: how many answers were right, out of how many, and when. */
  datatype GameResult = GameResult(correct: int, total: int, date: Date)

  /** `isBetterThan`: a result beats another exactly when it has more correct answers. */
  predicate IsBetterThan(result: GameResult, another: GameResult): (better: bool)
    ensures better <==> another.correct < result.correct
  {
    result.correct > another.correct
  }

  /** IsBetterThan is a strict order: irreflexive, asymmetric and transitive. */
  lemma IsBetterThanIsStrictOrder(a: GameResult, b: GameResult, c: GameResult)
    ensures !IsBetterThan(a, a)
    ensures IsBetterThan(a, b) ==> !IsBetterThan(b, a)
    ensures IsBetterThan(a, b) && IsBetterThan(b, c) ==> IsBetterThan(a, c)
  {
  }

  /** Only the number of correct answers is compared: `total` and `date` play no part,
      so two results with as many correct answers never beat each other, and two
      results that differ only outside `correct` are ranked alike. */
  lemma IsBetterThanLooksOnlyAtCorrect(a: GameResult, b: GameResult, a': GameResult, b': GameResult)
    requires a'.correct == a.correct && b'.correct == b.correct
    ensures IsBetterThan(a, b) <==> IsBetterThan(a', b')
    ensures a.correct == b.correct ==> !IsBetterThan(a, b) && !IsBetterThan(b, a)
    ensures IsBetterThan(a, b) || IsBetterThan(b, a) || a.correct == b.correct
  {
  }
}
