/** The round controller: it counts the right answers of a ten-question round, moves
    from question to question, and at the end of the round records the game with the
    statistics service and builds the results message. */
module Presentation {

  import opened Wrappers
  import opened Models
  import opened Statistics

  /** The number of questions in a round. */
  const QuestionsAmount: int := 10

  /** A label of the form "top/bottom". */
  datatype Fraction = Fraction(top: int, bottom: int)

  /** What a question screen shows: the prompt and the step label. */
  datatype QuizStepViewModel = QuizStepViewModel(question: string, questionNumber: Fraction)

  /** The first line of the results text. */
  datatype ResultLine =
    | Congratulations   // "you answered 10 of 10"
    | Score(score: Fraction)

  /** The lines of the results text, as values: the result line, the number of games
      played, the record with its date, and the lifetime accuracy in percent. */
  datatype ResultsText = ResultsText(result: ResultLine, gamesCount: int, record: Fraction, recordDate: Date, accuracy: real)

  datatype QuizResultsViewModel = QuizResultsViewModel(title: string, text: ResultsText, buttonText: string)

  const RoundOverTitle: string := "Этот раунд окончен!"

  const PlayAgainButtonText: string := "Сыграть ещё раз"

  /** The result line: the congratulation exactly for a perfect round, the score otherwise. */
  function ResultLineFor(correctAnswers: int): (line: ResultLine)
    ensures line.Congratulations? <==> correctAnswers == QuestionsAmount
    ensures line.Score? ==> line.score == Fraction(correctAnswers, QuestionsAmount)
  {
    if correctAnswers == QuestionsAmount then Congratulations else Score(Fraction(correctAnswers, QuestionsAmount))
  }

  // ----- The round as a value -----

  /** What the presenter's rules act on: its three fields, and the (correct, total)
      pairs it has handed to the statistics service so far. */
  datatype Round = Round(currentQuestion: Option<QuizQuestion>, correctAnswers: int, currentQuestionIndex: int, stored: seq<(int, int)>)

  predicate IsLast(index: int)
  {
    index == QuestionsAmount - 1
  }

  function ResetIndex(r: Round): Round
  {
    r.(currentQuestionIndex := 0)
  }

  function Switched(r: Round): Round
  {
    r.(currentQuestionIndex := r.currentQuestionIndex + 1)
  }

  function Answered(r: Round, isCorrectAnswer: bool): Round
  {
    if isCorrectAnswer then r.(correctAnswers := r.correctAnswers + 1) else r
  }

  function Received(r: Round, question: Option<QuizQuestion>): Round
  {
    match question
    case None => r
    case Some(_) => r.(currentQuestion := question)
  }

  /** On the last question the round is recorded; otherwise the index moves on. */
  function Advanced(r: Round): Round
  {
    if IsLast(r.currentQuestionIndex) then r.(stored := r.stored + [(r.correctAnswers, QuestionsAmount)])
    else Switched(r)
  }

  /** One judged answer as the view controller handles it: counted at once, then the
      advance once the review delay is over. */
  function Turn(r: Round, isCorrectAnswer: bool): Round
  {
    Advanced(Answered(r, isCorrectAnswer))
  }

  /** A series of judged answers, each followed by its advance. */
  function Play(r: Round, results: seq<bool>): Round
    decreases |results|
  {
    if results == [] then r else Play(Turn(r, results[0]), results[1..])
  }

  /** A series of judged answers alone. */
  function AnsweredAll(r: Round, results: seq<bool>): Round
    decreases |results|
  {
    if results == [] then r else AnsweredAll(Answered(r, results[0]), results[1..])
  }

  /** The number of right answers among `results`. */
  function CountTrue(results: seq<bool>): (n: nat)
    ensures n <= |results|
  {
    if results == [] then 0 else (if results[0] then 1 else 0) + CountTrue(results[1..])
  }

  /** CountTrue counts the occurrences of `true`. */
  lemma {:induction false} CountTrueIsMultiplicity(results: seq<bool>)
    ensures CountTrue(results) == multiset(results)[true]
  {
    if results != [] {
      assert results == [results[0]] + results[1..];
      assert multiset(results) == multiset([results[0]]) + multiset(results[1..]);
      CountTrueIsMultiplicity(results[1..]);
    }
  }

  /** Every answer was right exactly when all of them count. */
  lemma {:induction false} CountTrueAllRight(results: seq<bool>)
    ensures CountTrue(results) == |results| <==> forall i | 0 <= i < |results| :: results[i]
  {
    if results != [] {
      CountTrueAllRight(results[1..]);
      if forall i | 0 <= i < |results| - 1 :: results[1..][i] {
        assert forall i | 1 <= i < |results| :: results[i] by {
          forall i | 1 <= i < |results| ensures results[i] {
            assert results[i] == results[1..][i - 1];
          }
        }
      }
    }
  }

  /** After a series of answers the count has grown by the number of right ones, and
      nothing else has changed. */
  lemma {:induction false} AnsweredAllCounts(r: Round, results: seq<bool>)
    ensures AnsweredAll(r, results) == r.(correctAnswers := r.correctAnswers + CountTrue(results))
    decreases |results|
  {
    if results != [] {
      AnsweredAllCounts(Answered(r, results[0]), results[1..]);
    }
  }

  /** Before the last question each turn moves the index on by one and records nothing. */
  lemma {:induction false} PlayWithinRound(r: Round, results: seq<bool>)
    requires 0 <= r.currentQuestionIndex && r.currentQuestionIndex + |results| <= QuestionsAmount - 1
    ensures Play(r, results) == r.(correctAnswers := r.correctAnswers + CountTrue(results),
                                   currentQuestionIndex := r.currentQuestionIndex + |results|)
    decreases |results|
  {
    if results != [] {
      PlayWithinRound(Turn(r, results[0]), results[1..]);
    }
  }

  /** Playing up to and including the last question records the round exactly once,
      with every right answer counted, and leaves the index on the last question. */
  lemma {:induction false} PlayToRoundEnd(r: Round, results: seq<bool>)
    requires 0 <= r.currentQuestionIndex < QuestionsAmount
    requires r.currentQuestionIndex + |results| == QuestionsAmount
    ensures var correct := r.correctAnswers + CountTrue(results);
      Play(r, results) == r.(correctAnswers := correct, currentQuestionIndex := QuestionsAmount - 1,
                             stored := r.stored + [(correct, QuestionsAmount)])
    decreases |results|
  {
    if IsLast(r.currentQuestionIndex) {
      assert results[1..] == [];
    } else {
      PlayToRoundEnd(Turn(r, results[0]), results[1..]);
    }
  }

  /** From the start of a round: k answers with k below 10 lead to question k, which is
      the last question exactly when k is 9, and nothing is recorded. */
  lemma ReachingLastQuestion(q: Option<QuizQuestion>, results: seq<bool>)
    requires |results| <= QuestionsAmount - 1
    ensures var r := Play(Round(q, 0, 0, []), results);
      && 0 <= r.currentQuestionIndex < QuestionsAmount
      && r.currentQuestionIndex == |results|
      && (IsLast(r.currentQuestionIndex) <==> |results| == QuestionsAmount - 1)
      && r.correctAnswers <= r.currentQuestionIndex
      && r.stored == []
  {
    PlayWithinRound(Round(q, 0, 0, []), results);
  }

  /** A whole round from the start stores exactly one game, whose score is the number of
      right answers; the results line congratulates exactly when all ten were right. */
  lemma FullRoundStoresOnce(q: Option<QuizQuestion>, results: seq<bool>)
    requires |results| == QuestionsAmount
    ensures var r := Play(Round(q, 0, 0, []), results);
      && r == Round(q, CountTrue(results), QuestionsAmount - 1, [(CountTrue(results), QuestionsAmount)])
      && (ResultLineFor(r.correctAnswers).Congratulations? <==> forall i | 0 <= i < |results| :: results[i])
  {
    PlayToRoundEnd(Round(q, 0, 0, []), results);
    CountTrueAllRight(results);
  }

  function Min(a: int, b: int): int
  {
    if a < b then a else b
  }

  /** Any number of turns from any question of the round: the index climbs to the last
      question and stays there, every right answer counts, and each turn taken on the last
      question records the round once more, since nothing stops a finished round. */
  lemma {:induction false} PlayAnyLength(r: Round, results: seq<bool>)
    requires 0 <= r.currentQuestionIndex < QuestionsAmount
    ensures var p := Play(r, results);
      && p.currentQuestionIndex == Min(r.currentQuestionIndex + |results|, QuestionsAmount - 1)
      && p.correctAnswers == r.correctAnswers + CountTrue(results)
      && p.currentQuestion == r.currentQuestion
      && |p.stored| == |r.stored| + Max(0, r.currentQuestionIndex + |results| - (QuestionsAmount - 1))
      && p.stored[..|r.stored|] == r.stored
    decreases |results|
  {
    if results != [] {
      PlayAnyLength(Turn(r, results[0]), results[1..]);
    }
  }

  /** Eleven right answers from the start: the round is recorded after the tenth answer
      and again after the eleventh, the second time with 11 right answers out of 10. */
  lemma ElevenRightAnswersRecordTwice(q: Option<QuizQuestion>)
    ensures var p := Play(Round(q, 0, 0, []), seq(11, _ => true));
      p.correctAnswers == 11 && p.stored == [(10, QuestionsAmount), (11, QuestionsAmount)]
  {
    var rs := seq(11, _ => true);
    var rs10 := seq(10, _ => true);
    assert rs == rs10 + [true];
    PlayToRoundEnd(Round(q, 0, 0, []), rs10);
    assert CountTrue(rs10) == 10 by {
      CountTrueAllRight(rs10);
    }
    PlayAppend(Round(q, 0, 0, []), rs10, [true]);
  }

  /** Playing two series one after the other is playing them joined. */
  lemma {:induction false} PlayAppend(r: Round, first: seq<bool>, second: seq<bool>)
    ensures Play(r, first + second) == Play(Play(r, first), second)
    decreases |first|
  {
    if first != [] {
      assert (first + second)[1..] == first[1..] + second;
      PlayAppend(Turn(r, first[0]), first[1..], second);
    } else {
      assert first + second == second;
    }
  }

  // ----- The presenter object -----

  class MovieQuizPresenter {
    var currentQuestion: Option<QuizQuestion>
    var correctAnswers: int
    var currentQuestionIndex: int
    /** The statistics service the presenter records finished rounds with. */
    const statisticService: StatisticService

    constructor (statisticService: StatisticService)
      ensures currentQuestion == None && correctAnswers == 0 && currentQuestionIndex == 0
      ensures this.statisticService == statisticService
      ensures Abstract() == Round(None, 0, 0, statisticService.log)
    {
      currentQuestion := None;
      correctAnswers := 0;
      currentQuestionIndex := 0;
      this.statisticService := statisticService;
    }

    ghost function Abstract(): Round
      reads this, statisticService
    {
      Round(currentQuestion, correctAnswers, currentQuestionIndex, statisticService.log)
    }

    function IsLastQuestion(): (last: bool)
      reads this
      ensures last <==> currentQuestionIndex == 9
    {
      IsLast(currentQuestionIndex)
    }

    method ResetQuestionIndex()
      modifies this
      ensures currentQuestionIndex == 0
      ensures currentQuestion == old(currentQuestion) && correctAnswers == old(correctAnswers)
      ensures Abstract() == ResetIndex(old(Abstract()))
    {
      currentQuestionIndex := 0;
    }

    method SwitchToNextQuestion()
      modifies this
      ensures currentQuestionIndex == old(currentQuestionIndex) + 1
      ensures currentQuestion == old(currentQuestion) && correctAnswers == old(correctAnswers)
      ensures Abstract() == Switched(old(Abstract()))
    {
      currentQuestionIndex := currentQuestionIndex + 1;
    }

    /** The step screen for `model`; the label runs from 1 to 10 over a round. */
    function Convert(model: QuizQuestion): (step: QuizStepViewModel)
      reads this
      ensures step.question == model.text
      ensures step.questionNumber == Fraction(currentQuestionIndex + 1, QuestionsAmount)
      ensures 0 <= currentQuestionIndex < QuestionsAmount <==> 1 <= step.questionNumber.top <= QuestionsAmount
    {
      QuizStepViewModel(model.text, Fraction(currentQuestionIndex + 1, QuestionsAmount))
    }

    /** `didAnswer(isCorrectAnswer:)`: a right answer adds one to the count. */
    method DidAnswer(isCorrectAnswer: bool)
      modifies this
      ensures correctAnswers == old(correctAnswers) + (if isCorrectAnswer then 1 else 0)
      ensures currentQuestion == old(currentQuestion) && currentQuestionIndex == old(currentQuestionIndex)
      ensures Abstract() == Answered(old(Abstract()), isCorrectAnswer)
    {
      if isCorrectAnswer {
        correctAnswers := correctAnswers + 1;
      }
    }

    /** `didAnswer(isYes:)`: with no question on screen the tap is ignored; otherwise the
        verdict, right exactly when the tap matches the question's answer, goes to the
        view. The verdict handed to the view is returned. */
    method DidAnswerYesNo(isYes: bool) returns (verdict: Option<bool>)
      ensures currentQuestion.None? ==> verdict == None
      ensures currentQuestion.Some? ==> verdict == Some(isYes == currentQuestion.value.correctAnswer)
    {
      match currentQuestion
      case None =>
        verdict := None;
      case Some(question) =>
        var givenAnswer := isYes;
        verdict := Some(givenAnswer == question.correctAnswer);
    }

    /** A "yes" tap is right exactly when the question's answer is yes. */
    method YesButtonClicked() returns (verdict: Option<bool>)
      ensures verdict.Some? <==> currentQuestion.Some?
      ensures verdict.Some? ==> (verdict.value <==> currentQuestion.value.correctAnswer)
    {
      verdict := DidAnswerYesNo(true);
    }

    /** A "no" tap is right exactly when the question's answer is no. */
    method NoButtonClicked() returns (verdict: Option<bool>)
      ensures verdict.Some? <==> currentQuestion.Some?
      ensures verdict.Some? ==> (verdict.value <==> !currentQuestion.value.correctAnswer)
    {
      verdict := DidAnswerYesNo(false);
    }

    /** `didReceiveNextQuestion(question:)`: a missing question changes nothing; a present
        one becomes the current question and its step screen is shown. */
    method DidReceiveNextQuestion(question: Option<QuizQuestion>) returns (step: Option<QuizStepViewModel>)
      modifies this
      ensures question.None? ==> currentQuestion == old(currentQuestion) && step == None
      ensures question.Some? ==> currentQuestion == question && step == Some(Convert(question.value))
      ensures correctAnswers == old(correctAnswers) && currentQuestionIndex == old(currentQuestionIndex)
      ensures Abstract() == Received(old(Abstract()), question)
    {
      match question
      case None =>
        step := None;
      case Some(q) =>
        currentQuestion := question;
        step := Some(Convert(q));
    }

    /** `showNextQuestionOrResults`: on the last question the round is stored once, with
        `now` standing for `Date()`, the index stays, and the results message is shown;
        otherwise the index moves on by one and nothing is stored. */
    method ShowNextQuestionOrResults(now: Date) returns (results: Option<QuizResultsViewModel>)
      modifies this, statisticService
      ensures Abstract() == Advanced(old(Abstract()))
      ensures currentQuestion == old(currentQuestion) && correctAnswers == old(correctAnswers)
      ensures old(IsLastQuestion()) ==>
        && currentQuestionIndex == old(currentQuestionIndex)
        && statisticService.storage == Stored(old(statisticService.storage), GameResult(correctAnswers, QuestionsAmount, now))
        && results == Some(MakeResultsMessage(now))
      ensures !old(IsLastQuestion()) ==>
        && currentQuestionIndex == old(currentQuestionIndex) + 1
        && statisticService.storage == old(statisticService.storage)
        && results == None
    {
      if IsLastQuestion() {
        statisticService.Store(correctAnswers, QuestionsAmount, now);
        results := Some(MakeResultsMessage(now));
      } else {
        SwitchToNextQuestion();
        results := None;
      }
    }

    /** `makeResultsMessage`: the result line congratulates exactly a perfect round, and the
        record shows the best score over the round length, not over the best game's total. */
    function MakeResultsMessage(now: Date): (message: QuizResultsViewModel)
      reads this, statisticService
      ensures message.text.result.Congratulations? <==> correctAnswers == QuestionsAmount
      ensures message.text.result.Score? ==> message.text.result.score == Fraction(correctAnswers, QuestionsAmount)
      ensures message.text.record == Fraction(BestGame(statisticService.storage, now).correct, QuestionsAmount)
      ensures message.text.recordDate == BestGame(statisticService.storage, now).date
      ensures message.text.gamesCount == GamesCount(statisticService.storage)
      ensures message.text.accuracy == TotalAccuracy(statisticService.storage)
    {
      var bestGame := BestGame(statisticService.storage, now);
      QuizResultsViewModel(
        RoundOverTitle,
        ResultsText(ResultLineFor(correctAnswers), GamesCount(statisticService.storage),
                    Fraction(bestGame.correct, QuestionsAmount), bestGame.date,
                    TotalAccuracy(statisticService.storage)),
        PlayAgainButtonText)
    }
  }

  /** The view controller's `showAnswerResult(isCorrect:)`, with the review delay
      collapsed: the answer is counted first, then the presenter advances. */
  method ShowAnswerResult(presenter: MovieQuizPresenter, isCorrect: bool, now: Date) returns (results: Option<QuizResultsViewModel>)
    modifies presenter, presenter.statisticService
    ensures presenter.Abstract() == Turn(old(presenter.Abstract()), isCorrect)
    ensures presenter.correctAnswers == old(presenter.correctAnswers) + (if isCorrect then 1 else 0)
    ensures old(presenter.IsLastQuestion()) ==>
      && presenter.statisticService.storage
         == Stored(old(presenter.statisticService.storage), GameResult(presenter.correctAnswers, QuestionsAmount, now))
      && results == Some(presenter.MakeResultsMessage(now))
    ensures !old(presenter.IsLastQuestion()) ==>
      && presenter.statisticService.storage == old(presenter.statisticService.storage)
      && results == None
  {
    presenter.DidAnswer(isCorrect);
    results := presenter.ShowNextQuestionOrResults(now);
  }
}
