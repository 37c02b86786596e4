# MovieQuiz round logic and lifetime statistics, in Dafny

MovieQuiz is a small iOS quiz. A round has ten yes/no questions. The presenter
(`MovieQuizPresenter`) does three things:

- it counts the right answers;
- it moves from question to question;
- on the last question it records the round with the statistics service and builds the results message.

The statistics service (`StatisticService`) keeps lifetime figures in the user's defaults store:

- games played;
- cumulative correct answers;
- questions asked;
- the best game.

This project models those two components and the `GameResult` comparison they share.

Modules:

- `Wrappers` (`wrappers.dfy`): Swift's `Optional` as `Option`.
- `Models` (`models.dfy`): `QuizQuestion`, `GameResult`, an abstract `Date`, and `IsBetterThan` with its order properties.
- `Statistics` (`statistic_service.dfy`):
  - The defaults store is a `map<Key, Value>`. The six keys of the service sit beside `Other(name)` keys that belong to the rest of the app. A value is an integer or a date.
  - The getters are functions of that map.
  - The class `StatisticService` holds the map. Its setters and `Store` update it in place.
  - A ghost `log` lists every `(correct, total)` pair that `Store` received.
  - `Stored` specifies one `store` call; `StoredAll` specifies a series of calls.
- `Presentation` (`movie_quiz_presenter.dfy`):
  - The class `MovieQuizPresenter` has the three fields the source updates in place (`currentQuestion`, `correctAnswers`, `currentQuestionIndex`) and the injected statistics service.
  - Each method is tied to a pure transition on the value `Round` through `Abstract()`.
  - Lemmas over `Play` cover whole rounds. `Play` is a series of answers, each followed by its advance.
  - `ShowAnswerResult` models the order in which the view controller calls the presenter. It first counts the answer and then, after the review delay, advances.

Points where the code is followed as written:

- `totalQuestionsAsked` reads `gamesCount * 10`; its setter writes a key that nothing reads. Inside `store`, `totalQuestionsAsked += amount` runs after the games counter was bumped, so the unread key receives `(games + 1) * 10 + amount`. Accuracy therefore always divides by ten questions per game, whatever `amount` was. `Stored` states both facts.
- `totalQuestionsAsked` is not the sum of the totals passed to `store`.
- A first game with 0 correct answers does not replace the empty record, whose score reads as 0. `StoredAllKeepsFirstBest` covers this case.
- The code has no state machine and no guard against a second answer. A tap is judged whenever a question is present; each judged answer counts and advances. After the last question every further answer records the round again (`PlayAnyLength`). So `correctAnswers` can exceed 10, and a round with 11 right answers out of 10 can be stored (`ElevenRightAnswersRecordTwice`). Such a round is outside the hypothesis of `StoredAllKeepsConsistent`, and the accuracy can then exceed 100.
- Keys that other code keeps in the same store (`Other`) never carry one of the service's six raw key names, so they cannot alias the service's keys.

## Model

| member | source | states |
|---|---|---|
| `Models.IsBetterThan` | MovieQuiz/Models/GameResult.swift:14-16 | a result beats another exactly when it has more correct answers |
| `Models.IsBetterThanIsStrictOrder` | MovieQuiz/Models/GameResult.swift:14-16 | `isBetterThan` is irreflexive, asymmetric and transitive |
| `Models.IsBetterThanLooksOnlyAtCorrect` | MovieQuiz/Models/GameResult.swift:14-16 | only `correct` is compared: results with equal `correct` never beat each other, `total` and `date` do not change the outcome, and any two results are comparable or tied |
| `Statistics.GamesCount` | MovieQuiz/Services/StatisticService.swift:15-18 | the `gamesCount` getter reads the stored counter, and 0 when the key is missing |
| `Statistics.BestGame` | MovieQuiz/Services/StatisticService.swift:24-31 | the `bestGame` getter reads correct and total from their keys (0 when missing), and the stored date, or the current time `now` when no date is stored |
| `Statistics.TotalCorrectAnswers` | MovieQuiz/Services/StatisticService.swift:39-42 | the `totalCorrectAnswers` getter reads the stored sum, and 0 when the key is missing |
| `Statistics.TotalQuestionsAsked` | MovieQuiz/Services/StatisticService.swift:48-51 | the `totalQuestionsAsked` getter is `gamesCount * 10`, and 0 before the first game |
| `Statistics.TotalAccuracy` | MovieQuiz/Services/StatisticService.swift:57-60 | accuracy is 0 when no question was asked; otherwise accuracy times questions asked equals correct answers times 100 |
| `Statistics.TotalQuestionsAskedIgnoresItsKey` | MovieQuiz/Services/StatisticService.swift:48-55 | the `totalQuestionsAsked` getter is `gamesCount * 10` and does not see what its setter writes |
| `Statistics.WithBestGame` | MovieQuiz/Services/StatisticService.swift:24-37 | after the `bestGame` setter, the getter gives back the same correct, total and date, and no other key changes |
| `Statistics.SameEntriesSameBestGame` | MovieQuiz/Services/StatisticService.swift:25-30 | the `bestGame` getter depends only on the three best-game keys |
| `Statistics.Stored` | MovieQuiz/Services/StatisticService.swift:62-71 | one `store`: games +1; correct answers + count; the unread key gets `games * 10 + amount`; the best game becomes the new game only when it beats the old one (otherwise its three keys stay); the best score becomes max(old, count); keys outside the service's own are unchanged |
| `Statistics.StoreTestIsIsBetterThan` | MovieQuiz/Services/StatisticService.swift:68 | the replacement test in `store` is `currentGame.isBetterThan(bestGame)` |
| `Statistics.StoredAllCounters` | MovieQuiz/Services/StatisticService.swift:62-66 | after n stores: games + n; questions asked read as (games + n) * 10; correct answers + their sum; no foreign key changes |
| `Statistics.StoredAllKeepsFirstBest` | MovieQuiz/Services/StatisticService.swift:67-70 | after a series of stores the best game is the old one when no game beat it; otherwise it is the earliest game with the highest score (ties keep the older record) |
| `Statistics.StoredAllKeepsConsistent` | MovieQuiz/Services/StatisticService.swift:62-66 | while each stored round has 0 to 10 correct answers, 0 ≤ correct answers ≤ questions asked stays true |
| `Statistics.AccuracyIsPercentage` | MovieQuiz/Services/StatisticService.swift:57-60 | in such a store the accuracy lies between 0 and 100 |
| `Statistics.TwoRoundsFromEmpty` | MovieQuiz/Services/StatisticService.swift:57-71 | from an empty store: accuracy 0; after rounds of 10 and 7 correct answers: 2 games, 85 percent, and the first round as best game; of two rounds with the same score the first stays best |
| `Statistics.StatisticService.constructor` | MovieQuiz/Services/StatisticService.swift:4 | the service starts on the given defaults store with an empty log |
| `Statistics.StatisticService.SetGamesCount` | MovieQuiz/Services/StatisticService.swift:19-21 | writes the games counter only; the getter reads the new value |
| `Statistics.StatisticService.SetBestGame` | MovieQuiz/Services/StatisticService.swift:32-36 | writes the three best-game keys; the getter then returns the value that was set |
| `Statistics.StatisticService.SetTotalCorrectAnswers` | MovieQuiz/Services/StatisticService.swift:43-45 | writes the correct-answers key only; the getter reads the new value |
| `Statistics.StatisticService.SetTotalQuestionsAsked` | MovieQuiz/Services/StatisticService.swift:52-54 | writes the questions-asked key; the value read as `totalQuestionsAsked` is unchanged |
| `Statistics.StatisticService.Store` | MovieQuiz/Services/StatisticService.swift:62-71 | the new storage is `Stored` of the old one: games +1, correct + count, best score = max(old, count), foreign keys untouched; the log gains exactly `(count, amount)` |
| `Presentation.ResultLineFor` | MovieQuiz/Presentation/MovieQuizPresenter.swift:82 | the congratulation exactly when `correctAnswers == questionsAmount`; otherwise the score `correctAnswers/questionsAmount` |
| `Presentation.CountTrue` | MovieQuiz/Presentation/MovieQuizPresenter.swift:33-35 | the number of right answers never exceeds the number of answers |
| `Presentation.CountTrueIsMultiplicity` | MovieQuiz/Presentation/MovieQuizPresenter.swift:33-35 | the count of right answers is the multiplicity of `true` among the verdicts |
| `Presentation.CountTrueAllRight` | MovieQuiz/Presentation/MovieQuizPresenter.swift:82 | all answers count exactly when every answer was right |
| `Presentation.AnsweredAllCounts` | MovieQuiz/Presentation/MovieQuizPresenter.swift:33-35 | after a series of answers, `correctAnswers` is its start value plus the number of right ones, and nothing else changes |
| `Presentation.PlayWithinRound` | MovieQuiz/Presentation/MovieQuizPresenter.swift:65-75 | before the last question each answer and advance raises the index by exactly 1, counts right answers and records nothing |
| `Presentation.PlayToRoundEnd` | MovieQuiz/Presentation/MovieQuizPresenter.swift:65-75 | playing through the last question records `(correct, 10)` exactly once and leaves the index on 9 |
| `Presentation.ReachingLastQuestion` | MovieQuiz/Presentation/MovieQuizPresenter.swift:13-23 | from index 0, k < 10 advances keep the index in 0..9 and equal to k; the question is the last exactly when k = 9; the count of right answers ≤ the index; nothing is recorded |
| `Presentation.PlayAnyLength` | MovieQuiz/Presentation/MovieQuizPresenter.swift:65-75 | after any number of turns from index i in 0..9: the index is min(i + turns, 9); every right answer counts; the earlier records stay; one more record is added for each turn taken on the last question, i.e. max(0, i + turns - 9) |
| `Presentation.ElevenRightAnswersRecordTwice` | MovieQuiz/Presentation/MovieQuizPresenter.swift:65-75 | eleven right answers from the start store `(10, 10)` and then `(11, 10)`: nothing stops a finished round |
| `Presentation.FullRoundStoresOnce` | MovieQuiz/Presentation/MovieQuizPresenter.swift:65-82 | a full round from the start stores exactly one game with the number of right answers out of 10; the results line congratulates exactly when all ten were right |
| `Presentation.MovieQuizPresenter.constructor` | MovieQuiz/Presentation/MovieQuizPresenter.swift:5-11 | no question, no right answers, index 0, the given statistics service |
| `Presentation.MovieQuizPresenter.IsLastQuestion` | MovieQuiz/Presentation/MovieQuizPresenter.swift:13-15 | true exactly when the index is `questionsAmount - 1` = 9 |
| `Presentation.MovieQuizPresenter.ResetQuestionIndex` | MovieQuiz/Presentation/MovieQuizPresenter.swift:17-19 | the index becomes 0; the question and the count are untouched |
| `Presentation.MovieQuizPresenter.SwitchToNextQuestion` | MovieQuiz/Presentation/MovieQuizPresenter.swift:21-23 | the index rises by exactly 1; the question and the count are untouched |
| `Presentation.MovieQuizPresenter.Convert` | MovieQuiz/Presentation/MovieQuizPresenter.swift:25-31 | the step shows the question's text and exactly the label `index+1/questionsAmount`; the label's number is 1..10 exactly while the index is 0..9 |
| `Presentation.MovieQuizPresenter.DidAnswer` | MovieQuiz/Presentation/MovieQuizPresenter.swift:33-35 | a right answer adds 1 to `correctAnswers`; a wrong one changes nothing; the other fields are untouched |
| `Presentation.MovieQuizPresenter.DidAnswerYesNo` | MovieQuiz/Presentation/MovieQuizPresenter.swift:37-43 | with no current question the tap has no effect; otherwise the verdict is right exactly when the tap equals the question's answer |
| `Presentation.MovieQuizPresenter.YesButtonClicked` | MovieQuiz/Presentation/MovieQuizPresenter.swift:45-47 | a yes tap is judged only while a question is shown, and it is right exactly when the answer is yes |
| `Presentation.MovieQuizPresenter.NoButtonClicked` | MovieQuiz/Presentation/MovieQuizPresenter.swift:49-51 | a no tap is judged only while a question is shown, and it is right exactly when the answer is no |
| `Presentation.MovieQuizPresenter.DidReceiveNextQuestion` | MovieQuiz/Presentation/MovieQuizPresenter.swift:53-63 | a missing question leaves `currentQuestion` as it was and shows nothing; a present one replaces it and its step is shown; the count and the index are untouched |
| `Presentation.MovieQuizPresenter.ShowNextQuestionOrResults` | MovieQuiz/Presentation/MovieQuizPresenter.swift:65-75 | on the last question: `store(correctAnswers, 10)` is called exactly once, the index stays, and the results message is shown. Otherwise: the index rises by 1, storage is untouched and nothing is recorded |
| `Presentation.MovieQuizPresenter.MakeResultsMessage` | MovieQuiz/Presentation/MovieQuizPresenter.swift:77-92 | the congratulation exactly for a perfect round; the record is the best score over `questionsAmount`, not over the best game's total, with the best game's date; games played and accuracy come from the store |
| `Presentation.ShowAnswerResult` | MovieQuiz/Presentation/MovieQuizViewController.swift:98-109 | the view controller counts the answer, then advances: the round makes one `Turn`. On the last question the store becomes `Stored` with the updated count out of 10, and the results message is returned. Otherwise the store is unchanged and nothing is returned |

## Left out

- User interface: `MovieQuizViewController`'s outlets, image borders, loading indicator and button enabling; `AlertPresenter`; and the view protocol. What the presenter hands to the view is returned as a value instead: the verdict, the step screen and the results message.
- The one-second `Timer` and the `DispatchQueue.main.async` hop are scheduling only. The advance is an ordinary call that follows the answer.
- `UIImage(data:)` decoding in `convert` calls a foreign library. The step screen carries no image.
- `String(format: "%.2f%%")` and `dateTimeString` are floating-point and date formatting. The results text is a record of its fields, with accuracy as an exact `real` instead of a `Double`.
- `Date()` reads the clock. It becomes a `now` parameter, and `Date` is an opaque value.
- `UserDefaults` and its persistence across launches are foreign. The store is an in-memory map, and `integer(forKey:)` returns 0 for a missing key or a non-integer value.
- `questionFactory` (`requestNextQuestion`), `restartGame` and the presenter's initialiser with a view controller are not part of this model, because their source is not available. `disableButtons(false)` is a view call to a method the view does not define. After an advance, the model records nothing about the next question being requested.
- The presenter builds its own `StatisticService()` on the standard defaults store (MovieQuiz/Presentation/MovieQuizPresenter.swift:9). Here the service is passed to the constructor, so the model does not say which store the service uses, and it does not say that two presenters would share it.
- `TotalAccuracy`, `Stored`, `Store`, `DidAnswer`, `SwitchToNextQuestion`: Swift `Int` traps on overflow past 2^63 - 1. Here the counters are unbounded integers, so the model does not capture that trap.
- `CountTrue`, `Play`, `AnsweredAll`: a tap that arrives while no question is present has no effect, so series of answers are written as their verdicts. Which question each verdict came from is tied in only by `DidAnswerYesNo`.
