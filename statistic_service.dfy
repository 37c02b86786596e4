/** The lifetime statistics kept in the user's defaults store: games played, the
    running number of correct answers, questions asked, and the best game so far. */
module Statistics {

  import opened Wrappers
  import opened Models

  /** The raw names of the service's six keys. */
  const OwnKeyNames: set<string> :=
    {"gamesCount", "bestGameCorrect", "bestGameTotal", "bestGameDate", "totalCorrectAnswers", "totalQuestionsAsked"}

  /** A key name that other code uses in the same store: never one of the service's own. */
  type ForeignName = name: string | name !in OwnKeyNames witness ""

  /** The six keys the service writes, and any key other code keeps in the same store. */
  datatype Key =
    | GamesCountKey
    | BestGameCorrectKey
    | BestGameTotalKey
    | BestGameDateKey
    | TotalCorrectAnswersKey
    | TotalQuestionsAskedKey
    | Other(name: ForeignName)

  /** What the store holds under a key: an integer or a date. */
  datatype Value = IntValue(n: int) | DateValue(date: Date)

  /** The defaults store, in memory. */
  type Storage = map<Key, Value>

  const BestGameKeys: set<Key> := {BestGameCorrectKey, BestGameTotalKey, BestGameDateKey}

  const OwnKeys: set<Key> := BestGameKeys + {GamesCountKey, TotalCorrectAnswersKey, TotalQuestionsAskedKey}

  function Max(a: int, b: int): int
  {
    if a < b then b else a
  }

  /** `integer(forKey:)`: the integer stored under `key`, and 0 when there is none. */
  function IntegerFor(s: Storage, key: Key): int
  {
    if key in s && s[key].IntValue? then s[key].n else 0
  }

  /** `object(forKey:) as? Date` */
  function DateFor(s: Storage, key: Key): Option<Date>
  {
    if key in s && s[key].DateValue? then Some(s[key].date) else None
  }

  /** The entries of `s` under the three best-game keys, and nothing else. */
  function BestGameEntries(s: Storage): Storage
  {
    s - (s.Keys - BestGameKeys)
  }

  // ----- The read accessors -----

  /** The `gamesCount` getter: the stored counter, 0 before the first game. */
  function GamesCount(s: Storage): (n: int)
    ensures GamesCountKey !in s ==> n == 0
    ensures GamesCountKey in s && s[GamesCountKey].IntValue? ==> n == s[GamesCountKey].n
  {
    IntegerFor(s, GamesCountKey)
  }

  /** The `bestGame` getter. `now` is what `Date()` gives while the getter runs: it
      stands in for the date when none is stored. */
  function BestGame(s: Storage, now: Date): (game: GameResult)
    ensures game.correct == IntegerFor(s, BestGameCorrectKey) && game.total == IntegerFor(s, BestGameTotalKey)
    ensures BestGameCorrectKey !in s ==> game.correct == 0
    ensures DateFor(s, BestGameDateKey).Some? ==> game.date == DateFor(s, BestGameDateKey).value
    ensures DateFor(s, BestGameDateKey).None? ==> game.date == now
  {
    GameResult(IntegerFor(s, BestGameCorrectKey), IntegerFor(s, BestGameTotalKey),
               match DateFor(s, BestGameDateKey) case Some(d) => d case None => now)
  }

  /** The `totalCorrectAnswers` getter: the stored sum, 0 before the first game. */
  function TotalCorrectAnswers(s: Storage): (n: int)
    ensures TotalCorrectAnswersKey !in s ==> n == 0
    ensures TotalCorrectAnswersKey in s && s[TotalCorrectAnswersKey].IntValue? ==> n == s[TotalCorrectAnswersKey].n
  {
    IntegerFor(s, TotalCorrectAnswersKey)
  }

  /** The `totalQuestionsAsked` getter reads the games counter, not the key its setter writes. */
  function TotalQuestionsAsked(s: Storage): (n: int)
    ensures n == GamesCount(s) * 10
    ensures GamesCountKey !in s ==> n == 0
  {
    IntegerFor(s, GamesCountKey) * 10
  }

  /** Correct answers as a percentage of questions asked; 0 before any question was asked. */
  function TotalAccuracy(s: Storage): (r: real)
    ensures TotalQuestionsAsked(s) <= 0 ==> r == 0.0
    ensures TotalQuestionsAsked(s) > 0 ==> r * TotalQuestionsAsked(s) as real == TotalCorrectAnswers(s) as real * 100.0
  {
    if TotalQuestionsAsked(s) > 0 then
      (TotalCorrectAnswers(s) as real / TotalQuestionsAsked(s) as real) * 100.0
    else
      0.0
  }

  /** Whatever the `totalQuestionsAsked` setter writes, the getter does not see it. */
  lemma TotalQuestionsAskedIgnoresItsKey(s: Storage, v: Value)
    ensures TotalQuestionsAsked(s[TotalQuestionsAskedKey := v]) == TotalQuestionsAsked(s)
    ensures TotalQuestionsAsked(s) == GamesCount(s) * 10
  {
  }

  // ----- The writes -----

  /** The three writes of the `bestGame` setter. */
  function WithBestGame(s: Storage, game: GameResult): (t: Storage)
    ensures forall now :: BestGame(t, now) == game
    ensures t - BestGameKeys == s - BestGameKeys
  {
    s[BestGameCorrectKey := IntValue(game.correct)]
     [BestGameTotalKey := IntValue(game.total)]
     [BestGameDateKey := DateValue(game.date)]
  }

  /** Two stores that agree on the best-game keys give the same best game. */
  lemma SameEntriesSameBestGame(s: Storage, t: Storage, now: Date)
    requires BestGameEntries(s) == BestGameEntries(t)
    ensures BestGame(s, now) == BestGame(t, now)
  {
    forall k | k in BestGameKeys
      ensures (k in s <==> k in t) && (k in s ==> s[k] == t[k])
    {
      assert k in s <==> k in BestGameEntries(s);
      assert k in t <==> k in BestGameEntries(t);
    }
  }

  /** `store(correct: game.correct, total: game.total)` while `Date()` gives `game.date`:
      the counter goes up by one, the correct answers by `game.correct`, the unread key
      receives the getter's value plus `game.total`, and the game becomes the best game
      only if it beats the stored one. */
  function Stored(s: Storage, game: GameResult): (t: Storage)
    ensures GamesCount(t) == GamesCount(s) + 1
    ensures TotalCorrectAnswers(t) == TotalCorrectAnswers(s) + game.correct
    ensures IntegerFor(t, TotalQuestionsAskedKey) == GamesCount(t) * 10 + game.total
    ensures IsBetterThan(game, BestGame(s, game.date)) ==> forall now :: BestGame(t, now) == game
    ensures !IsBetterThan(game, BestGame(s, game.date)) ==> BestGameEntries(t) == BestGameEntries(s)
    ensures BestGame(t, game.date).correct == Max(BestGame(s, game.date).correct, game.correct)
    ensures t - OwnKeys == s - OwnKeys
  {
    var afterGames := s[GamesCountKey := IntValue(GamesCount(s) + 1)];
    var afterCorrect := afterGames[TotalCorrectAnswersKey := IntValue(TotalCorrectAnswers(afterGames) + game.correct)];
    var afterAsked := afterCorrect[TotalQuestionsAskedKey := IntValue(TotalQuestionsAsked(afterCorrect) + game.total)];
    assert BestGameEntries(afterAsked) == BestGameEntries(s);
    if game.correct > BestGame(afterAsked, game.date).correct then WithBestGame(afterAsked, game) else afterAsked
  }

  /** The replacement test inside `store` is `isBetterThan` against the stored best game. */
  lemma StoreTestIsIsBetterThan(s: Storage, game: GameResult)
    ensures BestGame(Stored(s, game), game.date) == game <== IsBetterThan(game, BestGame(s, game.date))
    ensures BestGame(Stored(s, game), game.date) == BestGame(s, game.date) <== !IsBetterThan(game, BestGame(s, game.date))
  {
  }

  // ----- Several rounds -----

  /** The storage after storing each game in turn, oldest first. */
  function StoredAll(s: Storage, games: seq<GameResult>): Storage
    decreases |games|
  {
    if games == [] then s else StoredAll(Stored(s, games[0]), games[1..])
  }

  function SumCorrect(games: seq<GameResult>): int
  {
    if games == [] then 0 else games[0].correct + SumCorrect(games[1..])
  }

  /** After storing `games`, the counter has gone up by their number, the correct answers
      by their sum, and no key outside the service's own has changed. */
  lemma {:induction false} StoredAllCounters(s: Storage, games: seq<GameResult>)
    ensures GamesCount(StoredAll(s, games)) == GamesCount(s) + |games|
    ensures TotalQuestionsAsked(StoredAll(s, games)) == (GamesCount(s) + |games|) * 10
    ensures TotalCorrectAnswers(StoredAll(s, games)) == TotalCorrectAnswers(s) + SumCorrect(games)
    ensures StoredAll(s, games) - OwnKeys == s - OwnKeys
    decreases |games|
  {
    if games != [] {
      StoredAllCounters(Stored(s, games[0]), games[1..]);
    }
  }

  /** `games[j]` has the most correct answers of all, and every earlier game has fewer. */
  ghost predicate IsFirstBest(games: seq<GameResult>, j: int)
  {
    && 0 <= j < |games|
    && (forall k | 0 <= k < |games| :: games[k].correct <= games[j].correct)
    && (forall k | 0 <= k < j :: games[k].correct < games[j].correct)
  }

  /** After storing `games`, the best game is the stored one when no game beats it, and
      otherwise the earliest game with the highest score: ties keep the older record. */
  lemma {:induction false} StoredAllKeepsFirstBest(s: Storage, games: seq<GameResult>, now: Date)
    ensures var t := StoredAll(s, games);
      if forall k | 0 <= k < |games| :: games[k].correct <= BestGame(s, now).correct
      then BestGameEntries(t) == BestGameEntries(s)
      else exists j :: IsFirstBest(games, j) && games[j].correct > BestGame(s, now).correct && BestGame(t, now) == games[j]
    decreases |games|
  {
    if games != [] {
      var g, rest := games[0], games[1..];
      var s' := Stored(s, g);
      var t := StoredAll(s', rest);
      var b := BestGame(s, now).correct;
      assert BestGame(s, g.date).correct == b;
      assert BestGame(s', now).correct == Max(b, g.correct) by {
        assert BestGame(s', g.date).correct == BestGame(s', now).correct;
      }
      StoredAllKeepsFirstBest(s', rest, now);
      assert t == StoredAll(s, games);
      if forall k | 0 <= k < |rest| :: rest[k].correct <= BestGame(s', now).correct {
        if g.correct > b {
          SameEntriesSameBestGame(t, s', now);
          assert BestGame(t, now) == g;
          forall k | 0 <= k < |games|
            ensures games[k].correct <= g.correct
          {
            if k > 0 { assert games[k] == rest[k - 1]; }
          }
          assert IsFirstBest(games, 0);
        } else {
          SameEntriesSameBestGame(s', s, g.date);
          forall k | 0 <= k < |games|
            ensures games[k].correct <= b
          {
            if k > 0 { assert games[k] == rest[k - 1]; }
          }
        }
      } else {
        var j' :| IsFirstBest(rest, j') && rest[j'].correct > BestGame(s', now).correct && BestGame(t, now) == rest[j'];
        assert games[j' + 1] == rest[j'];
        forall k | 0 <= k < |games|
          ensures games[k].correct <= games[j' + 1].correct
          ensures k < j' + 1 ==> games[k].correct < games[j' + 1].correct
        {
          if k > 0 { assert games[k] == rest[k - 1]; }
        }
        assert IsFirstBest(games, j' + 1);
      }
    }
  }

  /** Correct answers never exceed the questions the getter reports, and nothing is negative. */
  ghost predicate Consistent(s: Storage)
  {
    0 <= GamesCount(s) && 0 <= TotalCorrectAnswers(s) <= TotalQuestionsAsked(s)
  }

  /** While every stored round has between 0 and 10 correct answers, the store stays consistent. */
  lemma {:induction false} StoredAllKeepsConsistent(s: Storage, games: seq<GameResult>)
    requires Consistent(s)
    requires forall k | 0 <= k < |games| :: 0 <= games[k].correct <= 10
    ensures Consistent(StoredAll(s, games))
    decreases |games|
  {
    if games != [] {
      StoredAllKeepsConsistent(Stored(s, games[0]), games[1..]);
    }
  }

  /** In a consistent store the accuracy is a percentage. */
  lemma AccuracyIsPercentage(s: Storage)
    requires Consistent(s)
    ensures 0.0 <= TotalAccuracy(s) <= 100.0
  {
    if TotalQuestionsAsked(s) > 0 {
      var c, q := TotalCorrectAnswers(s) as real, TotalQuestionsAsked(s) as real;
      assert 0.0 <= c <= q;
      assert 0.0 <= c / q <= 1.0;
      assert TotalAccuracy(s) == (c / q) * 100.0;
    }
  }

  /** From an empty store: accuracy starts at 0; a perfect round and then a 7 of 10 round
      give two games, 85 percent, and the perfect round as best game. Two rounds with the
      same score keep the first as best game. */
  lemma TwoRoundsFromEmpty(d1: Date, d2: Date, now: Date)
    ensures TotalAccuracy(map[]) == 0.0
    ensures var t := StoredAll(map[], [GameResult(10, 10, d1), GameResult(7, 10, d2)]);
      GamesCount(t) == 2 && TotalAccuracy(t) == 85.0 && BestGame(t, now) == GameResult(10, 10, d1)
    ensures BestGame(StoredAll(map[], [GameResult(7, 10, d1), GameResult(7, 10, d2)]), now) == GameResult(7, 10, d1)
  {
    var g1, g2 := GameResult(10, 10, d1), GameResult(7, 10, d2);
    var s1 := Stored(map[], g1);
    var t := Stored(s1, g2);
    assert StoredAll(map[], [g1, g2]) == t by {
      assert [g1, g2][1..] == [g2];
      assert StoredAll(s1, [g2]) == StoredAll(Stored(s1, g2), []);
    }
    SameEntriesSameBestGame(t, s1, now);
    assert TotalCorrectAnswers(t) == 17;
    assert TotalQuestionsAsked(t) == 20;
    var h1, h2 := GameResult(7, 10, d1), GameResult(7, 10, d2);
    var u1 := Stored(map[], h1);
    var u := Stored(u1, h2);
    assert StoredAll(map[], [h1, h2]) == u by {
      assert [h1, h2][1..] == [h2];
      assert StoredAll(u1, [h2]) == StoredAll(Stored(u1, h2), []);
    }
    SameEntriesSameBestGame(u, u1, now);
  }

  /** The service object: the store it writes and, as a ghost, every `store` call it received. */
  class StatisticService {
    var storage: Storage
    /** The (correct, total) arguments of every `store` call so far, oldest first. */
    ghost var log: seq<(int, int)>

    constructor (storage: Storage)
      ensures this.storage == storage && log == []
    {
      this.storage := storage;
      log := [];
    }

    method SetGamesCount(newValue: int)
      modifies this
      ensures storage == old(storage)[GamesCountKey := IntValue(newValue)]
      ensures GamesCount(storage) == newValue
      ensures log == old(log)
    {
      storage := storage[GamesCountKey := IntValue(newValue)];
    }

    /** The `bestGame` setter: reading the best game back gives `newValue`. */
    method SetBestGame(newValue: GameResult)
      modifies this
      ensures storage == WithBestGame(old(storage), newValue)
      ensures forall now :: BestGame(storage, now) == newValue
      ensures log == old(log)
    {
      storage := storage[BestGameCorrectKey := IntValue(newValue.correct)];
      storage := storage[BestGameTotalKey := IntValue(newValue.total)];
      storage := storage[BestGameDateKey := DateValue(newValue.date)];
    }

    method SetTotalCorrectAnswers(newValue: int)
      modifies this
      ensures storage == old(storage)[TotalCorrectAnswersKey := IntValue(newValue)]
      ensures TotalCorrectAnswers(storage) == newValue
      ensures log == old(log)
    {
      storage := storage[TotalCorrectAnswersKey := IntValue(newValue)];
    }

    /** The `totalQuestionsAsked` setter writes a key the getter never reads. */
    method SetTotalQuestionsAsked(newValue: int)
      modifies this
      ensures storage == old(storage)[TotalQuestionsAskedKey := IntValue(newValue)]
      ensures TotalQuestionsAsked(storage) == old(TotalQuestionsAsked(storage))
      ensures log == old(log)
    {
      storage := storage[TotalQuestionsAskedKey := IntValue(newValue)];
    }

    /** `store(correct:total:)`, with `now` standing for `Date()`. */
    method Store(count: int, amount: int, now: Date)
      modifies this
      ensures storage == Stored(old(storage), GameResult(count, amount, now))
      ensures GamesCount(storage) == old(GamesCount(storage)) + 1
      ensures TotalCorrectAnswers(storage) == old(TotalCorrectAnswers(storage)) + count
      ensures BestGame(storage, now).correct == Max(old(BestGame(storage, now).correct), count)
      ensures storage - OwnKeys == old(storage) - OwnKeys
      ensures log == old(log) + [(count, amount)]
    {
      SetGamesCount(GamesCount(storage) + 1);
      SetTotalCorrectAnswers(TotalCorrectAnswers(storage) + count);
      SetTotalQuestionsAsked(TotalQuestionsAsked(storage) + amount);
      var currentGame := GameResult(count, amount, now);
      if currentGame.correct > BestGame(storage, now).correct {
        SetBestGame(currentGame);
      }
      log := log + [(count, amount)];
    }
  }
}
