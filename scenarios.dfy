/**
 * Rounds played from start to finish against the game's contracts alone, with
 * the scoring constants 6 misses, 10 points per letter, a hint penalty of 25, 5
 * points per remaining attempt and 50 for not using the hint.
 */
module Scenarios {

  import opened Wrappers
  import opened Board
  import opened Scores
  import opened Hangman

  const EXAMPLE_CONFIG := GameConfig(6, 10, 25, 5, 50)

  /** A guess of a new letter that is not in the word and leaves the round on. */
  method Miss(game: HangmanGame, c: char)
    requires game.Valid() && game.gameActive && c !in game.usedLetters && c !in game.currentWord
    requires game.wrongGuesses + 1 < game.config.maxWrongGuesses
    modifies game, game.guessedWord
    ensures game.Valid() && game.gameActive && game.guessedWord == old(game.guessedWord)
    ensures game.wrongGuesses == old(game.wrongGuesses) + 1 && game.usedLetters == old(game.usedLetters) + {c}
    ensures game.currentWord == old(game.currentWord) && game.currentHint == old(game.currentHint)
    ensures game.currentCategory == old(game.currentCategory) && game.hintUsed == old(game.hintUsed)
    ensures game.currentScore == old(game.currentScore) && game.scores == old(game.scores)
  {
    var part, summary := game.GuessLetter(c);
  }

  /** A guess of a new letter of the word that leaves some position still hidden. */
  method Hit(game: HangmanGame, c: char, hidden: nat)
    requires game.Valid() && game.gameActive && c !in game.usedLetters && c in game.currentWord
    requires hidden < |game.currentWord| && game.currentWord[hidden] !in game.usedLetters + {c}
    modifies game, game.guessedWord
    ensures game.Valid() && game.gameActive && game.guessedWord == old(game.guessedWord)
    ensures game.wrongGuesses == old(game.wrongGuesses) && game.usedLetters == old(game.usedLetters) + {c}
    ensures game.currentWord == old(game.currentWord) && game.currentHint == old(game.currentHint)
    ensures game.currentCategory == old(game.currentCategory) && game.hintUsed == old(game.hintUsed)
    ensures game.currentScore == old(game.currentScore) + Occurrences(game.currentWord, c) * game.config.pointsPerCorrectLetter
    ensures game.scores == old(game.scores)
  {
    var part, summary := game.GuessLetter(c);
    assert game.guessedWord[..][hidden] == PLACEHOLDER;
  }

  /** "GATO" in category "Animales" with G, A and T guessed: 30 points, no miss, no hint, O still hidden. */
  method GatoThreeLetters() returns (game: HangmanGame)
    ensures fresh(game) && fresh(game.guessedWord)
    ensures game.Valid() && game.gameActive && game.config == EXAMPLE_CONFIG
    ensures game.currentWord == "GATO" && game.currentCategory == "Animales"
    ensures game.usedLetters == {'G', 'A', 'T'} && game.wrongGuesses == 0 && !game.hintUsed
    ensures game.currentScore == 30 && game.scores == map[]
  {
    game := new HangmanGame(EXAMPLE_CONFIG, map[]);
    var status := game.SelectCategory("Animales", Some(WordEntry("GATO", "Felino doméstico")));
    assert "GATO"[0] == 'G' && "GATO"[1] == 'A' && "GATO"[2] == 'T' && "GATO"[3] == 'O';
    Hit(game, 'G', 3);
    Hit(game, 'A', 3);
    Hit(game, 'T', 3);
  }

  /**
   * "GATO" guessed letter by letter with no miss and no hint: 40 letter points, 30
   * for the six remaining attempts, 50 for the unused hint, 120 in all, and the
   * round is counted as won in its category.
   */
  method GatoScenario() returns (summary: Option<RoundSummary>, stats: map<string, CategoryStats>)
    ensures summary == Some(Won("GATO", 40, 30, 50, false, 120))
    ensures stats == map["Animales" := CategoryStats(120, 1, 1, 120)]
  {
    var game := GatoThreeLetters();
    assert "GATO"[3] == 'O';
    var part;
    part, summary := game.GuessLetter('O');
    assert game.usedLetters == {'G', 'A', 'T', 'O'};
    assert game.guessedWord[..] == Masked("GATO", {'G', 'A', 'T', 'O'});
    MaskedComplete("GATO", {'G', 'A', 'T', 'O'});
    assert game.currentScore == 120;
    assert RoundedAverage(120, 1) == 120;
    stats := game.scores;
  }

  /**
   * "SOL" with six letters that are not in it: the round is lost on the sixth
   * miss, the whole word is shown, and with no points the round is not counted
   * as won.
   */
  method SolScenario() returns (summary: Option<RoundSummary>, shown: seq<char>, stats: map<string, CategoryStats>)
    ensures summary == Some(Lost("SOL", "Estrella", 6, 0))
    ensures shown == "SOL"
    ensures stats == map["Astros" := CategoryStats(0, 1, 0, 0)]
  {
    var game := new HangmanGame(EXAMPLE_CONFIG, map[]);
    var status := game.SelectCategory("Astros", Some(WordEntry("SOL", "Estrella")));
    Miss(game, 'A');
    Miss(game, 'B');
    Miss(game, 'C');
    Miss(game, 'D');
    Miss(game, 'E');
    assert game.wrongGuesses == 5 && 'F' !in game.usedLetters;
    var part;
    part, summary := game.GuessLetter('F');
    shown := game.guessedWord[..];
    stats := game.scores;
  }

  /** "SOL" in category "Astros" with its 'S' found: 10 points, no miss, no hint, O and L still hidden. */
  method SolWithS() returns (game: HangmanGame)
    ensures fresh(game) && fresh(game.guessedWord)
    ensures game.Valid() && game.gameActive && game.config == EXAMPLE_CONFIG
    ensures game.currentWord == "SOL" && game.currentHint == "Estrella" && game.currentCategory == "Astros"
    ensures game.usedLetters == {'S'} && game.wrongGuesses == 0 && !game.hintUsed
    ensures game.currentScore == 10 && game.scores == map[]
  {
    game := new HangmanGame(EXAMPLE_CONFIG, map[]);
    var status := game.SelectCategory("Astros", Some(WordEntry("SOL", "Estrella")));
    assert "SOL"[0] == 'S' && "SOL"[1] == 'O' && "SOL"[2] == 'L';
    assert Occurrences("SOL", 'S') == 1 by {
      assert "SOL"[1..] == "OL" && "OL"[1..] == "L" && "L"[1..] == [];
    }
    Hit(game, 'S', 1);
  }

  /**
   * "SOL" with its 'S' found and then six letters that are not in it: the round is
   * lost, yet its 10 letter points are a positive result, so the category counts
   * it as a game won.
   */
  method LostWithPointsScenario() returns (summary: Option<RoundSummary>, stats: map<string, CategoryStats>)
    ensures summary == Some(Lost("SOL", "Estrella", 6, 10))
    ensures stats == map["Astros" := CategoryStats(10, 1, 1, 10)]
  {
    var game := SolWithS();
    assert "SOL"[0] == 'S' && "SOL"[1] == 'O' && "SOL"[2] == 'L';
    Miss(game, 'A');
    Miss(game, 'B');
    Miss(game, 'C');
    Miss(game, 'D');
    Miss(game, 'E');
    assert game.wrongGuesses == 5 && 'F' !in game.usedLetters;
    var part;
    part, summary := game.GuessLetter('F');
    assert RoundedAverage(10, 1) == 10;
    stats := game.scores;
  }

  /**
   * "BANANA": its three A's pay 30, the hint then costs 25, and asking for the hint
   * a second time changes nothing.
   */
  method HintOnceScenario() returns (first: Option<string>, second: Option<string>, score: int)
    ensures first == Some("Fruta amarilla") && second == None
    ensures score == 5
  {
    var game := new HangmanGame(EXAMPLE_CONFIG, map[]);
    var status := game.SelectCategory("Frutas", Some(WordEntry("BANANA", "Fruta amarilla")));
    assert "BANANA"[1] == 'A';
    var part, summary := game.GuessLetter('A');
    assert game.guessedWord[..][0] == PLACEHOLDER;
    first := game.ShowHint();
    second := game.ShowHint();
    score := game.currentScore;
  }

}
