/**
 * The hangman game of javascript/ahorcado.js: one round at a time, a secret word
 * from a category, letters tried one by one, a hint that costs points, and the
 * per-category statistics that each finished round is folded into.
 *
 * The page around the game becomes parameters and results: the word picked at
 * random is an argument of `StartNewGame`, the browser's confirmation dialog a
 * boolean, the "select a category first" alert a status, the result dialog a
 * `RoundSummary`, and the hangman part to draw an optional name.
 */
module Hangman {

  import opened Wrappers
  import opened Board
  import opened Scores

  /** The scoring constants of the game's configuration. */
  datatype GameConfig = GameConfig(
    maxWrongGuesses: nat,
    pointsPerCorrectLetter: nat,
    hintPenalty: nat,
    bonusPerRemainingAttempt: nat,
    bonusNoHints: nat)

  /** A secret word of a category together with its hint. */
  datatype WordEntry = WordEntry(word: string, hint: string)

  /** What the result dialog shows at the end of a round. */
  datatype RoundSummary =
    | Won(word: string, letterPoints: int, attemptsBonus: int, noHintBonus: int, hintUsed: bool, total: int)
    | Lost(word: string, hint: string, wrongGuesses: nat, points: int)

  /** How a request to start a round ended. */
  datatype StartStatus = Started | NoCategorySelected | NoWordAvailable

  /** The parts of the drawing, revealed one per wrong guess. */
  const HANGMAN_PARTS: seq<string> := ["head", "body", "leftArm", "rightArm", "leftLeg", "rightLeg"]

  /**
   * The part drawn after the `wrongGuesses`-th wrong guess: the guard keeps the
   * index `wrongGuesses - 1` inside the drawing, and past its last part nothing
   * more is drawn.
   */
  function HangmanPart(wrongGuesses: nat): (part: Option<string>)
    requires wrongGuesses >= 1
    ensures part.Some? <==> wrongGuesses <= |HANGMAN_PARTS|
    ensures part.Some? ==> part.value in HANGMAN_PARTS
  {
    if wrongGuesses <= |HANGMAN_PARTS| then Some(HANGMAN_PARTS[wrongGuesses - 1]) else None
  }

  /** Sign of a product: the nonlinear step behind a win's bonus being non-negative, and positive. */
  lemma MulSigns(a: int, b: int)
    requires a > 0 && b >= 0
    ensures a * b >= 0 && (b > 0 ==> a * b > 0)
  {
  }

  /** `*` distributes over `+`: the nonlinear step that adds a guess's occurrences to the letter points. */
  lemma MulDistributes(a: int, b: int, p: int)
    ensures (a + b) * p == a * p + b * p
  {
  }

  class HangmanGame {
    const config: GameConfig
    var currentWord: string
    var currentHint: string
    /** The selected category; the empty string when none has been selected. */
    var currentCategory: string
    var guessedWord: array<char>
    var wrongGuesses: nat
    var usedLetters: set<char>
    var gameActive: bool
    var hintUsed: bool
    var currentScore: int
    /** The stored statistics, one record per category. */
    var scores: map<string, CategoryStats>

    /** Points the letters tried this round have earned: one payment per revealed position. */
    ghost function LetterPoints(): int
      reads this`currentWord, this`usedLetters
    {
      RevealCount(currentWord, usedLetters) * config.pointsPerCorrectLetter
    }

    /**
     * The game's invariant: the display has the word's length; the score is never
     * negative; misses never pass the maximum, and stay below it while the round
     * is on; while it is on the display is the word masked by the tried letters
     * and the score is the letter points, less at most the hint penalty once the
     * hint is used; once it is over the display is the whole word.
     */
    ghost predicate Valid()
      reads this, guessedWord
    {
      && config.maxWrongGuesses > 0
      && guessedWord.Length == |currentWord|
      && currentScore >= 0
      && wrongGuesses <= config.maxWrongGuesses
      && (gameActive ==>
            && wrongGuesses < config.maxWrongGuesses
            && guessedWord[..] == Masked(currentWord, usedLetters)
            && LetterPoints() - (if hintUsed then config.hintPenalty else 0) <= currentScore <= LetterPoints())
      && (!gameActive ==> guessedWord[..] == currentWord)
    }

    /** A game with no round started, reading the statistics already stored. */
    constructor (config: GameConfig, stored: map<string, CategoryStats>)
      requires config.maxWrongGuesses > 0
      ensures Valid() && fresh(guessedWord)
      ensures this.config == config && scores == stored
      ensures currentWord == "" && currentHint == "" && currentCategory == ""
      ensures wrongGuesses == 0 && usedLetters == {} && !gameActive && !hintUsed && currentScore == 0
    {
      this.config := config;
      currentWord := "";
      currentHint := "";
      currentCategory := "";
      guessedWord := new char[0];
      wrongGuesses := 0;
      usedLetters := {};
      gameActive := false;
      hintUsed := false;
      currentScore := 0;
      scores := stored;
    }

    /** Selects a category and starts a round in it with `wordData`. */
    method SelectCategory(categoryName: string, wordData: Option<WordEntry>) returns (status: StartStatus)
      requires Valid()
      modifies this
      ensures Valid()
      ensures currentCategory == categoryName
      ensures status == if categoryName == "" then NoCategorySelected
                        else if wordData.None? then NoWordAvailable
                        else Started
      ensures status != Started ==>
        && currentWord == old(currentWord) && currentHint == old(currentHint) && guessedWord == old(guessedWord)
        && wrongGuesses == old(wrongGuesses) && usedLetters == old(usedLetters) && gameActive == old(gameActive)
        && hintUsed == old(hintUsed) && currentScore == old(currentScore)
      ensures status == Started ==>
        && fresh(guessedWord)
        && currentWord == wordData.value.word && currentHint == wordData.value.hint
        && guessedWord[..] == Masked(currentWord, {})
        && wrongGuesses == 0 && usedLetters == {} && gameActive && !hintUsed && currentScore == 0
      ensures scores == old(scores)
    {
      currentCategory := categoryName;
      status := StartNewGame(wordData);
    }

    /**
     * Starts a round with the randomly picked `wordData`: nothing happens without a
     * selected category or without a word; otherwise every round field is reset and
     * the display is one placeholder per letter.
     */
    method StartNewGame(wordData: Option<WordEntry>) returns (status: StartStatus)
      requires Valid()
      modifies this
      ensures Valid()
      ensures status == if currentCategory == "" then NoCategorySelected
                        else if wordData.None? then NoWordAvailable
                        else Started
      ensures status != Started ==> unchanged(this)
      ensures status == Started ==>
        && fresh(guessedWord)
        && currentWord == wordData.value.word && currentHint == wordData.value.hint
        && guessedWord.Length == |currentWord|
        && (forall i :: 0 <= i < guessedWord.Length ==> guessedWord[i] == PLACEHOLDER)
        && wrongGuesses == 0 && usedLetters == {} && gameActive && !hintUsed && currentScore == 0
        && currentCategory == old(currentCategory) && scores == old(scores)
    {
      if currentCategory == "" {
        return NoCategorySelected;
      }
      if wordData.None? {
        return NoWordAvailable;
      }
      currentWord := wordData.value.word;
      currentHint := wordData.value.hint;
      guessedWord := new char[|currentWord|](_ => PLACEHOLDER);
      wrongGuesses := 0;
      usedLetters := {};
      gameActive := true;
      hintUsed := false;
      currentScore := 0;
      status := Started;
      MaskedNothingTried(currentWord);
      RevealCountNothingTried(currentWord);
    }

    /**
     * Tries `letter`. Nothing happens once the round is over or when the letter was
     * already tried. Otherwise the letter is recorded; a letter of the word reveals
     * exactly its positions and pays once per occurrence, and the round is won when
     * no placeholder is left; any other letter is one more miss, which draws a part
     * and loses the round when the misses reach the maximum.
     */
    method GuessLetter(letter: char) returns (part: Option<string>, summary: Option<RoundSummary>)
      requires Valid()
      modifies this, guessedWord
      ensures Valid()
      ensures currentWord == old(currentWord) && currentHint == old(currentHint)
      ensures currentCategory == old(currentCategory) && hintUsed == old(hintUsed)
      ensures !old(gameActive) || letter in old(usedLetters) ==>
        && unchanged(this) && guessedWord[..] == old(guessedWord[..]) && part == None && summary == None
      ensures old(gameActive) && letter !in old(usedLetters) ==>
        && usedLetters == old(usedLetters) + {letter}
        && (!gameActive <==> summary.Some?)
        && (gameActive ==> scores == old(scores))
        && (!gameActive ==> scores == RecordResult(old(scores), currentCategory, currentScore))
      ensures old(gameActive) && letter !in old(usedLetters) && letter in currentWord ==>
        CorrectGuess(letter, old(guessedWord), old(guessedWord[..]), old(wrongGuesses), old(currentScore), old(LetterPoints()), part, summary)
      ensures old(gameActive) && letter !in old(usedLetters) && letter !in currentWord ==>
        WrongGuess(old(guessedWord), old(guessedWord[..]), old(wrongGuesses), old(currentScore), old(LetterPoints()), part, summary)
    {
      part, summary := None, None;
      if !gameActive || letter in usedLetters {
        return;
      }
      if letter in currentWord {
        summary := GuessPresentLetter(letter);
      } else {
        part, summary := GuessMissingLetter(letter);
      }
    }

    /**
     * What a letter of the word does: the display object is kept and exactly the
     * positions holding the letter now show it; the misses do not change; the letter
     * points grow by one payment per occurrence; the round is over exactly when no
     * placeholder is left, and is then won with the win bonuses added to the score.
     */
    ghost predicate CorrectGuess(letter: char, shown: array<char>, shownBefore: seq<char>, wrongBefore: nat,
                                 scoreBefore: int, pointsBefore: int, part: Option<string>, summary: Option<RoundSummary>)
      reads this, guessedWord
    {
      var gain := Occurrences(currentWord, letter) * config.pointsPerCorrectLetter;
      && guessedWord == shown
      && |shownBefore| == |currentWord| == guessedWord.Length
      && (forall i :: 0 <= i < |currentWord| ==>
            guessedWord[i] == if currentWord[i] == letter then letter else shownBefore[i])
      && wrongGuesses == wrongBefore && part == None
      && LetterPoints() == pointsBefore + gain
      && (gameActive <==> PLACEHOLDER in guessedWord[..])
      && (gameActive ==> currentScore == scoreBefore + gain)
      && (!gameActive ==>
            && LetterPoints() == |currentWord| * config.pointsPerCorrectLetter
            && summary == Some(Won(currentWord, LetterPoints(),
                                   (config.maxWrongGuesses - wrongGuesses) * config.bonusPerRemainingAttempt,
                                   if hintUsed then 0 else config.bonusNoHints, hintUsed, currentScore))
            && currentScore == scoreBefore + gain + summary.value.attemptsBonus + summary.value.noHintBonus)
    }

    /**
     * What any other letter does: one more miss, the part for it drawn, score and
     * letter points unchanged; the round goes on while the misses stay below the
     * maximum, with the display untouched, and is lost when they reach it.
     */
    ghost predicate WrongGuess(shown: array<char>, shownBefore: seq<char>, wrongBefore: nat,
                               scoreBefore: int, pointsBefore: int, part: Option<string>, summary: Option<RoundSummary>)
      reads this, guessedWord
    {
      && wrongGuesses == wrongBefore + 1
      && part == HangmanPart(wrongGuesses)
      && currentScore == scoreBefore
      && LetterPoints() == pointsBefore
      && (gameActive <==> wrongGuesses < config.maxWrongGuesses)
      && (gameActive ==> guessedWord == shown && guessedWord[..] == shownBefore && summary == None)
      && (!gameActive ==> summary == Some(Lost(currentWord, currentHint, wrongGuesses, currentScore)))
    }

    /** The branch of `GuessLetter` for a new letter that occurs in the word. */
    method GuessPresentLetter(letter: char) returns (summary: Option<RoundSummary>)
      requires Valid() && gameActive && letter !in usedLetters && letter in currentWord
      modifies this, guessedWord
      ensures Valid()
      ensures currentWord == old(currentWord) && currentHint == old(currentHint)
      ensures currentCategory == old(currentCategory) && hintUsed == old(hintUsed)
      ensures usedLetters == old(usedLetters) + {letter}
      ensures !gameActive <==> summary.Some?
      ensures gameActive ==> scores == old(scores)
      ensures !gameActive ==> scores == RecordResult(old(scores), currentCategory, currentScore)
      ensures CorrectGuess(letter, old(guessedWord), old(guessedWord[..]), old(wrongGuesses), old(currentScore), old(LetterPoints()), None, summary)
    {
      summary := None;
      ghost var usedBefore := usedLetters;
      ghost var pointsBefore := LetterPoints();
      usedLetters := usedLetters + {letter};
      RevealCountTryLetter(currentWord, usedBefore, letter);
      ghost var gain := Occurrences(currentWord, letter) * config.pointsPerCorrectLetter;
      assert LetterPoints() == pointsBefore + gain by {
        MulDistributes(RevealCount(currentWord, usedBefore), Occurrences(currentWord, letter), config.pointsPerCorrectLetter);
      }
      ghost var scoreBefore := currentScore;
      RevealLetter(letter);
      assert LetterPoints() == pointsBefore + gain && currentScore == scoreBefore + gain;
      MaskedTryLetter(currentWord, usedBefore, letter);
      assert guessedWord[..] == Masked(currentWord, usedLetters);
      if PLACEHOLDER !in guessedWord[..] {
        var result := WinGame();
        summary := Some(result);
      }
    }

    /** The branch of `GuessLetter` for a new letter that does not occur in the word. */
    method GuessMissingLetter(letter: char) returns (part: Option<string>, summary: Option<RoundSummary>)
      requires Valid() && gameActive && letter !in usedLetters && letter !in currentWord
      modifies this
      ensures Valid()
      ensures currentWord == old(currentWord) && currentHint == old(currentHint)
      ensures currentCategory == old(currentCategory) && hintUsed == old(hintUsed)
      ensures usedLetters == old(usedLetters) + {letter}
      ensures !gameActive <==> summary.Some?
      ensures gameActive ==> scores == old(scores)
      ensures !gameActive ==> scores == RecordResult(old(scores), currentCategory, currentScore)
      ensures WrongGuess(old(guessedWord), old(guessedWord[..]), old(wrongGuesses), old(currentScore), old(LetterPoints()), part, summary)
    {
      summary := None;
      ghost var usedBefore := usedLetters;
      usedLetters := usedLetters + {letter};
      RevealCountTryLetter(currentWord, usedBefore, letter);
      OccurrencesPositive(currentWord, letter);
      MaskedTryLetter(currentWord, usedBefore, letter);
      assert Masked(currentWord, usedLetters) == Masked(currentWord, usedBefore);
      wrongGuesses := wrongGuesses + 1;
      part := HangmanPart(wrongGuesses);
      if wrongGuesses >= config.maxWrongGuesses {
        var result := LoseGame();
        summary := Some(result);
      }
    }

    /**
     * Writes `letter` into every position of the display that holds it, and only
     * there, paying once per position written.
     */
    method RevealLetter(letter: char)
      requires guessedWord.Length == |currentWord|
      modifies this`currentScore, guessedWord
      ensures forall i :: 0 <= i < |currentWord| ==>
        guessedWord[i] == if currentWord[i] == letter then letter else old(guessedWord[i])
      ensures currentScore == old(currentScore) + Occurrences(currentWord, letter) * config.pointsPerCorrectLetter
    {
      var i := 0;
      while i < |currentWord|
        invariant 0 <= i <= |currentWord|
        invariant forall j :: 0 <= j < i ==>
          guessedWord[j] == if currentWord[j] == letter then letter else old(guessedWord[j])
        invariant forall j :: i <= j < |currentWord| ==> guessedWord[j] == old(guessedWord[j])
        invariant currentScore == old(currentScore) + Occurrences(currentWord[..i], letter) * config.pointsPerCorrectLetter
      {
        OccurrencesPrefix(currentWord, letter, i);
        if currentWord[i] == letter {
          guessedWord[i] := letter;
          currentScore := currentScore + config.pointsPerCorrectLetter;
        }
        i := i + 1;
      }
      assert currentWord[..|currentWord|] == currentWord;
    }

    /**
     * Shows the hint, once per round and only while the round is on: the score
     * loses the penalty but never goes below zero.
     */
    method ShowHint() returns (shown: Option<string>)
      requires Valid()
      modifies this
      ensures Valid()
      ensures old(hintUsed) || !old(gameActive) ==> unchanged(this) && shown == None
      ensures !old(hintUsed) && old(gameActive) ==>
        && hintUsed && shown == Some(currentHint)
        && currentScore == (if old(currentScore) >= config.hintPenalty then old(currentScore) - config.hintPenalty else 0)
        && currentWord == old(currentWord) && currentHint == old(currentHint) && currentCategory == old(currentCategory)
        && guessedWord == old(guessedWord) && wrongGuesses == old(wrongGuesses) && usedLetters == old(usedLetters)
        && gameActive && scores == old(scores)
    {
      if hintUsed || !gameActive {
        return None;
      }
      hintUsed := true;
      currentScore := if currentScore - config.hintPenalty > 0 then currentScore - config.hintPenalty else 0;
      shown := Some(currentHint);
    }

    /**
     * Ends a round whose word is fully revealed: the score gains a bonus per
     * remaining attempt and, when no hint was used, the no-hint bonus, and is
     * recorded. The letter points the summary reports, one payment per letter of the
     * word, are exactly the points the round's guesses earned.
     */
    method WinGame() returns (summary: RoundSummary)
      requires gameActive && wrongGuesses < config.maxWrongGuesses && currentScore >= 0
      requires guessedWord.Length == |currentWord| && guessedWord[..] == Masked(currentWord, usedLetters)
      requires PLACEHOLDER !in guessedWord[..]
      requires LetterPoints() - (if hintUsed then config.hintPenalty else 0) <= currentScore <= LetterPoints()
      modifies this
      ensures !gameActive && guessedWord[..] == currentWord
      ensures currentWord == old(currentWord) && currentHint == old(currentHint) && currentCategory == old(currentCategory)
      ensures guessedWord == old(guessedWord) && wrongGuesses == old(wrongGuesses) && usedLetters == old(usedLetters)
      ensures hintUsed == old(hintUsed)
      ensures summary.Won? && summary.word == currentWord && summary.hintUsed == hintUsed && summary.total == currentScore
      ensures summary.letterPoints == LetterPoints() == |currentWord| * config.pointsPerCorrectLetter
      ensures summary.attemptsBonus == (config.maxWrongGuesses - wrongGuesses) * config.bonusPerRemainingAttempt >= 0
      ensures summary.noHintBonus == if hintUsed then 0 else config.bonusNoHints
      ensures currentScore == old(currentScore) + summary.attemptsBonus + summary.noHintBonus
      ensures !hintUsed ==> currentScore == summary.letterPoints + summary.attemptsBonus + summary.noHintBonus
      ensures config.bonusPerRemainingAttempt > 0 ==> currentScore > 0
      ensures scores == RecordResult(old(scores), currentCategory, currentScore)
    {
      gameActive := false;
      MaskedComplete(currentWord, usedLetters);
      RevealCountFull(currentWord, usedLetters);
      var remainingAttempts := config.maxWrongGuesses - wrongGuesses;
      var attemptsBonus := remainingAttempts * config.bonusPerRemainingAttempt;
      MulSigns(remainingAttempts, config.bonusPerRemainingAttempt);
      var noHintBonus := if hintUsed then 0 else config.bonusNoHints;
      assert LetterPoints() == |currentWord| * config.pointsPerCorrectLetter;
      currentScore := currentScore + attemptsBonus + noHintBonus;
      UpdateScore(currentCategory, currentScore);
      summary := Won(currentWord, |currentWord| * config.pointsPerCorrectLetter, attemptsBonus, noHintBonus, hintUsed, currentScore);
    }

    /** Ends a round lost on misses: the whole word is shown and the score is recorded as it stands. */
    method LoseGame() returns (summary: RoundSummary)
      requires gameActive
      modifies this
      ensures !gameActive && fresh(guessedWord) && guessedWord[..] == currentWord
      ensures currentWord == old(currentWord) && currentHint == old(currentHint) && currentCategory == old(currentCategory)
      ensures wrongGuesses == old(wrongGuesses) && usedLetters == old(usedLetters)
      ensures hintUsed == old(hintUsed) && currentScore == old(currentScore)
      ensures summary == Lost(currentWord, currentHint, wrongGuesses, currentScore)
      ensures scores == RecordResult(old(scores), currentCategory, currentScore)
    {
      gameActive := false;
      var word := currentWord;
      guessedWord := new char[|word|](i requires 0 <= i < |word| => word[i]);
      summary := Lost(currentWord, currentHint, wrongGuesses, currentScore);
      UpdateScore(currentCategory, currentScore);
    }

    /**
     * Folds one result into the stored statistics; a record consistent before is
     * consistent after, and the total over all categories grows by `points`.
     */
    method UpdateScore(category: string, points: int)
      modifies this`scores
      ensures scores == RecordResult(old(scores), category, points)
      ensures WellFormed(old(scores)) && points >= 0 ==> WellFormed(scores)
      ensures TotalPoints(scores) == TotalPoints(old(scores)) + points
    {
      if points >= 0 && WellFormed(scores) {
        RecordResultKeepsWellFormed(scores, category, points);
      }
      TotalPointsAfterRecord(scores, category, points);
      scores := RecordResult(scores, category, points);
    }

    /** The sum of the points stored over all categories. */
    method GetTotalScore() returns (total: int)
      ensures total == TotalPoints(scores)
      ensures WellFormed(scores) ==> total >= 0
    {
      total := 0;
      var rest := scores;
      while rest != map[]
        invariant total + TotalPoints(rest) == TotalPoints(scores)
        decreases |rest|
      {
        var category :| category in rest;
        TotalPointsRemove(rest, category);
        assert (rest - {category}).Keys == rest.Keys - {category};
        total := total + rest[category].totalPoints;
        rest := rest - {category};
      }
      if WellFormed(scores) {
        TotalPointsNonNegative(scores);
      }
    }

    /** The points stored for the selected category, 0 when it has none. */
    function GetCategoryScore(): (r: int)
      reads this
      ensures currentCategory !in scores ==> r == 0
      ensures WellFormed(scores) ==> 0 <= r <= TotalPoints(scores)
    {
      CategoryPointsAtMostTotal(scores, currentCategory);
      StatsOf(scores, currentCategory).totalPoints
    }

    /** Forgets every category's statistics, but only when the player confirms. */
    method ResetAllScores(confirmed: bool)
      modifies this`scores
      ensures scores == if confirmed then map[] else old(scores)
      ensures WellFormed(old(scores)) ==> WellFormed(scores)
    {
      if confirmed {
        scores := map[];
      }
    }
  }

}
