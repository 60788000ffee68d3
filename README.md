# Hangman game state machine and score bookkeeping

A Dafny model of the `HangmanGame` class of `javascript/ahorcado.js`, a browser
hangman game. A round picks a secret word (with a hint) from a category. The player
tries letters one at a time. A letter of the word reveals every position that holds
it and pays `POINTS_PER_CORRECT_LETTER` once per position. Any other letter is a
miss that draws one more part of the hangman. The round is won when no `'_'` is left
and lost when the misses reach `MAX_WRONG_GUESSES`. The hint can be shown once per
round; it costs `HINT_PENALTY`, and the score never drops below zero. A win adds
`BONUS_PER_REMAINING_ATTEMPT` per attempt left and `BONUS_NO_HINTS` when the hint was
not used. Every finished round is folded into per-category statistics: total points,
games played, games counted as won (results with points > 0) and the rounded
average.

Layout:

- `board.dfy` (module `Board`): the masked word shown to the player, letter
  occurrences and the number of revealed positions, with the lemmas the scoring
  rests on.
- `scores.dfy` (module `Scores`): the per-category record, `updateScore` as the
  function `RecordResult`, `Math.round` of the average, and the sum over all
  categories.
- `hangman.dfy` (module `Hangman`): class `HangmanGame` with the source's fields.
  `guessedWord` is an `array<char>`, replaced at round start and loss and updated
  in place by the reveal loop. `usedLetters` is a `set<char>`, and the stored
  statistics are a `map` field. Its `Valid()` invariant holds between operations:
  - the display has the word's length;
  - the score is never negative;
  - misses never pass the maximum, and stay below it while the round is on;
  - while the round is on, the display is the word masked by the tried letters, and
    the score equals the letter points earned (minus at most the hint penalty once
    the hint is used);
  - once the round is over, the display is the whole word.
- `scenarios.dfy` (module `Scenarios`): whole rounds played against the contracts
  alone. "GATO" won with 120 points, "SOL" lost after six misses, and the hint asked
  for twice but charged once.

The browser around the game becomes parameters and results:

- The randomly picked word is the `Option<WordEntry>` argument of `StartNewGame`.
  `None` stands for the data source returning nothing.
- The "select a category first" alert is the `NoCategorySelected` status.
- The confirmation dialog of the score reset is a boolean argument.
- The result dialog is the returned `RoundSummary`.
- The hangman part to draw is a returned part name.
- The `localStorage` entry holding the statistics is the `scores` map. The
  constructor takes the stored map.
- The `GAME_CONFIG` constants are a `GameConfig` value of natural numbers. They
  live in `data.js`, which is not part of this model. The only requirement is
  `maxWrongGuesses > 0`.

`Math.round(total / played)` is modelled as `(2 * total + played) / (2 * played)`.
Dafny's `/` floors for a positive divisor, so this is floor(total/played + 1/2),
which is JavaScript's rounding (halves go up). The contract states the meaning
directly: the result is the integer within one half of the quotient, ties upward.

Two behaviours of the code worth knowing:
- For a category name with no button, the button lookup in `selectCategory`
  (javascript/ahorcado.js:160) throws before the category is set. The model instead
  sets the category and starts a round, as the code does for a known name (see
  "Left out").
- Statistics count a game as won when its points are positive
  (javascript/ahorcado.js:371-373), not when the round was won. A won round always
  has positive points when `BONUS_PER_REMAINING_ATTEMPT > 0`
  (`Hangman.HangmanGame.WinGame`), so every won round is counted as won. A lost
  round that had earned letter points is counted as won too:
  `Scenarios.LostWithPointsScenario` plays such a round.

## Model

| member | source | states |
|---|---|---|
| `Hangman.HangmanGame.constructor` | javascript/ahorcado.js:14-43 | a fresh game: empty word, hint and category, an empty display, no misses, no letters tried, not active, no hint used, score 0, the stored statistics as given; the game invariant holds |
| `Hangman.HangmanGame.SelectCategory` | javascript/ahorcado.js:155-164 | the category becomes the selected one, then a round starts in it exactly as `StartNewGame` does (nothing else changes when the name is empty or no word is available) |
| `Hangman.HangmanGame.StartNewGame` | javascript/ahorcado.js:169-194 | with no category selected, or no word supplied, the whole object is unchanged and the status says which; otherwise the word and hint are the supplied ones, the display is a new array of `'_'` of the word's length, misses 0, no letters tried, active, hint unused, score 0, category and statistics unchanged |
| `Hangman.HangmanGame.GuessLetter` | javascript/ahorcado.js:196-233 | inactive round or repeated letter: nothing changes, nothing is drawn or reported; otherwise the letter joins the tried set, a correct or wrong guess follows (see the two rows below), and the statistics change exactly when the round ends, by recording its final score under the current category |
| `Hangman.HangmanGame.GuessPresentLetter` | javascript/ahorcado.js:204-219 | a new letter of the word: same display array; exactly the positions holding the letter now show it, all others unchanged; misses unchanged; letter points grow by occurrences × points per letter; the round goes on iff a `'_'` remains, with the score up by that gain; else it is won, with the full `Won` summary and the bonuses added |
| `Hangman.HangmanGame.GuessMissingLetter` | javascript/ahorcado.js:220-230 | a new letter not in the word: misses + 1, the part for that miss, score and letter points unchanged; the round goes on iff misses < maximum, display untouched; else it is lost with the `Lost` summary (word, hint, misses, score) |
| `Hangman.HangmanGame.RevealLetter` | javascript/ahorcado.js:209-214 | the in-place loop: position i of the display becomes the letter iff the word holds it there, every other position keeps its old character, and the score grows by one payment per occurrence of the letter |
| `Hangman.HangmanGame.ShowHint` | javascript/ahorcado.js:237-246 | when the hint was already used or the round is over nothing changes and nothing is shown; otherwise the hint is shown, marked used, and the score becomes max(0, score − penalty), every other field unchanged and the invariant (score ≥ 0) kept |
| `Hangman.HangmanGame.WinGame` | javascript/ahorcado.js:282-310 | the round ends with the whole word shown; the score gains (maximum − misses) × bonus per attempt plus the no-hint bonus iff no hint was used; the summary's letter points, `|word|` × points per letter, equal the points the round's guesses actually paid; without a hint the summary's items add up to the total; with a positive attempt bonus the final score is positive; the result is recorded |
| `Hangman.HangmanGame.LoseGame` | javascript/ahorcado.js:312-333 | the round ends, the display becomes a new array holding the whole word, the score is kept, the `Lost` summary reports word, hint, misses and score, and the score is recorded under the current category |
| `Hangman.HangmanGame.UpdateScore` | javascript/ahorcado.js:357-379 | the statistics become `RecordResult` of the old ones; consistent records stay consistent under a non-negative result; the sum over all categories grows by exactly the points |
| `Hangman.HangmanGame.GetTotalScore` | javascript/ahorcado.js:381-384 | the loop over the stored categories returns the sum of their total points, which is non-negative when the records are consistent |
| `Hangman.HangmanGame.GetCategoryScore` | javascript/ahorcado.js:386-389 | 0 when the selected category has no record; with consistent records, a value between 0 and the total over all categories |
| `Hangman.HangmanGame.ResetAllScores` | javascript/ahorcado.js:404-410 | confirmed: the statistics become empty; not confirmed: they are unchanged |
| `Hangman.HangmanPart` | javascript/ahorcado.js:251-258 | after the n-th miss a part is drawn iff n ≤ 6, and then it is one of the six parts (the index n − 1 stays inside the drawing) |
| `Scores.RoundedAverage` | javascript/ahorcado.js:374 | the average is the integer nearest to total/played, an exact half rounding up: played·(2r − 1) ≤ 2·total < played·(2r + 1) |
| `Scores.RoundedAverageUnique` | javascript/ahorcado.js:374 | no other integer meets those bounds, so the stored average is determined by total and games played |
| `Scores.RecordResult` | javascript/ahorcado.js:357-374 | the category gets a record (zero if it had none): total + points, games played + 1, games won + 1 iff points > 0 (unchanged otherwise), average within one half of total/played; every other category's record unchanged, no category removed |
| `Scores.RecordResultKeepsWellFormed` | javascript/ahorcado.js:360-374 | after recording a non-negative result, every record still has games won ≤ games played, non-negative points and the rounded average |
| `Scores.TotalPointsRemove` | javascript/ahorcado.js:383 | the sum over categories splits as any one category's points plus the sum over the others, whatever category is taken out |
| `Scores.TotalPointsNonNegative` | javascript/ahorcado.js:383 | with consistent records the sum is not negative |
| `Scores.TotalPointsAfterRecord` | javascript/ahorcado.js:369 | recording a result adds exactly its points to the total score |
| `Scores.CategoryPointsAtMostTotal` | javascript/ahorcado.js:386-389 | with consistent records, a category's points (0 when absent) lie between 0 and the total score |
| `Board.RevealCount` | javascript/ahorcado.js:209-214 | the number of revealed positions never exceeds the word's length |
| `Board.MaskedNothingTried` | javascript/ahorcado.js:182 | before any letter is tried the display has the word's length and every position is `'_'` |
| `Board.MaskedTryLetter` | javascript/ahorcado.js:209-214 | trying a letter changes exactly the positions holding it, which then show it, and leaves every other position as it was |
| `Board.MaskedComplete` | javascript/ahorcado.js:216-218 | no `'_'` is left iff every position's letter has been tried (and none is `'_'` itself), and the display is then the word |
| `Board.OccurrencesPrefix` | javascript/ahorcado.js:209-213 | one step of the left-to-right scan adds one occurrence iff the position holds the letter |
| `Board.OccurrencesPositive` | javascript/ahorcado.js:204 | a letter occurs at least once iff the word includes it |
| `Board.RevealCountNothingTried` | javascript/ahorcado.js:182-187 | at round start no position is revealed, so no letter points are earned |
| `Board.RevealCountTryLetter` | javascript/ahorcado.js:209-213 | a letter tried for the first time reveals exactly its occurrences, so each position is revealed and paid once per round |
| `Board.RevealCountFull` | javascript/ahorcado.js:301 | all positions are revealed iff every letter of the word was tried, which is when the summary's `|word|` × points per letter is what was paid |
| `Scenarios.GatoScenario` | javascript/ahorcado.js:282-307 | "GATO" guessed G, A, T, O with no miss and no hint: summary 40 letter points, 30 attempts bonus, 50 no-hint bonus, total 120; the category's record is 120 points, 1 played, 1 won, average 120 |
| `Scenarios.SolScenario` | javascript/ahorcado.js:312-333 | "SOL" with six wrong letters: lost with 6 misses and 0 points, the display shows "SOL", and the record is 0 points, 1 played, 0 won |
| `Scenarios.LostWithPointsScenario` | javascript/ahorcado.js:312-333 | "SOL" with 'S' found and then six misses: lost with 6 misses and 10 points, and the category's record is 10 points, 1 played, 1 won, average 10: the lost round is counted as won, because `updateScore` (lines 371-373) counts positive points |
| `Scenarios.HintOnceScenario` | javascript/ahorcado.js:237-241 | "BANANA": the three A's pay 30, the first hint shows the hint text and leaves 5, the second shows nothing and leaves 5 |

## Left out

- Rendering: `init`, `setupEventListeners`, `generateCategoryButtons`, `updateDisplay`, `updateStats` (including the win-rate percentage), `showResult`'s HTML, `closeModal`, `resetKeyboard`, `resetHangman`, CSS class changes and `toLocaleString` formatting. These only write to the page.
- `drawHangmanPart`'s element lookup: the model returns the part's name (`HangmanPart`) instead of showing the element.
- `getScores`, `saveScores`, `loadScores`: the JSON-serialised `localStorage` entry is the `scores` field. A corrupt stored value, which makes `JSON.parse` throw, is not modelled.
- `getRandomWord`, `getCategoryInfo`, `getAllCategories`, `GAME_CONFIG`: `data.js` is not part of this model. The picked word and the constants are inputs, and the random choice is not modelled.
- Hangman.GameConfig: constants are natural numbers; negative values in `data.js` are not modelled.
- Hangman.HangmanGame.SelectCategory: an unknown category name, for which the button lookup throws before the category is set, is not modelled.
- Hangman.HangmanGame.GuessLetter: a letter with no key on the page is not modelled. The key lookup (javascript/ahorcado.js:202) then yields null and the code throws after adding the letter to `usedLetters` and before any scoring; the model scores every `char`. The page only passes the letters of its own keys (javascript/ahorcado.js:112-117).
- Hangman.HangmanGame.GuessLetter: a letter is one `char`. The source receives a string from the key's `data-letter` attribute, and `includes` on strings would treat an empty or multi-character string as a substring test.
- Strings are sequences of `char`. The source's `currentWord.length` counts UTF-16 code units while `Array.from(currentWord)` (loss display) splits by code points; these agree for words whose characters lie in the Basic Multilingual Plane, but not for characters outside the Basic Multilingual Plane.
- Scores.RoundedAverage: exact integer rounding; the source divides in floating point first, which differs only for totals far beyond any reachable score.
- The result dialog's "hint used" label is fixed text (-25 / +50 points) that does not follow the configured constants; it is display only.
- `getGameState` (a debugging accessor on the global instance) and the page-load wiring of the global instance.
- `javascript/calculadora.js` (floating-point calculator), `javascript/registrate.js` and `javascript/contactanos.js` (form handlers appending to storage) and `pagina/app.js` (fetching page fragments) are outside the game and not modelled.
