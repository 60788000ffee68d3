/**
 * The word as the player sees it during a round of hangman: every position whose
 * letter has been tried shows that letter, every other position shows the
 * placeholder '_'. Also the counting that the scoring rests on: how often a letter
 * occurs in the word, and how many positions the tried letters have revealed.
 */
module Board {

  /** The marker shown for a position that has not been guessed yet. */
  const PLACEHOLDER: char := '_'

  /** The display of `word` once the letters in `used` have been tried. */
  function Masked(word: string, used: set<char>): string
  {
    seq(|word|, i requires 0 <= i < |word| => if word[i] in used then word[i] else PLACEHOLDER)
  }

  /** Number of positions of `s` that hold `c`. */
  function Occurrences(s: string, c: char): nat
  {
    if s == [] then 0
    else (if s[0] == c then 1 else 0) + Occurrences(s[1..], c)
  }

  /** Number of positions of `word` whose letter is in `used`, i.e. the positions revealed so far. */
  function RevealCount(word: string, used: set<char>): (r: nat)
    ensures r <= |word|
  {
    if word == [] then 0
    else (if word[0] in used then 1 else 0) + RevealCount(word[1..], used)
  }

  /** Before any letter is tried, every position shows the placeholder. */
  lemma MaskedNothingTried(word: string)
    ensures |Masked(word, {})| == |word|
    ensures forall i :: 0 <= i < |word| ==> Masked(word, {})[i] == PLACEHOLDER
  {
  }

  /**
   * Trying a new letter `c` changes exactly the positions that hold `c`, and each of
   * them now shows `c`; every other position keeps what it showed before.
   */
  lemma MaskedTryLetter(word: string, used: set<char>, c: char)
    ensures |Masked(word, used + {c})| == |Masked(word, used)| == |word|
    ensures forall i :: 0 <= i < |word| ==>
      Masked(word, used + {c})[i] == if word[i] == c then c else Masked(word, used)[i]
  {
  }

  /**
   * No placeholder is left exactly when every position's letter has been tried
   * (and no position of the word is itself the placeholder); the display is then
   * the word itself.
   */
  lemma MaskedComplete(word: string, used: set<char>)
    ensures PLACEHOLDER !in Masked(word, used) <==>
      forall i :: 0 <= i < |word| ==> word[i] in used && word[i] != PLACEHOLDER
    ensures PLACEHOLDER !in Masked(word, used) ==> Masked(word, used) == word
  {
    var m := Masked(word, used);
    if PLACEHOLDER !in m {
      forall i | 0 <= i < |word|
        ensures word[i] in used && word[i] != PLACEHOLDER
      {
        assert m[i] in m;
      }
    }
  }

  /** Counting one more position at the end of a prefix (the step of a left-to-right scan). */
  lemma {:induction false} OccurrencesPrefix(s: string, c: char, i: nat)
    requires i < |s|
    ensures Occurrences(s[..i + 1], c) == Occurrences(s[..i], c) + (if s[i] == c then 1 else 0)
  {
    if i == 0 {
      assert s[..1] == [s[0]];
      assert s[..1][1..] == [];
    } else {
      OccurrencesPrefix(s[1..], c, i - 1);
      assert s[..i + 1][1..] == s[1..][..i];
      assert s[..i][1..] == s[1..][..i - 1];
    }
  }

  /** A letter occurs at least once exactly when it is in the word. */
  lemma {:induction false} OccurrencesPositive(s: string, c: char)
    ensures Occurrences(s, c) > 0 <==> c in s
  {
    if s != [] {
      OccurrencesPositive(s[1..], c);
      assert s == [s[0]] + s[1..];
    }
  }

  /** With no letter tried, nothing is revealed. */
  lemma {:induction false} RevealCountNothingTried(word: string)
    ensures RevealCount(word, {}) == 0
  {
    if word != [] {
      RevealCountNothingTried(word[1..]);
    }
  }

  /**
   * Trying a letter not tried before reveals exactly its occurrences: each position
   * is revealed by the one letter it holds, so it is revealed (and paid) once.
   */
  lemma {:induction false} RevealCountTryLetter(word: string, used: set<char>, c: char)
    requires c !in used
    ensures RevealCount(word, used + {c}) == RevealCount(word, used) + Occurrences(word, c)
  {
    if word != [] {
      RevealCountTryLetter(word[1..], used, c);
    }
  }

  /** Every position is revealed exactly when every letter of the word has been tried. */
  lemma {:induction false} RevealCountFull(word: string, used: set<char>)
    ensures RevealCount(word, used) == |word| <==> forall i :: 0 <= i < |word| ==> word[i] in used
  {
    if word != [] {
      RevealCountFull(word[1..], used);
      if RevealCount(word, used) == |word| {
        forall i | 0 <= i < |word|
          ensures word[i] in used
        {
          if i > 0 {
            assert word[i] == word[1..][i - 1];
          }
        }
      }
      if forall i :: 0 <= i < |word| ==> word[i] in used {
        assert forall i :: 0 <= i < |word| - 1 ==> word[1..][i] == word[i + 1];
      }
    }
  }

}
