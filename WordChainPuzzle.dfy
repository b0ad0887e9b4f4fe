/**
 * Word chain: change one letter of the current word at a time, every
 * intermediate word must be in a small dictionary, until the target appears.
 */
module WordChainPuzzle {
  import opened Wrappers

  const ValidWords: set<string> := {"COLD", "CORD", "WORD", "WORM", "WARM"}

  /** The default props: the puzzle used when none are passed. */
  const DefaultStartWord := "COLD"
  const DefaultTargetWord := "WARM"
  const DefaultMaxAttempts := 4

  /** The sequence the hint button shows. */
  const HintedChain: seq<string> := ["COLD", "CORD", "WORD", "WORM", "WARM"]

  /** The error line under the input. */
  datatype ChainError = NoError | EnterLetter | MustChange | NotValidWord(word: string)

  predicate IsUpper(c: char) { 'A' <= c <= 'Z' }

  /** ASCII `toUpperCase` of one character. */
  function UpperAscii(c: char): (u: char)
    ensures ('a' <= c <= 'z' || 'A' <= c <= 'Z') <==> IsUpper(u)
    ensures 'A' <= c <= 'Z' ==> u == c
    ensures 'a' <= c <= 'z' ==> u as int - 'A' as int == c as int - 'a' as int
    ensures !('a' <= c <= 'z') ==> u == c
  {
    if 'a' <= c <= 'z' then (c as int - 32) as char else c
  }

  /**
   * `handleLetterChange`: keeps the last character, upper-cases it and
   * accepts it only if it is a letter A-Z; the empty string clears the input.
   * `None` means the input is left as it was.
   */
  function NormalizeLetter(letter: string): (r: Option<string>)
    ensures letter == [] ==> r == Some([])
    ensures letter != [] ==>
              var last := letter[|letter| - 1];
              (r.Some? <==> ('a' <= last <= 'z' || 'A' <= last <= 'Z'))
              && (r.Some? ==> r.value == [UpperAscii(last)])
  {
    var kept := if |letter| > 1 then [letter[|letter| - 1]] else letter;
    var upper := if kept == [] then [] else [UpperAscii(kept[0])];
    if upper != [] && !IsUpper(upper[0]) then None else Some(upper)
  }

  /**
   * `newWordArray[position] = letter; join('')`. Writing past the end of a
   * JavaScript array leaves holes that `join` renders as nothing, so the
   * letter is then appended.
   */
  function Substitute(word: string, position: nat, letter: char): (r: string)
    ensures position < |word| ==>
              |r| == |word| && r[position] == letter
              && forall i :: 0 <= i < |word| && i != position ==> r[i] == word[i]
    ensures position >= |word| ==> r == word + [letter]
  {
    if position < |word| then word[..position] + [letter] + word[position + 1..]
    else word + [letter]
  }

  /** `b` is `a` with one letter written at one position. */
  ghost predicate OneLetterStep(a: string, b: string)
  {
    exists position: nat, letter: char :: b == Substitute(a, position, letter)
  }

  /**
   * A chain that starts at `start`, whose later words are dictionary words,
   * each one letter away from (and different from) the word before it.
   */
  ghost predicate ChainFrom(start: string, chain: seq<string>)
  {
    && |chain| >= 1
    && chain[0] == start
    && forall i :: 1 <= i < |chain| ==>
         chain[i] in ValidWords && chain[i] != chain[i - 1] && OneLetterStep(chain[i - 1], chain[i])
  }

  lemma ChainExtend(start: string, chain: seq<string>, position: nat, letter: char)
    requires ChainFrom(start, chain)
    requires Substitute(chain[|chain| - 1], position, letter) in ValidWords
    requires Substitute(chain[|chain| - 1], position, letter) != chain[|chain| - 1]
    ensures ChainFrom(start, chain + [Substitute(chain[|chain| - 1], position, letter)])
  {
    var next := Substitute(chain[|chain| - 1], position, letter);
    assert OneLetterStep(chain[|chain| - 1], next);
    var chain' := chain + [next];
    forall i | 1 <= i < |chain'|
      ensures chain'[i] in ValidWords && chain'[i] != chain'[i - 1] && OneLetterStep(chain'[i - 1], chain'[i])
    {
      if i < |chain| {
        assert chain'[i] == chain[i] && chain'[i - 1] == chain[i - 1];
      }
    }
  }

  /**
   * The hint is correct for the default puzzle: its sequence is a valid chain
   * from the default start word that ends at the default target after exactly
   * the default number of attempts.
   */
  lemma DefaultChainSolvable()
    ensures ChainFrom(DefaultStartWord, HintedChain)
    ensures HintedChain[|HintedChain| - 1] == DefaultTargetWord
    ensures |HintedChain| - 1 == DefaultMaxAttempts
  {
    var chain := HintedChain;
    assert Substitute("COLD", 2, 'R') == "CORD";
    assert Substitute("CORD", 0, 'W') == "WORD";
    assert Substitute("WORD", 3, 'M') == "WORM";
    assert Substitute("WORM", 1, 'A') == "WARM";
    forall i | 1 <= i < |chain|
      ensures chain[i] in ValidWords && chain[i] != chain[i - 1] && OneLetterStep(chain[i - 1], chain[i])
    {
    }
  }

  class WordChainPuzzle {
    var startWord: string
    var targetWord: string
    var maxAttempts: int

    var currentWord: string
    var wordChain: seq<string>
    var inputLetter: string
    var position: nat
    var attempts: nat
    var isComplete: bool
    var error: ChainError

    /** How many times `onComplete` has been scheduled. */
    var completions: nat
    /** How many "Game Over" alerts have been scheduled. */
    var gameOverAlerts: nat

    ghost predicate Valid()
      reads this
    {
      && ChainFrom(startWord, wordChain)
      && wordChain[|wordChain| - 1] == currentWord
      && attempts >= |wordChain| - 1
      && |inputLetter| <= 1
      && (|inputLetter| == 1 ==> IsUpper(inputLetter[0]))
      && (isComplete ==> completions >= 1)
    }

    /** The Submit button is disabled when the input is empty or the puzzle is solved. */
    predicate SubmitEnabled()
      reads this
    {
      inputLetter != [] && !isComplete
    }

    constructor (startWord: string, targetWord: string, maxAttempts: int)
      ensures Valid()
      ensures this.startWord == startWord && this.targetWord == targetWord && this.maxAttempts == maxAttempts
      ensures currentWord == startWord && wordChain == [startWord] && inputLetter == []
      ensures position == 0 && attempts == 0 && !isComplete && error == NoError
      ensures completions == 0 && gameOverAlerts == 0
    {
      this.startWord := startWord;
      this.targetWord := targetWord;
      this.maxAttempts := maxAttempts;
      currentWord := startWord;
      wordChain := [startWord];
      inputLetter := [];
      position := 0;
      attempts := 0;
      isComplete := false;
      error := NoError;
      completions := 0;
      gameOverAlerts := 0;
    }

    /**
     * New props. When the start or target word changes, the effect resets
     * all seven state fields.
     */
    method ChangeProps(newStart: string, newTarget: string, newMaxAttempts: int)
      requires Valid()
      modifies this
      ensures Valid()
      ensures startWord == newStart && targetWord == newTarget && maxAttempts == newMaxAttempts
      ensures (newStart != old(startWord) || newTarget != old(targetWord)) ==>
                currentWord == newStart && wordChain == [newStart] && inputLetter == []
                && position == 0 && attempts == 0 && !isComplete && error == NoError
      ensures (newStart == old(startWord) && newTarget == old(targetWord)) ==>
                currentWord == old(currentWord) && wordChain == old(wordChain)
                && inputLetter == old(inputLetter) && position == old(position)
                && attempts == old(attempts) && isComplete == old(isComplete) && error == old(error)
      ensures completions == old(completions) && gameOverAlerts == old(gameOverAlerts)
    {
      var changed := newStart != startWord || newTarget != targetWord;
      startWord, targetWord, maxAttempts := newStart, newTarget, newMaxAttempts;
      if changed {
        currentWord := newStart;
        wordChain := [newStart];
        inputLetter := [];
        position := 0;
        attempts := 0;
        isComplete := false;
        error := NoError;
      }
    }

    method HandleLetterChange(letter: string)
      requires Valid()
      modifies this`inputLetter
      ensures Valid()
      ensures NormalizeLetter(letter).None? ==> inputLetter == old(inputLetter)
      ensures NormalizeLetter(letter).Some? ==> inputLetter == NormalizeLetter(letter).value
    {
      var normalized := NormalizeLetter(letter);
      if normalized.Some? {
        inputLetter := normalized.value;
      }
    }

    /** Tapping a letter box of the current word selects its position. */
    method HandlePositionSelect(index: nat)
      requires Valid()
      requires index < |currentWord|
      modifies this`position, this`error
      ensures Valid()
      ensures position == index && error == NoError
    {
      position := index;
      error := NoError;
    }

    method HandleSubmit()
      requires Valid()
      modifies this
      ensures Valid()
      ensures startWord == old(startWord) && targetWord == old(targetWord) && maxAttempts == old(maxAttempts)
      ensures position == old(position)
      // Empty input: only the error changes.
      ensures old(inputLetter) == [] ==>
                error == EnterLetter && currentWord == old(currentWord) && wordChain == old(wordChain)
                && inputLetter == old(inputLetter)
                && attempts == old(attempts) && isComplete == old(isComplete)
                && completions == old(completions) && gameOverAlerts == old(gameOverAlerts)
      ensures old(inputLetter) != [] ==>
                var newWord := Substitute(old(currentWord), old(position), old(inputLetter)[0]);
                // The letter did not change the word: only the error changes.
                && (newWord == old(currentWord) ==>
                      error == MustChange && currentWord == old(currentWord) && wordChain == old(wordChain)
                      && inputLetter == old(inputLetter) && attempts == old(attempts)
                      && isComplete == old(isComplete)
                      && completions == old(completions) && gameOverAlerts == old(gameOverAlerts))
                // Not in the dictionary: the attempt is counted, the word stays.
                && (newWord != old(currentWord) && newWord !in ValidWords ==>
                      error == NotValidWord(newWord) && attempts == old(attempts) + 1
                      && currentWord == old(currentWord) && wordChain == old(wordChain)
                      && inputLetter == old(inputLetter) && isComplete == old(isComplete)
                      && completions == old(completions) && gameOverAlerts == old(gameOverAlerts))
                // Accepted: the word moves on and joins the chain.
                && (newWord != old(currentWord) && newWord in ValidWords ==>
                      currentWord == newWord && wordChain == old(wordChain) + [newWord]
                      && inputLetter == [] && attempts == old(attempts) + 1 && error == NoError
                      && isComplete == (old(isComplete) || newWord == targetWord)
                      && completions == old(completions) + (if newWord == targetWord then 1 else 0)
                      && gameOverAlerts
                         == old(gameOverAlerts)
                            + (if old(attempts) + 1 >= maxAttempts && newWord != targetWord then 1 else 0))
    {
      if inputLetter == [] {
        error := EnterLetter;
        return;
      }
      var newWord := Substitute(currentWord, position, inputLetter[0]);
      if newWord == currentWord {
        error := MustChange;
        return;
      }
      if newWord !in ValidWords {
        error := NotValidWord(newWord);
        attempts := attempts + 1;
        return;
      }
      AcceptWord(newWord);
    }

    /** The accepted branch of Submit: the new word joins the chain. */
    method AcceptWord(newWord: string)
      requires Valid() && inputLetter != []
      requires newWord == Substitute(currentWord, position, inputLetter[0])
      requires newWord in ValidWords && newWord != currentWord
      modifies this`currentWord, this`wordChain, this`inputLetter, this`attempts, this`error
      modifies this`isComplete, this`completions, this`gameOverAlerts
      ensures Valid()
      ensures currentWord == newWord && wordChain == old(wordChain) + [newWord]
      ensures inputLetter == [] && attempts == old(attempts) + 1 && error == NoError
      ensures isComplete == (old(isComplete) || newWord == targetWord)
      ensures completions == old(completions) + (if newWord == targetWord then 1 else 0)
      ensures gameOverAlerts
              == old(gameOverAlerts) + (if old(attempts) + 1 >= maxAttempts && newWord != targetWord then 1 else 0)
    {
      ChainExtend(startWord, wordChain, position, inputLetter[0]);
      currentWord := newWord;
      wordChain := wordChain + [newWord];
      inputLetter := [];
      attempts := attempts + 1;
      error := NoError;
      if newWord == targetWord {
        isComplete := true;
        completions := completions + 1;
      }
      if attempts >= maxAttempts && newWord != targetWord {
        gameOverAlerts := gameOverAlerts + 1;
      }
    }
  }
  /**
   * One round of play: tap `position`, type `letter`, press Submit, where the
   * resulting word is a new dictionary word.
   */
  method PlayStep(p: WordChainPuzzle, position: nat, letter: char)
    requires p.Valid() && position < |p.currentWord| && IsUpper(letter)
    requires Substitute(p.currentWord, position, letter) in ValidWords
    requires Substitute(p.currentWord, position, letter) != p.currentWord
    modifies p
    ensures p.Valid()
    ensures p.startWord == old(p.startWord) && p.targetWord == old(p.targetWord)
    ensures p.maxAttempts == old(p.maxAttempts)
    ensures p.currentWord == Substitute(old(p.currentWord), position, letter)
    ensures p.wordChain == old(p.wordChain) + [p.currentWord]
    ensures p.attempts == old(p.attempts) + 1 && p.inputLetter == []
    ensures p.isComplete == (old(p.isComplete) || p.currentWord == p.targetWord)
    ensures p.completions == old(p.completions) + (if p.currentWord == p.targetWord then 1 else 0)
    ensures p.gameOverAlerts
            == old(p.gameOverAlerts)
               + (if p.attempts >= p.maxAttempts && p.currentWord != p.targetWord then 1 else 0)
  {
    p.HandlePositionSelect(position);
    p.HandleLetterChange([letter]);
    p.HandleSubmit();
  }

  /**
   * A player who follows the hint on the default puzzle. The fourth
   * submission reaches the target on the last allowed attempt, so the puzzle
   * completes once and no "Game Over" alert is scheduled.
   */
  method PlayHintedChain() returns (p: WordChainPuzzle)
    ensures p.isComplete && p.completions == 1 && p.gameOverAlerts == 0
    ensures p.attempts == DefaultMaxAttempts && p.attempts == p.maxAttempts
    ensures p.wordChain == HintedChain && p.currentWord == DefaultTargetWord
  {
    p := new WordChainPuzzle(DefaultStartWord, DefaultTargetWord, DefaultMaxAttempts);
    assert Substitute("COLD", 2, 'R') == "CORD";
    PlayStep(p, 2, 'R');
    assert Substitute("CORD", 0, 'W') == "WORD";
    PlayStep(p, 0, 'W');
    assert Substitute("WORD", 3, 'M') == "WORM";
    PlayStep(p, 3, 'M');
    assert Substitute("WORM", 1, 'A') == "WARM";
    PlayStep(p, 1, 'A');
  }
}
