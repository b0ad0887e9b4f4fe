/**
 * Word rotation: tapping a letter turns it by 180 degrees. The completion test
 * compares the letters, which never change, with "STAR".
 */
module WordPuzzle {

  const InitialLetters: seq<char> := "RATS"
  const TargetWord: string := "STAR"
  const Turn := 180

  class WordPuzzle {
    var letters: seq<char>
    var rotations: seq<int>
    var solved: bool
    /** How many times `onComplete` has been called. */
    var completions: nat

    /** The `solved` flag guards `onComplete`, so it runs at most once. */
    ghost predicate Valid()
      reads this
    {
      && |rotations| == |letters|
      && completions == (if solved then 1 else 0)
    }

    /** The letters are still "RATS" and the puzzle is unsolved. */
    ghost predicate Stuck()
      reads this
    {
      letters == InitialLetters && !solved
    }

    constructor ()
      ensures Valid() && Stuck() && rotations == [0, 0, 0, 0] && completions == 0
    {
      letters := InitialLetters;
      rotations := [0, 0, 0, 0];
      solved := false;
      completions := 0;
    }

    method HandleLetterPress(index: nat)
      requires Valid() && index < |letters|
      modifies this
      ensures Valid()
      ensures rotations == old(rotations)[index := old(rotations)[index] + Turn]
      ensures letters == old(letters)
      ensures old(letters) == TargetWord && !old(solved) ==> solved && completions == old(completions) + 1
      ensures old(letters) != TargetWord || old(solved) ==> solved == old(solved) && completions == old(completions)
      ensures old(Stuck()) ==> Stuck() && completions == 0
    {
      rotations := rotations[index := rotations[index] + Turn];
      if letters == TargetWord && !solved {
        solved := true;
        completions := completions + 1;
      }
    }
  }
}
