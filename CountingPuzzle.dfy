/** Counting: pick the number of triangles in the drawing. */
module CountingPuzzle {

  const CorrectAnswer := 13
  const Numbers: seq<int> := [8, 10, 13, 15, 18]

  /** Exactly one offered number is the answer. */
  lemma ExactlyOneCorrectOption()
    ensures CorrectAnswer in Numbers
    ensures forall i, j ::
              (0 <= i < |Numbers| && 0 <= j < |Numbers| && Numbers[i] == CorrectAnswer && Numbers[j] == CorrectAnswer)
              ==> i == j
  {
  }

  class CountingPuzzle {
    var attempts: nat
    /** How many times `onComplete` has been called. */
    var completions: nat

    ghost predicate Valid()
      reads this
    {
      completions <= attempts
    }

    constructor ()
      ensures Valid() && attempts == 0 && completions == 0
    {
      attempts := 0;
      completions := 0;
    }

    /** Every press counts; only 13 calls `onComplete`. */
    method HandleNumberPress(number: int)
      requires Valid()
      modifies this
      ensures Valid()
      ensures attempts == old(attempts) + 1
      ensures completions == old(completions) + (if number == CorrectAnswer then 1 else 0)
    {
      attempts := attempts + 1;
      if number == CorrectAnswer {
        completions := completions + 1;
      }
    }
  }
}
