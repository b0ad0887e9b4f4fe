/** Pattern: tap the four cells in the order 0, 2, 1, 3. */
module PatternPuzzle {

  const CorrectPattern: seq<int> := [0, 2, 1, 3]

  class PatternPuzzle {
    var pattern: seq<int>
    /** How many times `onComplete` has been called. */
    var completions: nat

    /**
     * Before success at most three taps are held; after it the first four are
     * the correct pattern and `onComplete` has run exactly once.
     */
    ghost predicate Valid()
      reads this
    {
      && completions <= 1
      && (completions == 0 ==> |pattern| < |CorrectPattern|)
      && (completions == 1 ==>
            |pattern| >= |CorrectPattern| && pattern[..|CorrectPattern|] == CorrectPattern)
    }

    constructor ()
      ensures Valid() && pattern == [] && completions == 0
    {
      pattern := [];
      completions := 0;
    }

    /**
     * Appends the index; at exactly four taps, the right pattern calls
     * `onComplete` and any other pattern starts over.
     */
    method HandlePress(index: int)
      requires Valid()
      modifies this
      ensures Valid()
      ensures |old(pattern)| + 1 != |CorrectPattern| ==>
                pattern == old(pattern) + [index] && completions == old(completions)
      ensures |old(pattern)| + 1 == |CorrectPattern| && old(pattern) + [index] == CorrectPattern ==>
                pattern == CorrectPattern && completions == old(completions) + 1
      ensures |old(pattern)| + 1 == |CorrectPattern| && old(pattern) + [index] != CorrectPattern ==>
                pattern == [] && completions == old(completions)
    {
      var newPattern := pattern + [index];
      pattern := newPattern;
      if |newPattern| == |CorrectPattern| {
        if newPattern == CorrectPattern {
          completions := completions + 1;
        } else {
          pattern := [];
        }
      }
    }
  }
}
