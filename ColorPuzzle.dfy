/** Color sequence: press three colors in the right order. */
module ColorPuzzle {

  /** The four color buttons on screen: red, green, blue, yellow. */
  const Colors: seq<string> := ["#FF0000", "#00FF00", "#0000FF", "#FFFF00"]
  const CorrectSequence: seq<string> := ["#FF0000", "#0000FF", "#FFFF00"]

  class ColorPuzzle {
    var selectedColors: seq<string>
    /** How many times `onComplete` has been called. */
    var completions: nat

    /**
     * Before success fewer than three colors are held; after it the first
     * three are the correct sequence and `onComplete` has run exactly once.
     */
    ghost predicate Valid()
      reads this
    {
      && completions <= 1
      && (completions == 0 ==> |selectedColors| < |CorrectSequence|)
      && (completions == 1 ==>
            |selectedColors| >= |CorrectSequence|
            && selectedColors[..|CorrectSequence|] == CorrectSequence)
    }

    constructor ()
      ensures Valid() && selectedColors == [] && completions == 0
    {
      selectedColors := [];
      completions := 0;
    }

    /**
     * Appends the color; at exactly three colors, the right sequence calls
     * `onComplete` and a wrong one empties the selection. Only the four
     * rendered buttons call it.
     */
    method HandleColorPress(color: string)
      requires Valid() && color in Colors
      modifies this
      ensures Valid()
      ensures |old(selectedColors)| + 1 != |CorrectSequence| ==>
                selectedColors == old(selectedColors) + [color] && completions == old(completions)
      ensures |old(selectedColors)| + 1 == |CorrectSequence| && old(selectedColors) + [color] == CorrectSequence ==>
                selectedColors == CorrectSequence && completions == old(completions) + 1
      ensures |old(selectedColors)| + 1 == |CorrectSequence| && old(selectedColors) + [color] != CorrectSequence ==>
                selectedColors == [] && completions == old(completions)
    {
      var newColors := selectedColors + [color];
      selectedColors := newColors;
      if |newColors| == |CorrectSequence| {
        if newColors == CorrectSequence {
          completions := completions + 1;
        } else {
          selectedColors := [];
        }
      }
    }
  }
}
