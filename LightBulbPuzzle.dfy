/** Light bulb: the light comes on only from the third press. */
module LightBulbPuzzle {

  /** Presses before the one that switches the light on. */
  const WarmUpPresses := 2

  class LightBulbPuzzle {
    var switchOn: bool
    var bulbPressed: nat
    /** How many times `onComplete` has been called. */
    var completions: nat

    /**
     * The light is on exactly from the third press, and every press from the
     * third on has called `onComplete`.
     */
    ghost predicate Valid()
      reads this
    {
      && (switchOn <==> bulbPressed > WarmUpPresses)
      && completions == (if bulbPressed > WarmUpPresses then bulbPressed - WarmUpPresses else 0)
    }

    constructor ()
      ensures Valid() && !switchOn && bulbPressed == 0 && completions == 0
    {
      switchOn := false;
      bulbPressed := 0;
      completions := 0;
    }

    /** Counts the press; the test reads the count from before it. */
    method HandleBulbPress()
      requires Valid()
      modifies this
      ensures Valid()
      ensures bulbPressed == old(bulbPressed) + 1
      ensures old(bulbPressed) < WarmUpPresses ==> !switchOn && completions == old(completions)
      ensures old(bulbPressed) >= WarmUpPresses ==> switchOn && completions == old(completions) + 1
      ensures old(switchOn) ==> switchOn
    {
      var before := bulbPressed;
      bulbPressed := bulbPressed + 1;
      if before >= WarmUpPresses {
        switchOn := true;
        completions := completions + 1;
      }
    }
  }
}
