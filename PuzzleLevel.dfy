/**
 * The frame around every puzzle: the bulb balance, the hint overlay and the
 * skip action. Hints cost one bulb, a guarded skip costs three.
 */
module PuzzleLevel {
  import opened Wrappers

  const InitialBulbs := 5
  const HintCost := 1
  const SkipCost := 3

  /** The component's state fields, plus how often `onSkip` was called. */
  datatype HintState = HintState(
    bulbs: int,
    showHint: bool,
    currentHintIndex: int,
    hintUsed: bool,
    skipCalls: nat)

  /**
   * User actions. `GuardedSkip` is `handleSkip`, which no button reaches;
   * `SkipButton` is the header button, which calls `onSkip` directly.
   */
  datatype HintEvent = HintPress | CloseHint | GuardedSkip | SkipButton

  /** The state after one action, read against the state before it. */
  function Apply(s: HintState, e: HintEvent): (r: HintState)
    ensures s.bulbs >= 0 ==> r.bulbs >= 0
    ensures r.bulbs <= s.bulbs
    ensures s.hintUsed ==> r.hintUsed
    ensures r.skipCalls >= s.skipCalls
  {
    match e
    case HintPress =>
      if s.bulbs > 0 then
        s.(bulbs := s.bulbs - HintCost, showHint := true, hintUsed := true,
           currentHintIndex := s.currentHintIndex + 1)
      else s
    case CloseHint => s.(showHint := false)
    case GuardedSkip =>
      if s.bulbs >= SkipCost then s.(bulbs := s.bulbs - SkipCost, skipCalls := s.skipCalls + 1)
      else s
    case SkipButton => s.(skipCalls := s.skipCalls + 1)
  }

  /** The state after a sequence of actions. */
  function Run(s: HintState, events: seq<HintEvent>): HintState
    decreases |events|
  {
    if events == [] then s else Run(Apply(s, events[0]), events[1..])
  }

  /** The "+Bonus: No hint used!" line shows exactly on a complete level with no hint used. */
  predicate BonusBannerVisible(isComplete: bool, s: HintState)
  {
    isComplete && !s.hintUsed
  }

  /** No sequence of actions drives a non-negative balance below zero. */
  lemma {:induction false} RunKeepsBulbsNonNegative(s: HintState, events: seq<HintEvent>)
    requires s.bulbs >= 0
    ensures Run(s, events).bulbs >= 0
    decreases |events|
  {
    if events != [] {
      RunKeepsBulbsNonNegative(Apply(s, events[0]), events[1..]);
    }
  }

  /** Nothing ever refunds a bulb. */
  lemma {:induction false} RunNeverRaisesBulbs(s: HintState, events: seq<HintEvent>)
    ensures Run(s, events).bulbs <= s.bulbs
    decreases |events|
  {
    if events != [] {
      RunNeverRaisesBulbs(Apply(s, events[0]), events[1..]);
    }
  }

  /** Once a hint has been used the bonus banner can never come back. */
  lemma {:induction false} RunKeepsHintUsed(s: HintState, events: seq<HintEvent>, isComplete: bool)
    requires s.hintUsed
    ensures Run(s, events).hintUsed
    ensures !BonusBannerVisible(isComplete, Run(s, events))
    decreases |events|
  {
    if events != [] {
      RunKeepsHintUsed(Apply(s, events[0]), events[1..], isComplete);
    }
  }

  /** The actions the rendered buttons can trigger (`handleSkip` is not among them). */
  predicate Wired(events: seq<HintEvent>)
  {
    forall i :: 0 <= i < |events| ==> events[i] != GuardedSkip
  }

  /**
   * As wired, bulbs leave only through hints, one per hint shown: the balance
   * plus the hint counter is constant, and skipping is free.
   */
  lemma {:induction false} WiredRunConservesBulbs(s: HintState, events: seq<HintEvent>)
    requires Wired(events)
    ensures Run(s, events).bulbs + Run(s, events).currentHintIndex == s.bulbs + s.currentHintIndex
    decreases |events|
  {
    if events != [] {
      assert Wired(events[1..]) by {
        forall i | 0 <= i < |events[1..]| ensures events[1..][i] != GuardedSkip {
          assert events[1..][i] == events[i + 1];
        }
      }
      WiredRunConservesBulbs(Apply(s, events[0]), events[1..]);
    }
  }

  class PuzzleLevel {
    const isComplete: bool
    var bulbs: int
    var showHint: bool
    var currentHintIndex: int
    var hintUsed: bool
    /** How many times `onSkip` has been called. */
    var skipCalls: nat

    function Snapshot(): HintState
      reads this
    {
      HintState(bulbs, showHint, currentHintIndex, hintUsed, skipCalls)
    }

    /** Whether this component shows the "+Bonus: No hint used!" line. */
    predicate BonusShown()
      reads this
    {
      BonusBannerVisible(isComplete, Snapshot())
    }

    /**
     * Mounting: the balance starts at 5 and the load effect replaces it with
     * the stored count when one is present.
     */
    constructor (isComplete: bool, storedBulbs: Option<int>)
      ensures this.isComplete == isComplete
      ensures bulbs == (if storedBulbs.Some? then storedBulbs.value else InitialBulbs)
      ensures !showHint && currentHintIndex == 0 && !hintUsed && skipCalls == 0
    {
      this.isComplete := isComplete;
      bulbs := InitialBulbs;
      showHint := false;
      currentHintIndex := 0;
      hintUsed := false;
      skipCalls := 0;
      new;
      if storedBulbs.Some? {
        bulbs := storedBulbs.value;
      }
    }

    method HandleHintPress()
      modifies this
      ensures Snapshot() == Apply(old(Snapshot()), HintPress)
      ensures old(bulbs) > 0 ==>
                bulbs == old(bulbs) - 1 && currentHintIndex == old(currentHintIndex) + 1
                && showHint && hintUsed && skipCalls == old(skipCalls)
      ensures old(bulbs) > 0 ==> !BonusShown()
      ensures old(bulbs) <= 0 ==> Snapshot() == old(Snapshot())
    {
      if bulbs > 0 {
        bulbs := bulbs - HintCost;
        showHint := true;
        hintUsed := true;
        currentHintIndex := currentHintIndex + 1;
      }
    }

    /** `handleSkip`: defined in the component but bound to no button. */
    method HandleSkip()
      modifies this
      ensures Snapshot() == Apply(old(Snapshot()), GuardedSkip)
      ensures old(bulbs) >= 3 ==> bulbs == old(bulbs) - 3 && skipCalls == old(skipCalls) + 1
      ensures old(bulbs) < 3 ==> Snapshot() == old(Snapshot())
      ensures showHint == old(showHint) && currentHintIndex == old(currentHintIndex) && hintUsed == old(hintUsed)
    {
      if bulbs >= SkipCost {
        bulbs := bulbs - SkipCost;
        skipCalls := skipCalls + 1;
      }
    }

    /** The skip button as rendered: calls `onSkip` with no check and no cost. */
    method SkipButtonPress()
      modifies this
      ensures Snapshot() == Apply(old(Snapshot()), SkipButton)
      ensures skipCalls == old(skipCalls) + 1 && bulbs == old(bulbs)
    {
      skipCalls := skipCalls + 1;
    }

    /** The close button of the hint overlay. */
    method HandleHintClose()
      modifies this
      ensures Snapshot() == Apply(old(Snapshot()), CloseHint)
      ensures !showHint
      ensures bulbs == old(bulbs) && currentHintIndex == old(currentHintIndex)
      ensures hintUsed == old(hintUsed) && skipCalls == old(skipCalls)
    {
      showHint := false;
    }
  }
}
