/** Number series: pick the option that continues the shown sequence. */
module NumberSeriesPuzzle {
  import opened Wrappers

  datatype SeriesConfig = SeriesConfig(series: seq<int>, answer: int, options: seq<int>)

  const DefaultConfig := SeriesConfig([2, 4, 8, 16], 32, [24, 28, 32, 64])

  /** `config || defaultConfig`. */
  function EffectiveConfig(config: Option<SeriesConfig>): (c: SeriesConfig)
    ensures config.None? ==> c.series == [2, 4, 8, 16] && c.answer == 32 && c.options == [24, 28, 32, 64]
    ensures config.Some? ==> c == config.value
  {
    if config.Some? then config.value else DefaultConfig
  }

  /**
   * The default puzzle is well posed: each term doubles the one before, the
   * answer doubles the last term, and exactly one option is the answer.
   */
  lemma DefaultConfigWellPosed()
    ensures var c := DefaultConfig;
            && (forall i :: 1 <= i < |c.series| ==> c.series[i] == 2 * c.series[i - 1])
            && c.answer == 2 * c.series[|c.series| - 1]
            && c.answer in c.options
            && forall i, j :: 0 <= i < j < |c.options| ==> c.options[i] != c.options[j]
  {
  }

  class NumberSeriesPuzzle {
    const config: SeriesConfig
    var selectedOption: Option<int>
    var attempts: nat
    var isCorrect: bool
    /** How many times the effect has scheduled `onComplete`. */
    var completions: nat
    /** Wrong picks whose "clear the selection" timer has not yet fired. */
    var pendingClears: nat

    ghost predicate Valid()
      reads this
    {
      completions == (if isCorrect then 1 else 0)
    }

    constructor (config: Option<SeriesConfig>)
      ensures Valid()
      ensures this.config == EffectiveConfig(config)
      ensures selectedOption.None? && attempts == 0 && !isCorrect && completions == 0 && pendingClears == 0
    {
      this.config := EffectiveConfig(config);
      selectedOption := None;
      attempts := 0;
      isCorrect := false;
      completions := 0;
      pendingClears := 0;
    }

    /** The option buttons are disabled once the answer is found. */
    predicate OptionsEnabled()
      reads this
    {
      !isCorrect
    }

    /**
     * A pick is counted and shown as selected; the right one sets `isCorrect`,
     * whose effect schedules `onComplete`; a wrong one arms a timer that will
     * clear the selection.
     */
    method HandleOptionSelect(option: int)
      requires Valid() && OptionsEnabled()
      modifies this
      ensures Valid()
      ensures selectedOption == Some(option) && attempts == old(attempts) + 1
      ensures isCorrect == (option == config.answer)
      ensures completions == old(completions) + (if option == config.answer then 1 else 0)
      ensures pendingClears == old(pendingClears) + (if option == config.answer then 0 else 1)
      ensures isCorrect ==> !OptionsEnabled()
    {
      selectedOption := Some(option);
      attempts := attempts + 1;
      if option == config.answer {
        isCorrect := true;
        completions := completions + 1;
      } else {
        pendingClears := pendingClears + 1;
      }
    }

    /** A wrong pick's timer fires and clears the selection, whatever it is now. */
    method SelectionTimerFires()
      requires Valid() && pendingClears > 0
      modifies this`selectedOption, this`pendingClears
      ensures Valid()
      ensures selectedOption.None? && pendingClears == old(pendingClears) - 1
    {
      selectedOption := None;
      pendingClears := pendingClears - 1;
    }
  }
}
