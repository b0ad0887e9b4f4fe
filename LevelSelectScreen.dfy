/**
 * The level-selection screen: derives the 100 displayed entries from the
 * stored progress map. Nothing is locked; every entry opens its level.
 */
module LevelSelectScreen {
  import Decimal
  import LevelData
  import opened Storage
  import GameLevelScreen

  /** The label shown under each level number (a six-way cycle). */
  datatype Category = Logic | Visual | Math | Word | Memory | Pattern

  const Types: seq<Category> := [Logic, Visual, Math, Word, Memory, Pattern]

  const LevelCount := 100

  datatype LevelEntry = LevelEntry(
    id: int,
    title: string,
    category: Category,
    difficulty: LevelData.Difficulty,
    completed: bool,
    stars: int)

  function LevelType(level: int): Category
    requires level >= 0
  {
    Types[level % |Types|]
  }

  function LevelDifficulty(level: int): (d: LevelData.Difficulty)
    ensures d == LevelData.DifficultyFor(level)
  {
    if level <= 33 then LevelData.Easy
    else if level <= 66 then LevelData.Medium
    else LevelData.Hard
  }

  /** "Level n". */
  function Title(n: nat): string
  {
    "Level " + Decimal.NatToString(n)
  }

  /** The entry for level `n`, decorated from its saved record if any. */
  function Entry(saved: map<int, ProgressRecord>, n: nat): LevelEntry
  {
    LevelEntry(n, Title(n), LevelType(n), LevelDifficulty(n),
               if n in saved then saved[n].completed else false,
               if n in saved then saved[n].stars else 0)
  }

  /** The list `Array.from({ length: 100 }, ...)` builds. */
  function GenerateLevels(saved: map<int, ProgressRecord>): (levels: seq<LevelEntry>)
    ensures |levels| == LevelCount
    ensures forall k :: 0 <= k < |levels| ==> levels[k].id == k + 1 && levels[k].title == Title(k + 1)
    ensures forall k :: 0 <= k < |levels| ==>
              levels[k].completed == (k + 1 in saved && saved[k + 1].completed)
              && levels[k].stars == (if k + 1 in saved then saved[k + 1].stars else 0)
    ensures forall k :: 0 <= k < |levels| ==>
              levels[k].category == LevelType(k + 1) && levels[k].difficulty == LevelDifficulty(k + 1)
  {
    seq(LevelCount, i requires 0 <= i => Entry(saved, i + 1))
  }

  /** Ids appear in strictly increasing order and titles never repeat. */
  lemma GeneratedIdsAndTitlesDistinct(saved: map<int, ProgressRecord>, j: int, k: int)
    requires 0 <= j < k < LevelCount
    ensures GenerateLevels(saved)[j].id < GenerateLevels(saved)[k].id
    ensures GenerateLevels(saved)[j].title != GenerateLevels(saved)[k].title
  {
    var levels := GenerateLevels(saved);
    if levels[j].title == levels[k].title {
      assert Decimal.NatToString(j + 1) == levels[j].title[6..];
      assert Decimal.NatToString(k + 1) == levels[k].title[6..];
      Decimal.NatToStringInjective(j + 1, k + 1);
    }
  }

  /** The label cycles through the six categories with period six. */
  lemma LevelTypePeriodic(n: nat)
    ensures LevelType(n + |Types|) == LevelType(n)
  {
  }

  /** With nothing stored every entry is uncompleted with no stars. */
  lemma AbsentProgressIsBlank(k: int)
    requires 0 <= k < LevelCount
    ensures !GenerateLevels(SavedOrEmpty(Absent))[k].completed
    ensures GenerateLevels(SavedOrEmpty(Absent))[k].stars == 0
  {
  }

  /** Difficulty follows the 33/66 thresholds and never decreases with the id. */
  lemma DifficultyMonotone(a: int, b: int)
    requires a <= b
    ensures LevelData.DifficultyRank(LevelDifficulty(a)) <= LevelData.DifficultyRank(LevelDifficulty(b))
  {
  }

  /** The displayed difficulty agrees with the catalog's for every listed level. */
  lemma DifficultyAgreesWithCatalog(n: int)
    requires 1 <= n <= LevelCount
    ensures LevelData.LevelSpec(n).Some?
    ensures LevelData.LevelSpec(n).value.difficulty == LevelDifficulty(n)
  {
  }

  /**
   * Every listed entry opens a level that the catalog defines, so no entry is
   * locked and none leads to an empty screen.
   */
  lemma EveryEntryOpensALevel(saved: map<int, ProgressRecord>, k: int)
    requires 0 <= k < LevelCount
    ensures LevelData.LevelSpec(GenerateLevels(saved)[k].id).Some?
  {
  }

  /** The label a catalog puzzle type would carry in the six-way cycle. */
  function CatalogLabel(kind: LevelData.PuzzleType): Category
  {
    match kind
    case Logic => Logic
    case Visual => Visual
    case Word => Word
  }

  /**
   * The listed label and the catalog's type are two different cycles: for a
   * generated level they agree exactly when the id is 0 or 1 modulo 6, and
   * levels 1 and 2 are listed as "Visual" and "Math" although the catalog
   * makes them a Logic and a Visual puzzle.
   */
  lemma LabelDisagreesWithCatalog(n: int)
    requires 4 <= n <= LevelCount
    ensures LevelType(n) == CatalogLabel(LevelData.LevelSpec(n).value.kind) <==> n % 6 <= 1
    ensures LevelType(1) == Visual && LevelData.LevelSpec(1).value.kind == LevelData.Logic
    ensures LevelType(2) == Math && LevelData.LevelSpec(2).value.kind == LevelData.Visual
  {
    assert n % 3 == (n % 6) % 3;
  }

  /**
   * A completion recorded by the game screen shows in the regenerated list:
   * the level's entry is completed with the recorded stars, and every other
   * entry is as before.
   */
  lemma CompletionShowsInList(saved: map<int, ProgressRecord>, levelId: int, stars: int, completedAt: string)
    requires 1 <= levelId <= LevelCount
    ensures GenerateLevels(GameLevelScreen.RecordCompletion(saved, levelId, stars, completedAt))[levelId - 1].completed
    ensures GenerateLevels(GameLevelScreen.RecordCompletion(saved, levelId, stars, completedAt))[levelId - 1].stars == stars
    ensures forall k :: 0 <= k < LevelCount && k != levelId - 1 ==>
              GenerateLevels(GameLevelScreen.RecordCompletion(saved, levelId, stars, completedAt))[k]
              == GenerateLevels(saved)[k]
  {
  }

  class LevelSelectScreen {
    var levels: seq<LevelEntry>

    constructor ()
      ensures levels == []
    {
      levels := [];
    }

    /**
     * Regenerates the list from the progress store that the game screen
     * writes; a read that throws leaves it as it was.
     */
    method LoadLevelProgress(storage: ProgressStorage)
      modifies this
      ensures storage.levelProgress.Unparsable? ==> levels == old(levels)
      ensures !storage.levelProgress.Unparsable? ==>
                levels == GenerateLevels(SavedOrEmpty(storage.levelProgress))
    {
      var stored := storage.levelProgress;
      if !stored.Unparsable? {
        var savedProgress := SavedOrEmpty(stored);
        levels := GenerateLevels(savedProgress);
      }
    }
  }

  /**
   * Completing a level on the game screen and coming back to the list, with
   * both screens on the same store: the level's entry now shows completed
   * with three stars. When the store cannot be parsed, neither screen
   * changes anything.
   */
  method CompleteAndReturn(game: GameLevelScreen.GameLevelScreen, list: LevelSelectScreen, completedAt: string)
    requires 1 <= game.levelId <= LevelCount
    modifies game.storage, list
    ensures !old(game.storage.levelProgress).Unparsable? ==>
              |list.levels| == LevelCount
              && list.levels[game.levelId - 1].completed
              && list.levels[game.levelId - 1].stars == GameLevelScreen.CompletionStars
    ensures old(game.storage.levelProgress).Unparsable? ==>
              game.storage.levelProgress == old(game.storage.levelProgress) && list.levels == old(list.levels)
  {
    game.OnComplete(completedAt);
    list.LoadLevelProgress(game.storage);
    if !game.storage.levelProgress.Unparsable? {
      CompletionShowsInList(SavedOrEmpty(old(game.storage.levelProgress)), game.levelId,
                            GameLevelScreen.CompletionStars, completedAt);
    }
  }
}
