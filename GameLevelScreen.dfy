/**
 * The screen that plays one level: it looks the level up, records a
 * completion in the progress store, and navigates on skip and home.
 */
module GameLevelScreen {
  import opened Wrappers
  import LevelData
  import opened Storage

  datatype Route = GameLevel(levelId: int) | LevelSelect | Home

  /** Both completion callbacks award this many stars. */
  const CompletionStars := 3

  /**
   * The progress map after level `levelId` completes: its record is replaced
   * as a whole and every other entry is kept.
   */
  function RecordCompletion(saved: map<int, ProgressRecord>, levelId: int, stars: int, completedAt: string)
    : (r: map<int, ProgressRecord>)
    ensures r.Keys == saved.Keys + {levelId}
    ensures r[levelId] == ProgressRecord(true, stars, completedAt)
    ensures forall k :: k in saved && k != levelId ==> r[k] == saved[k]
  {
    saved[levelId := ProgressRecord(true, stars, completedAt)]
  }

  class GameLevelScreen {
    const levelId: int
    const storage: ProgressStorage
    var levelData: Option<LevelData.Level>
    var route: Route

    /** Mounting runs the effect that loads the level definition. */
    constructor (levelId: int, storage: ProgressStorage)
      ensures this.levelId == levelId && this.storage == storage
      ensures levelData == LevelData.LevelSpec(levelId)
      ensures route == GameLevel(levelId)
      ensures Renders() <==> LevelData.FirstLevel <= levelId <= LevelData.LastLevel
    {
      this.levelId := levelId;
      this.storage := storage;
      route := GameLevel(levelId);
      var levelInfo := LevelData.GetLevelData(levelId);
      levelData := levelInfo;
    }

    /** The screen renders nothing when the catalog has no such level. */
    predicate Renders()
      reads this
    {
      levelData.Some?
    }

    /**
     * Reads the stored map (absent means empty), replaces this level's record
     * and writes the map back. A read that throws writes nothing.
     */
    method HandleLevelComplete(stars: int, completedAt: string)
      modifies storage
      ensures old(storage.levelProgress).Unparsable? ==> storage.levelProgress == old(storage.levelProgress)
      ensures !old(storage.levelProgress).Unparsable? ==>
                storage.levelProgress
                == Parsed(RecordCompletion(SavedOrEmpty(old(storage.levelProgress)), levelId, stars, completedAt))
    {
      if !storage.levelProgress.Unparsable? {
        var savedProgress := SavedOrEmpty(storage.levelProgress);
        savedProgress := savedProgress[levelId := ProgressRecord(true, stars, completedAt)];
        storage.levelProgress := Parsed(savedProgress);
      }
    }

    /**
     * The `onComplete` handed to the puzzle component and to PuzzleLevel:
     * both award three stars.
     */
    method OnComplete(completedAt: string)
      modifies storage
      ensures old(storage.levelProgress).Unparsable? ==> storage.levelProgress == old(storage.levelProgress)
      ensures !old(storage.levelProgress).Unparsable? ==>
                storage.levelProgress
                == Parsed(RecordCompletion(SavedOrEmpty(old(storage.levelProgress)), levelId, CompletionStars, completedAt))
    {
      HandleLevelComplete(CompletionStars, completedAt);
    }

    /** Skip goes back to level selection and writes no progress. */
    method OnSkip()
      modifies this
      ensures route == LevelSelect
      ensures levelData == old(levelData)
      ensures storage.levelProgress == old(storage.levelProgress)
    {
      route := LevelSelect;
    }

    /** Home goes to the home screen and writes no progress. */
    method OnGoHome()
      modifies this
      ensures route == Home
      ensures levelData == old(levelData)
      ensures storage.levelProgress == old(storage.levelProgress)
    {
      route := Home;
    }
  }
}
