/**
 * The level catalog: levels 1..3 are written out by hand, levels 4..100 are
 * generated from the id, and every other id is absent (`null`).
 */
module LevelData {
  import opened Wrappers

  /** The `type` tag of a catalog entry. */
  datatype PuzzleType = Logic | Visual | Word

  /** The puzzle component a catalog entry renders. */
  datatype PuzzleComponent = LightBulbPuzzle | CountingPuzzle | WordPuzzle

  datatype Difficulty = Easy | Medium | Hard

  datatype Level = Level(
    kind: PuzzleType,
    question: string,
    hint: string,
    component: PuzzleComponent,
    difficulty: Difficulty)

  const FirstLevel := 1
  const LastLevel := 100

  /** Question texts, indexed by puzzle type and then by `level % 5`. */
  const Questions: seq<seq<string>> := [
    [ "Find a way to illuminate the darkness!",
      "Power up the circuit to proceed!",
      "Light up the room using your creativity!",
      "Find the hidden switch mechanism!",
      "Activate the ancient light source!" ],
    [ "Count all the shapes you can find!",
      "How many patterns can you spot?",
      "Find the total number of geometric forms!",
      "Calculate the sum of all visible figures!",
      "Count every shape, even the hidden ones!" ],
    [ "Rearrange the letters to find the solution!",
      "Transform this word into another!",
      "Solve this letter puzzle!",
      "Find the hidden word by rotating letters!",
      "Make a new word from these letters!" ]
  ]

  /** Hint texts, laid out like `Questions`. */
  const Hints: seq<seq<string>> := [
    [ "Try interacting with different parts of the puzzle!",
      "Some elements might need multiple interactions!",
      "Think about how real lights work!",
      "Look for patterns in the behavior!",
      "Try a different approach than the obvious one!" ],
    [ "Remember to look for overlapping shapes!",
      "Don't forget to count combinations!",
      "Break down the pattern into smaller parts!",
      "Look for shapes within shapes!",
      "Consider all possible formations!" ],
    [ "Some letters might look different when rotated!",
      "Try rotating each letter to see what happens!",
      "Think about symmetry in letters!",
      "One rotation might be all you need!",
      "Look for letters that could become others!" ]
  ]

  const Types: seq<PuzzleType> := [Logic, Visual, Word]
  const Components: seq<PuzzleComponent> := [LightBulbPuzzle, CountingPuzzle, WordPuzzle]

  /** Type and component always travel together. */
  predicate Paired(kind: PuzzleType, component: PuzzleComponent)
  {
    match kind
    case Logic => component == LightBulbPuzzle
    case Visual => component == CountingPuzzle
    case Word => component == WordPuzzle
  }

  function PuzzleQuestion(level: int, puzzleType: int): (q: string)
    requires level >= 0 && 0 <= puzzleType < 3
    ensures q in Questions[puzzleType]
  {
    Questions[puzzleType][level % 5]
  }

  function PuzzleHint(level: int, puzzleType: int): (h: string)
    requires level >= 0 && 0 <= puzzleType < 3
    ensures h in Hints[puzzleType]
  {
    Hints[puzzleType][level % 5]
  }

  /** The id thresholds used for generated levels. */
  function DifficultyFor(i: int): Difficulty
  {
    if i <= 33 then Easy else if i <= 66 then Medium else Hard
  }

  /** The entry the generating loop stores under id `i`. */
  function GeneratedLevel(i: int): (l: Level)
    requires i >= 0
    ensures Paired(l.kind, l.component)
    ensures l.kind == Types[i % 3]
    ensures l.question == Questions[i % 3][i % 5] && l.hint == Hints[i % 3][i % 5]
    ensures DifficultyRank(l.difficulty) == (if i <= 33 then 0 else if i <= 66 then 1 else 2)
  {
    var puzzleType := i % 3;
    Level(Types[puzzleType], PuzzleQuestion(i, puzzleType), PuzzleHint(i, puzzleType),
          Components[puzzleType], DifficultyFor(i))
  }

  /** The three hand-written levels. */
  const HandWritten: map<int, Level> := map[
    1 := Level(Logic,
               "Turn on the light! But remember... sometimes the obvious solution isn't the right one.",
               "Try tapping the bulb multiple times to warm it up!",
               LightBulbPuzzle, Easy),
    2 := Level(Visual,
               "How many triangles can you find? Count carefully!",
               "Don't forget to count the triangles formed by smaller ones!",
               CountingPuzzle, Easy),
    3 := Level(Word,
               "Transform 'RATS' into 'STAR' by rotating only one letter!",
               "One of these letters looks similar when rotated...",
               WordPuzzle, Easy)
  ]

  /** What the catalog holds for `id`: the specification of `GetLevelData`. */
  function LevelSpec(id: int): (r: Option<Level>)
    ensures r.Some? <==> FirstLevel <= id <= LastLevel
    ensures r.Some? ==> Paired(r.value.kind, r.value.component)
    ensures r.Some? ==> r.value.difficulty == DifficultyFor(id)
    ensures 4 <= id <= LastLevel ==>
              r.value.kind == Types[id % 3]
              && r.value.question == Questions[id % 3][id % 5]
              && r.value.hint == Hints[id % 3][id % 5]
  {
    if id in HandWritten then Some(HandWritten[id])
    else if 4 <= id <= LastLevel then Some(GeneratedLevel(id))
    else None
  }

  /**
   * Builds the table as the source does, hand-written levels first and then
   * a loop over 4..100, and looks `levelId` up in it.
   */
  method GetLevelData(levelId: int) returns (r: Option<Level>)
    ensures r == LevelSpec(levelId)
  {
    var levels := HandWritten;
    for i := 4 to LastLevel + 1
      invariant forall k :: k in levels <==> FirstLevel <= k < i
      invariant forall k :: k in levels ==> LevelSpec(k) == Some(levels[k])
    {
      levels := levels[i := GeneratedLevel(i)];
    }
    r := if levelId in levels then Some(levels[levelId]) else None;
  }

  /** Orders difficulties from easiest to hardest. */
  function DifficultyRank(d: Difficulty): nat
  {
    match d
    case Easy => 0
    case Medium => 1
    case Hard => 2
  }
}
