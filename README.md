# BrainMaster puzzle game: verified model of the game logic

This project models the logic of a React Native puzzle game in Dafny:

- the level catalog (levels 1..100: three hand-written, the rest generated from the id);
- the level-selection list derived from the stored progress map;
- the game screen that records a completion;
- the `PuzzleLevel` frame with its bulb balance, hint overlay and skip action;
- the nine puzzle components, each an event-driven state machine that signals `onComplete`.

Each stateful component is a `class`. Its `useState` values are fields, and each event handler is a
method that reads the state as it was when the event arrived. React closures and `prev =>` updaters
agree on this because events are handled one at a time. Calls to `onComplete` and `onSkip` become
counters (`completions`, `skipCalls`), so "at most once" and "never" become invariants.
- Each puzzle component class has a `Valid()` predicate that its handlers preserve. These are
  `ColorPuzzle`, `PatternPuzzle`, `LightBulbPuzzle`, `CountingPuzzle`, `LogicPuzzle`, `WordPuzzle`,
  `WordChainPuzzle`, `FindObjectsPuzzle` and `NumberSeriesPuzzle`.
- The `PuzzleLevel` class is tied to a step function instead: each handler ensures that `Snapshot()`
  after it is `Apply` of the snapshot before it. Lemmas about `Run` then cover any sequence of events.
- The two screens, `GameLevelScreen` and `LevelSelectScreen`, and the `ProgressStorage` holder keep
  no invariant. Their methods state the new state outright.

Pure logic (lookups, the toggle, the letter substitution, the drag-direction rule) is written as
functions with lemmas.

Modules, one per source file: `LevelData`, `GameLevelScreen`, `LevelSelectScreen`, `PuzzleLevel`,
`WordChainPuzzle`, `FindObjectsPuzzle`, `NumberSeriesPuzzle`, `ColorPuzzle`, `PatternPuzzle`,
`LightBulbPuzzle`, `CountingPuzzle`, `LogicPuzzle`, `WordPuzzle`. There are three support modules:
- `Storage` models the `levelProgress` key: absent, parsed to a map, or text that `JSON.parse` rejects.
- `Decimal` renders and parses numbers as decimal strings, for the "Level n" titles.
- `Wrappers` defines `Option`, standing for `null`.

Behaviour of the code worth knowing (the model follows the code):
- Bulbs are never earned. The hint and skip toasts say "Complete more levels to earn bulbs"
  (components/PuzzleLevel.tsx:50 and 59), but no code adds to the balance: completing a level only
  writes a progress record. The "+Bonus: No hint used!" line (components/PuzzleLevel.tsx:120) credits
  nothing.
- `saveBulbs` (components/PuzzleLevel.tsx:38-41) is never called, so the balance is never written back.
- The skip toast says "Need 3 bulbs to skip" (components/PuzzleLevel.tsx:59), but the rendered skip
  button calls `onSkip` directly (lines 82-84). The bulb-charging `handleSkip` is not bound to any
  button. `PuzzleLevel.WiredRunConservesBulbs` states the consequence: as wired, skipping is free.
- A skip writes no progress record. It only navigates to level selection
  (screens/GameLevelScreen.tsx:54).
- Stars are always 3: both completion callbacks pass 3, under the comment "Default to 3 stars for now"
  (screens/GameLevelScreen.tsx:53).
- Every level can be opened from the list: each entry navigates to its id
  (screens/LevelSelectScreen.tsx:78), and nothing checks earlier levels.
- Each level has one hint text. `currentHintIndex` (components/PuzzleLevel.tsx:29, 48) is counted
  but never read.
- `PuzzleLevel` never calls its own `onComplete` prop. The completion banner depends on an `isComplete`
  prop (components/PuzzleLevel.tsx:113) that `GameLevelScreen` never passes. In the app, the banner
  and its bonus line are therefore never shown.
- The select screen's type label (`types[n % 6]`, six labels, screens/LevelSelectScreen.tsx:48-51) is
  a different mapping from the catalog's type (`i % 3`, three types, utils/levelData.ts:33-35). For
  example, level 1 is listed as "Visual" but is a Logic puzzle.
- The drag handler of `FindObjectsPuzzle` is commented as keeping the selection in a straight line
  (components/puzzles/FindObjectsPuzzle.tsx:72). Its checks only forbid a reversal and make a diagonal
  step repeat, so after a horizontal or vertical step a turn is accepted. The default word HIDDEN needs
  one: it runs down column 0 and then one cell right.
- `WordPuzzle` can never be completed: its letters never change and are never "STAR". It is the
  component of level 3 and of every generated level with `i % 3 == 2`. Those levels can never be
  completed. Home, hardware back and Skip all leave them without a record. Back and Skip return to the
  level list, from which any other level can be opened.

## Model

| member | source | states |
|---|---|---|
| `LevelData.PuzzleQuestion` | utils/levelData.ts:46-72 | the question is one of the five texts for that puzzle type; the index `level % 5` is always in bounds |
| `LevelData.PuzzleHint` | utils/levelData.ts:74-100 | the hint is one of the five texts for that puzzle type; the index is always in bounds |
| `LevelData.LevelSpec` | utils/levelData.ts:5-43 | a level exists exactly for ids 1..100. Type and component are always paired (Logic with LightBulbPuzzle, Visual with CountingPuzzle, Word with WordPuzzle). Difficulty follows the 33/66 thresholds, and the hand-written levels 1-3 agree with them. For ids 4..100 the type is `types[id % 3]`, and question and hint are the `[id % 3][id % 5]` entries |
| `LevelData.GeneratedLevel` | utils/levelData.ts:33-40 | the entry the loop stores for id i: type `types[i % 3]` paired with its component, question and hint `[i % 3][i % 5]`, difficulty easy up to 33, medium up to 66, hard above |
| `LevelData.GetLevelData` | utils/levelData.ts:5-43 | the table built by the hand-written entries plus the loop over 4..100 returns exactly `LevelSpec(id)` (`None` for `null`). Two lookups of one id are therefore equal |
| `Storage.SavedOrEmpty` | screens/GameLevelScreen.tsx:31-32 | an absent stored value reads as the empty map; a parsed one as itself |
| `GameLevelScreen.RecordCompletion` | screens/GameLevelScreen.tsx:34-38 | the level's record becomes `{completed: true, stars, completedAt}`, replacing any earlier record whole; every other key keeps its record and no key is lost |
| `GameLevelScreen.GameLevelScreen.constructor` | screens/GameLevelScreen.tsx:14-16 | mounting loads `getLevelData(levelId)`; the screen renders something exactly when the id is in 1..100 |
| `GameLevelScreen.GameLevelScreen.HandleLevelComplete` | screens/GameLevelScreen.tsx:29-44 | the stored map (absent = empty) is written back with this level's record replaced; when the read throws, storage is unchanged |
| `GameLevelScreen.GameLevelScreen.OnComplete` | screens/GameLevelScreen.tsx:53-58 | both completion callbacks record 3 stars |
| `GameLevelScreen.GameLevelScreen.OnSkip` | screens/GameLevelScreen.tsx:54 | skip navigates to level selection and writes no progress |
| `GameLevelScreen.GameLevelScreen.OnGoHome` | screens/GameLevelScreen.tsx:55 | home navigates to the home screen and writes no progress |
| `Decimal.NatToString` | screens/LevelSelectScreen.tsx:35 | `${n}` is a non-empty string of decimal digits without a leading zero |
| `Decimal.ParseNatToString` | screens/LevelSelectScreen.tsx:35 | reading the decimal rendering gives the number back |
| `Decimal.NatToStringInjective` | screens/LevelSelectScreen.tsx:35 | distinct numbers render differently |
| `LevelSelectScreen.GenerateLevels` | screens/LevelSelectScreen.tsx:33-40 | exactly 100 entries. Entry k has id k+1, title "Level k+1", the label `LevelType(k+1)` and the difficulty `LevelDifficulty(k+1)`. `completed` and `stars` come from the saved record for that id, and default to false and 0 when there is none |
| `LevelSelectScreen.LevelType` | screens/LevelSelectScreen.tsx:48-51 | the label is `types[level % 6]` over the six categories. Its properties are stated by `LevelTypePeriodic` and `LabelDisagreesWithCatalog` |
| `LevelSelectScreen.LevelDifficulty` | screens/LevelSelectScreen.tsx:53-57 | the displayed difficulty is the catalog's difficulty rule (`DifficultyFor`) for every id |
| `LevelSelectScreen.LabelDisagreesWithCatalog` | screens/LevelSelectScreen.tsx:48-51 | for generated levels 4..100 the label names the catalog's puzzle type exactly when the id is 0 or 1 modulo 6. Level 1 is listed "Visual" but is a Logic puzzle, and level 2 is listed "Math" but is a Visual puzzle |
| `LevelSelectScreen.GeneratedIdsAndTitlesDistinct` | screens/LevelSelectScreen.tsx:33-36 | ids strictly increase along the list and no two titles are equal |
| `LevelSelectScreen.LevelTypePeriodic` | screens/LevelSelectScreen.tsx:48-51 | the label repeats with period six: levels n and n + 6 carry the same label |
| `LevelSelectScreen.AbsentProgressIsBlank` | screens/LevelSelectScreen.tsx:30-39 | with no stored progress every entry is uncompleted with 0 stars |
| `LevelSelectScreen.DifficultyMonotone` | screens/LevelSelectScreen.tsx:53-57 | difficulty never decreases as the id grows |
| `LevelSelectScreen.DifficultyAgreesWithCatalog` | screens/LevelSelectScreen.tsx:53-57 | for ids 1..100 the listed difficulty equals the catalog's |
| `LevelSelectScreen.EveryEntryOpensALevel` | screens/LevelSelectScreen.tsx:78 | every entry opens a level the catalog defines: nothing is locked and nothing leads to an empty screen |
| `LevelSelectScreen.LevelSelectScreen.constructor` | screens/LevelSelectScreen.tsx:19 | the list starts empty |
| `LevelSelectScreen.LevelSelectScreen.LoadLevelProgress` | screens/LevelSelectScreen.tsx:27-46 | reads the same progress store the game screen writes. The list becomes the generated list for the stored map (absent = empty); when parsing throws the list is left as it was |
| `LevelSelectScreen.CompletionShowsInList` | screens/LevelSelectScreen.tsx:33-39 | after the game screen records a completion, the regenerated list shows that level completed with the recorded stars, and every other entry is unchanged |
| `LevelSelectScreen.CompleteAndReturn` | screens/GameLevelScreen.tsx:53-58 | completing a level and reloading the list over one shared store shows that level completed with 3 stars; an unparsable store leaves both the store and the list unchanged |
| `PuzzleLevel.Apply` | components/PuzzleLevel.tsx:43-61 | no action makes a non-negative balance negative or raises the balance; `hintUsed` never goes back to false; `onSkip` calls only accumulate |
| `PuzzleLevel.RunKeepsBulbsNonNegative` | components/PuzzleLevel.tsx:43-60 | from a non-negative balance, no sequence of hint, close and skip actions makes it negative |
| `PuzzleLevel.RunNeverRaisesBulbs` | components/PuzzleLevel.tsx:43-60 | no sequence of actions raises the balance |
| `PuzzleLevel.RunKeepsHintUsed` | components/PuzzleLevel.tsx:119-121 | once a hint is used it stays used through any sequence of actions, so the "+Bonus: No hint used!" line (shown exactly when complete and no hint used) cannot reappear |
| `PuzzleLevel.BonusBannerVisible` | components/PuzzleLevel.tsx:113-121 | the "+Bonus: No hint used!" line shows exactly when the level is complete and no hint was used; `RunKeepsHintUsed` shows it stays hidden once a hint is used |
| `PuzzleLevel.WiredRunConservesBulbs` | components/PuzzleLevel.tsx:76-88 | with the buttons as wired (hint, close, direct skip), balance plus hint counter is constant: bulbs leave only through hints, one each |
| `PuzzleLevel.PuzzleLevel.constructor` | components/PuzzleLevel.tsx:27-36 | the balance is the stored count when present, else 5; no hint shown, index 0, no hint used |
| `PuzzleLevel.PuzzleLevel.HandleHintPress` | components/PuzzleLevel.tsx:43-52 | with bulbs > 0: bulbs drop by 1, the index rises by 1, the hint is shown and marked used, and the component's bonus line is hidden; otherwise nothing changes |
| `PuzzleLevel.PuzzleLevel.BonusShown` | components/PuzzleLevel.tsx:113-121 | the component's own bonus line: its `isComplete` prop and no hint used |
| `PuzzleLevel.PuzzleLevel.HandleSkip` | components/PuzzleLevel.tsx:54-61 | with bulbs >= 3: bulbs drop by exactly 3 and `onSkip` is called once; otherwise nothing changes and `onSkip` is not called |
| `PuzzleLevel.PuzzleLevel.SkipButtonPress` | components/PuzzleLevel.tsx:82-84 | the rendered skip button calls `onSkip` once and leaves the balance alone |
| `PuzzleLevel.PuzzleLevel.HandleHintClose` | components/PuzzleLevel.tsx:106 | closing the hint sets only `showHint` to false |
| `WordChainPuzzle.UpperAscii` | screens/WordChainPuzzle.tsx:47-50 | a lower-case ASCII letter becomes the upper-case letter at the same alphabet position; every other character, upper-case letters included, is unchanged. The result is in A-Z exactly when the input is an ASCII letter |
| `WordChainPuzzle.NormalizeLetter` | screens/WordChainPuzzle.tsx:40-55 | the empty string clears the input. Otherwise the last character is kept, upper-cased, and accepted exactly when it is an ASCII letter; a rejected character leaves the input unchanged |
| `WordChainPuzzle.Substitute` | screens/WordChainPuzzle.tsx:69-71 | for a position inside the word, the new word has the letter at that position and agrees with the old word everywhere else; past the end, the letter is appended |
| `WordChainPuzzle.ChainExtend` | screens/WordChainPuzzle.tsx:86-88 | appending an accepted word keeps the chain valid: it starts at the start word, later words are dictionary words, and each is one letter away from the previous word and differs from it |
| `WordChainPuzzle.DefaultChainSolvable` | screens/WordChainPuzzle.tsx:110-115 | the hinted sequence COLD, CORD, WORD, WORM, WARM is a valid chain from the default start word COLD: each step is a dictionary word one letter from the last. It ends at the default target WARM after exactly the default maxAttempts of 4 steps |
| `WordChainPuzzle.PlayStep` | screens/WordChainPuzzle.tsx:57-108 | tapping a position, typing a letter and submitting, when the result is a new dictionary word, moves to that word, extends the chain and counts one attempt. It completes exactly when the word is the target, and alerts when out of attempts short of the target |
| `WordChainPuzzle.PlayHintedChain` | screens/WordChainPuzzle.tsx:12-15 | following the hint on the default puzzle (COLD to WARM, 4 attempts) through the handlers ends complete, with `onComplete` scheduled once. It uses all 4 attempts, and no "Game Over" alert is scheduled because the last attempt reaches the target |
| `WordChainPuzzle.WordChainPuzzle.constructor` | screens/WordChainPuzzle.tsx:18-24 | initial state: the current word is the start word, the chain holds only it, input empty, position 0, no attempts, not complete, no error |
| `WordChainPuzzle.WordChainPuzzle.ChangeProps` | screens/WordChainPuzzle.tsx:30-38 | a new start or target word resets all seven state fields; other prop changes reset nothing |
| `WordChainPuzzle.WordChainPuzzle.HandleLetterChange` | screens/WordChainPuzzle.tsx:40-55 | the input becomes the normalized letter, or stays as it was when the character is rejected |
| `WordChainPuzzle.WordChainPuzzle.HandlePositionSelect` | screens/WordChainPuzzle.tsx:57-60 | the position becomes the tapped index and the error is cleared |
| `WordChainPuzzle.WordChainPuzzle.HandleSubmit` | screens/WordChainPuzzle.tsx:62-108 | empty input or an unchanged word only sets an error; word, chain, input, attempts and completion are kept. A word not in the dictionary counts an attempt and keeps the word and chain. An accepted word becomes current, joins the chain, clears the input and counts an attempt. `isComplete` is set, and `onComplete` scheduled, exactly when the accepted word is the target. Reaching maxAttempts only schedules an alert. The chain invariant is kept |
| `WordChainPuzzle.WordChainPuzzle.AcceptWord` | screens/WordChainPuzzle.tsx:86-107 | an accepted word becomes current and joins the chain, keeping the chain invariant. The input is cleared and one attempt counted. It completes exactly when the word is the target, and schedules a game-over alert when the attempts run out short of it |
| `WordChainPuzzle.WordChainPuzzle.SubmitEnabled` | screens/WordChainPuzzle.tsx:167 | Submit is enabled exactly when a letter is entered and the puzzle is not complete |
| `FindObjectsPuzzle.IsCellSelected` | components/puzzles/FindObjectsPuzzle.tsx:27-29 | true exactly when some selected cell has that row and column |
| `FindObjectsPuzzle.Spell` | components/puzzles/FindObjectsPuzzle.tsx:35 | the spelled word has one letter per selected cell, each the grid letter under that cell |
| `FindObjectsPuzzle.NoReversal` | components/puzzles/FindObjectsPuzzle.tsx:81-82 | an allowed step never reverses the row or column direction of the previous step |
| `FindObjectsPuzzle.DiagonalMustRepeat` | components/puzzles/FindObjectsPuzzle.tsx:85-89 | after a diagonal step, the slope test (done with reals, as the source divides) accepts a step exactly when it repeats the previous step |
| `FindObjectsPuzzle.PathExtend` | components/puzzles/FindObjectsPuzzle.tsx:64-96 | a move the handler accepts keeps the selection a valid path: inside the grid, no cell twice, each cell adjacent to the previous, no step reversing the previous one, and a diagonal step repeated |
| `FindObjectsPuzzle.StraightStepAllowsTurns` | components/puzzles/FindObjectsPuzzle.tsx:72-89 | after a horizontal or vertical step, the direction checks forbid only a reversal: a 90 or 45 degree turn such as (0,0), (0,1), (1,1) is accepted, although the comment at line 72 says the line must be straight |
| `FindObjectsPuzzle.SlopeRejects` | components/puzzles/FindObjectsPuzzle.tsx:85-89 | the slope comparison `|prevCol/prevRow - currCol/currRow| > 0.1` in real arithmetic; a zero row step with a non-zero column step divides to an infinity and is rejected. `DiagonalMustRepeat` states what it accepts |
| `FindObjectsPuzzle.DirectionAllowed` | components/puzzles/FindObjectsPuzzle.tsx:73-90 | the direction checks of a step after the previous step: no sign reversal in row or column, and after a diagonal step the same slope. `NoReversal`, `DiagonalMustRepeat` and `StraightStepAllowsTurns` state its meaning |
| `FindObjectsPuzzle.MoveAccepted` | components/puzzles/FindObjectsPuzzle.tsx:57-96 | the guards of the move handler: selecting, not the last cell again, adjacent to the last cell, direction allowed, not already selected. `HandleTouchMove` appends exactly when it holds, and `PathExtend` shows it keeps the path valid |
| `FindObjectsPuzzle.DefaultPathInGrid` | components/puzzles/FindObjectsPuzzle.tsx:13-19 | the default grid is rectangular and every cell of the path of HIDDEN lies inside it |
| `FindObjectsPuzzle.DefaultPathAccepted` | components/puzzles/FindObjectsPuzzle.tsx:57-96 | every drag step along the path of HIDDEN in the default grid passes the move handler's guards, including the turn from column 0 to (4,1) |
| `FindObjectsPuzzle.DefaultPathSpellsTarget` | components/puzzles/FindObjectsPuzzle.tsx:12-19 | the letters under the path of HIDDEN in the default grid spell the default target word |
| `FindObjectsPuzzle.PlayDefaultWord` | components/puzzles/FindObjectsPuzzle.tsx:32-105 | pressing (0,0), dragging along HIDDEN and lifting the finger on the default puzzle records the word once, schedules `onComplete` once, and clears the selection |
| `FindObjectsPuzzle.FindObjectsPuzzle.constructor` | components/puzzles/FindObjectsPuzzle.tsx:22-24 | nothing selected, nothing found, not selecting |
| `FindObjectsPuzzle.FindObjectsPuzzle.HandleTouchStart` | components/puzzles/FindObjectsPuzzle.tsx:51-54 | the selection becomes the pressed cell alone and selecting starts |
| `FindObjectsPuzzle.FindObjectsPuzzle.HandleTouchMove` | components/puzzles/FindObjectsPuzzle.tsx:57-97 | the cell is appended exactly when the handler's guards pass. The guards are: selecting, not the last cell, adjacent to it, no reversal and a repeated diagonal, not already selected. Otherwise nothing changes |
| `FindObjectsPuzzle.FindObjectsPuzzle.CheckSelection` | components/puzzles/FindObjectsPuzzle.tsx:32-48 | with fewer than 2 cells nothing changes. Otherwise the selection is cleared. The word is recorded and `onComplete` scheduled only when it equals the target and was not found before. Found words stay duplicate-free and hold only the target |
| `FindObjectsPuzzle.FindObjectsPuzzle.HandleTouchEnd` | components/puzzles/FindObjectsPuzzle.tsx:100-105 | when selecting, the selection is checked and selecting ends; otherwise nothing changes |
| `NumberSeriesPuzzle.EffectiveConfig` | components/puzzles/NumberSeriesPuzzle.tsx:21-28 | a missing config falls back to series [2,4,8,16], answer 32, options [24,28,32,64] |
| `NumberSeriesPuzzle.DefaultConfigWellPosed` | components/puzzles/NumberSeriesPuzzle.tsx:22-26 | the default series doubles, its answer doubles the last term, and exactly one (distinct) option is the answer |
| `NumberSeriesPuzzle.NumberSeriesPuzzle.constructor` | components/puzzles/NumberSeriesPuzzle.tsx:16-28 | nothing selected, no attempts, not correct |
| `NumberSeriesPuzzle.NumberSeriesPuzzle.HandleOptionSelect` | components/puzzles/NumberSeriesPuzzle.tsx:44-67 | each pick sets the selection and adds exactly one attempt. `isCorrect` becomes true exactly for the answer, and only then is `onComplete` scheduled (once). A wrong pick arms a timer that clears the selection. Afterwards the options are disabled |
| `NumberSeriesPuzzle.NumberSeriesPuzzle.OptionsEnabled` | components/puzzles/NumberSeriesPuzzle.tsx:105 | the options are enabled exactly while the answer has not been found; `HandleOptionSelect` requires it and leaves them disabled after a correct pick |
| `NumberSeriesPuzzle.NumberSeriesPuzzle.SelectionTimerFires` | components/puzzles/NumberSeriesPuzzle.tsx:62-65 | the timer of a wrong pick clears the selection to `null` and changes nothing else |
| `ColorPuzzle.ColorPuzzle.constructor` | components/puzzles/ColorPuzzle.tsx:11 | no color selected |
| `ColorPuzzle.ColorPuzzle.HandleColorPress` | components/puzzles/ColorPuzzle.tsx:15-27 | a press of one of the four rendered color buttons (lines 12 and 43-48) appends that color. Only at length exactly 3 is the sequence checked: red, blue, yellow calls `onComplete` and keeps the selection; any other is reset to empty. `onComplete` runs at most once |
| `PatternPuzzle.PatternPuzzle.constructor` | components/puzzles/PatternPuzzle.tsx:11 | no cell tapped |
| `PatternPuzzle.PatternPuzzle.HandlePress` | components/puzzles/PatternPuzzle.tsx:14-25 | each press appends its index. Only at length exactly 4 is it checked: [0,2,1,3] calls `onComplete`, any other is reset. Before success the length stays below 4, and `onComplete` runs at most once |
| `LightBulbPuzzle.LightBulbPuzzle.constructor` | components/puzzles/LightBulbPuzzle.tsx:15-16 | light off, no presses |
| `LightBulbPuzzle.LightBulbPuzzle.HandleBulbPress` | components/puzzles/LightBulbPuzzle.tsx:33-39 | each press adds 1 to the counter. The first two presses leave the light off and call nothing. Every press from the third on (tested on the count before the press) switches the light on and calls `onComplete` again. The light never goes off |
| `CountingPuzzle.ExactlyOneCorrectOption` | components/puzzles/CountingPuzzle.tsx:12-14 | 13 is offered, and exactly one of [8,10,13,15,18] equals it |
| `CountingPuzzle.CountingPuzzle.constructor` | components/puzzles/CountingPuzzle.tsx:11 | no attempts |
| `CountingPuzzle.CountingPuzzle.HandleNumberPress` | components/puzzles/CountingPuzzle.tsx:16-23 | every press adds an attempt; `onComplete` is called exactly when the number is 13 |
| `LogicPuzzle.Remove` | components/puzzles/LogicPuzzle.tsx:23 | filtering drops every occurrence of the id and keeps every other element; a duplicate-free list stays duplicate-free |
| `LogicPuzzle.Toggle` | components/puzzles/LogicPuzzle.tsx:21-27 | a present id is removed and nothing else changes membership; an absent id is appended; no duplicates are introduced |
| `LogicPuzzle.ToggleTwiceFromAbsent` | components/puzzles/LogicPuzzle.tsx:22-26 | selecting an unselected id twice restores the selection exactly |
| `LogicPuzzle.ToggleTwiceFromPresent` | components/puzzles/LogicPuzzle.tsx:22-26 | selecting a selected id twice restores the same set of ids, but not the order: [2,1] becomes [1,2] |
| `LogicPuzzle.LogicPuzzle.constructor` | components/puzzles/LogicPuzzle.tsx:12 | nothing selected |
| `LogicPuzzle.LogicPuzzle.HandleSelect` | components/puzzles/LogicPuzzle.tsx:21-32 | the id is toggled and the selection stays duplicate-free; `onComplete` is called exactly when the id is 2, in either direction |
| `WordPuzzle.WordPuzzle.constructor` | components/puzzles/WordPuzzle.tsx:14-16 | letters R,A,T,S, all rotations 0, unsolved |
| `WordPuzzle.WordPuzzle.HandleLetterPress` | components/puzzles/WordPuzzle.tsx:18-29 | the pressed rotation grows by 180 and the others stay. The letters never change. `solved` lets `onComplete` run at most once. From the initial state the word stays "RATS", never "STAR", so `onComplete` is never called |

## Left out

- Rendering, styles, animations, icons and SVG. Also the home screen, the app shell and navigation stack, the hex tiles and the stats panel.
- Storage I/O and JSON encoding. `levelProgress` is an in-memory value with three read outcomes: absent, parsed, or unparsable (`JSON.parse` throws). A written map is assumed to read back as itself. A failing `setItem` is not modelled.
- The stored bulb count is taken as an already-parsed optional integer. A `parseInt` result of NaN is not modelled.
- `completedAt` is an opaque string parameter, standing for the clock reading `new Date().toISOString()`.
- `setTimeout` delays, `Alert`, `toast` and `console.error`. `onComplete`, `onSkip` and the game-over alert are counted, not timed. Effect cleanup on unmount, which would cancel a pending timer, is not modelled.
- `MathPuzzle`: its win check evaluates a joined token string with JavaScript `eval`, including floating-point division.
- `GenericPuzzle`: it dispatches to puzzle components that are not in the repository.
- The pixel-to-cell conversion of drag events in `FindObjectsPuzzle` (float division by a cell size). Moves and presses take grid cells, and the callers keep them inside the grid.
- Levels are looked up by integer id only. A non-integer `levelId` is not modelled.
- `WordChainPuzzle.UpperAscii`: upper-casing and the `[A-Z]` test cover ASCII only. Characters that JavaScript upper-cases into A-Z, such as the dotless i, are rejected by the model. A UTF-16 surrogate pair is treated as one character.
- `LogicPuzzle.LogicPuzzle.constructor`: the `config` prop is accepted by the component and never read, so the model takes no config.
- `WordChainPuzzle.WordChainPuzzle.HandleSubmit` is modelled as the handler is written, with no precondition. The disabled Submit button is stated separately (`SubmitEnabled`).
- `PuzzleLevel.PuzzleLevel.HandleSkip` is modelled as written, although no button calls it.
- `saveBulbs` is never called in the source, and the model has no member for it.
- `PuzzleLevel.PuzzleLevel.constructor`: the model assumes that `useEffect`, `AsyncStorage` and `toast` resolve. components/PuzzleLevel.tsx:1-5 imports none of them, although lines 32-33, 50 and 59 use them. As written, mounting would throw at line 32, and a failing hint or skip guard would throw at line 50 or 59.
- `PuzzleLevel.PuzzleLevel.constructor`: the stored bulb count is loaded when the component is created. In the source the load (lines 33-34) is an asynchronous callback that can land after hint presses and overwrite the balance. `RunNeverRaisesBulbs` holds for the model's order, not for such a late load.
- `FindObjectsPuzzle.FindObjectsPuzzle.constructor`: the grid is a rectangular grid of single characters. The source prop is `string[][]`: a cell may hold several letters, rows may be ragged, and a missing cell joins as "". The default grid is rectangular with single letters.
- Default props are constants: `WordChainPuzzle.DefaultStartWord`, `DefaultTargetWord` and `DefaultMaxAttempts`, and `FindObjectsPuzzle.DefaultTargetWord` and `DefaultGrid`. The constructors take the props explicitly, and `PlayHintedChain` and `PlayDefaultWord` pass the defaults.
