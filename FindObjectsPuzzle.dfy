/**
 * Word search: drag across adjacent grid cells to spell the target word.
 * The direction rule forbids reversing and makes a diagonal step repeat
 * itself; after a horizontal or vertical step it still allows a turn, so a
 * selection need not be a straight line.
 */
module FindObjectsPuzzle {

  datatype Cell = Cell(row: int, col: int)

  /** The default props: the word and grid used when none are passed. */
  const DefaultTargetWord := "HIDDEN"
  const DefaultGrid: seq<seq<char>> := ["HQWER", "IASDF", "DZXCV", "DBNML", "ENKJH"]

  /** Where HIDDEN lies in the default grid: down column 0, then one step right. */
  const HiddenPath: seq<Cell> := [Cell(0, 0), Cell(1, 0), Cell(2, 0), Cell(3, 0), Cell(4, 0), Cell(4, 1)]

  function Abs(x: int): nat { if x < 0 then -x else x }

  /** `Math.sign` on integers. */
  function Sign(x: int): int { if x > 0 then 1 else if x < 0 then -1 else 0 }

  function AbsReal(x: real): real { if x < 0.0 then -x else x }

  /** Within one row and one column of each other. */
  predicate Adjacent(a: Cell, b: Cell)
  {
    Abs(a.row - b.row) <= 1 && Abs(a.col - b.col) <= 1
  }

  /**
   * The slope comparison `|prevCol/prevRow - currCol/currRow| > 0.1` for a
   * diagonal previous step. A zero row step with a non-zero column step
   * divides to an infinity, which is always rejected.
   */
  predicate SlopeRejects(prevRow: int, prevCol: int, currRow: int, currCol: int)
    requires prevRow != 0
  {
    if currRow == 0 then currCol != 0
    else AbsReal(prevCol as real / prevRow as real - currCol as real / currRow as real) > 0.1
  }

  /**
   * The direction checks for the step `last -> next` after the step
   * `prev -> last`: no reversal of the row or column direction, and after a
   * diagonal step the same slope.
   */
  predicate DirectionAllowed(prev: Cell, last: Cell, next: Cell)
  {
    var prevRowDiff := last.row - prev.row;
    var prevColDiff := last.col - prev.col;
    var currRowDiff := next.row - last.row;
    var currColDiff := next.col - last.col;
    && !(prevRowDiff != 0 && currRowDiff != 0 && Sign(prevRowDiff) != Sign(currRowDiff))
    && !(prevColDiff != 0 && currColDiff != 0 && Sign(prevColDiff) != Sign(currColDiff))
    && !(prevRowDiff != 0 && prevColDiff != 0 && SlopeRejects(prevRowDiff, prevColDiff, currRowDiff, currColDiff))
  }

  /** A step never reverses the row or column direction of the step before it. */
  lemma NoReversal(prev: Cell, last: Cell, next: Cell)
    requires DirectionAllowed(prev, last, next)
    ensures (last.row - prev.row) * (next.row - last.row) >= 0
    ensures (last.col - prev.col) * (next.col - last.col) >= 0
  {
  }

  /** After a diagonal step between adjacent cells, the only allowed step is the same one again. */
  lemma DiagonalMustRepeat(prev: Cell, last: Cell, next: Cell)
    requires Adjacent(prev, last) && Adjacent(last, next) && next != last
    requires last.row != prev.row && last.col != prev.col
    ensures DirectionAllowed(prev, last, next) <==>
              (next.row - last.row == last.row - prev.row && next.col - last.col == last.col - prev.col)
  {
    var pr, pc := last.row - prev.row, last.col - prev.col;
    var cr, cc := next.row - last.row, next.col - last.col;
    assert pr == 1 || pr == -1;
    assert pc == 1 || pc == -1;
    if cr != 0 {
      assert cr == 1 || cr == -1;
      assert pc as real / pr as real == (pc * pr) as real;
      assert cc as real / cr as real == (cc * cr) as real;
    }
  }

  /**
   * After a horizontal or vertical step the direction check forbids only a
   * reversal: a 90 or 45 degree turn is accepted.
   */
  lemma StraightStepAllowsTurns(prev: Cell, last: Cell, next: Cell)
    requires last.row == prev.row || last.col == prev.col
    ensures DirectionAllowed(prev, last, next) <==>
              (last.row - prev.row) * (next.row - last.row) >= 0
              && (last.col - prev.col) * (next.col - last.col) >= 0
    ensures DirectionAllowed(Cell(0, 0), Cell(0, 1), Cell(1, 1))
  {
    var pr, pc := last.row - prev.row, last.col - prev.col;
    var cr, cc := next.row - last.row, next.col - last.col;
    assert (pr != 0 && cr != 0 && Sign(pr) != Sign(cr)) <==> pr * cr < 0;
    assert (pc != 0 && cc != 0 && Sign(pc) != Sign(cc)) <==> pc * cc < 0;
  }

  /** Whether the move handler appends `next` to the selection `cells`. */
  predicate MoveAccepted(cells: seq<Cell>, isSelecting: bool, next: Cell)
  {
    && isSelecting
    && !(|cells| > 0 && cells[|cells| - 1] == next)
    && (|cells| > 0 ==>
          && Adjacent(cells[|cells| - 1], next)
          && (|cells| > 1 ==> DirectionAllowed(cells[|cells| - 2], cells[|cells| - 1], next)))
    && next !in cells
  }

  ghost predicate Rectangular(grid: seq<seq<char>>)
  {
    |grid| > 0 && forall r :: 0 <= r < |grid| ==> |grid[r]| == |grid[0]|
  }

  predicate InGrid(grid: seq<seq<char>>, c: Cell)
  {
    0 <= c.row < |grid| && 0 <= c.col < |grid[c.row]|
  }

  function Letter(grid: seq<seq<char>>, c: Cell): char
    requires InGrid(grid, c)
  {
    grid[c.row][c.col]
  }

  /** The letters under the selected cells, joined. */
  function Spell(grid: seq<seq<char>>, cells: seq<Cell>): (word: string)
    requires forall i :: 0 <= i < |cells| ==> InGrid(grid, cells[i])
    ensures |word| == |cells|
    ensures forall i :: 0 <= i < |cells| ==> word[i] == Letter(grid, cells[i])
  {
    if cells == [] then []
    else Spell(grid, cells[..|cells| - 1]) + [Letter(grid, cells[|cells| - 1])]
  }

  /** A drag path: cells in the grid, none twice, each step adjacent and allowed by the direction checks. */
  ghost predicate PathOk(grid: seq<seq<char>>, cells: seq<Cell>)
  {
    && (forall i :: 0 <= i < |cells| ==> InGrid(grid, cells[i]))
    && (forall i, j :: 0 <= i < j < |cells| ==> cells[i] != cells[j])
    && (forall i :: 1 <= i < |cells| ==> Adjacent(cells[i - 1], cells[i]))
    && (forall i :: 2 <= i < |cells| ==> DirectionAllowed(cells[i - 2], cells[i - 1], cells[i]))
  }

  lemma PathExtend(grid: seq<seq<char>>, cells: seq<Cell>, isSelecting: bool, next: Cell)
    requires PathOk(grid, cells) && InGrid(grid, next)
    requires MoveAccepted(cells, isSelecting, next)
    ensures PathOk(grid, cells + [next])
  {
    var cells' := cells + [next];
    forall i | 1 <= i < |cells'| ensures Adjacent(cells'[i - 1], cells'[i]) {
      if i < |cells| { assert cells'[i - 1] == cells[i - 1] && cells'[i] == cells[i]; }
    }
    forall i | 2 <= i < |cells'| ensures DirectionAllowed(cells'[i - 2], cells'[i - 1], cells'[i]) {
      if i < |cells| { assert cells'[i - 2] == cells[i - 2]; }
    }
    forall i, j | 0 <= i < j < |cells'| ensures cells'[i] != cells'[j] {
      if j == |cells| { assert cells'[i] in cells; }
    }
  }

  /** The default grid is 5 by 5 and the path of HIDDEN stays inside it. */
  lemma DefaultPathInGrid()
    ensures Rectangular(DefaultGrid)
    ensures forall k :: 0 <= k < |HiddenPath| ==> InGrid(DefaultGrid, HiddenPath[k])
  {
  }

  /**
   * Every drag step along the path of HIDDEN is accepted by the move handler,
   * including the turn at the bottom of column 0.
   */
  lemma DefaultPathAccepted()
    ensures forall k :: 1 <= k < |HiddenPath| ==> MoveAccepted(HiddenPath[..k], true, HiddenPath[k])
  {
    forall k | 1 <= k < |HiddenPath|
      ensures MoveAccepted(HiddenPath[..k], true, HiddenPath[k])
    {
      var cells, next := HiddenPath[..k], HiddenPath[k];
      assert next !in cells by {
        forall j | 0 <= j < k ensures cells[j] != next {
          assert cells[j] == HiddenPath[j];
        }
      }
      if k > 1 {
        assert cells[k - 2] == HiddenPath[k - 2] && cells[k - 1] == HiddenPath[k - 1];
        StraightStepAllowsTurns(HiddenPath[k - 2], HiddenPath[k - 1], next);
      }
    }
  }

  /** The path of HIDDEN spells the default target word. */
  lemma DefaultPathSpellsTarget()
    ensures forall k :: 0 <= k < |HiddenPath| ==> InGrid(DefaultGrid, HiddenPath[k])
    ensures Spell(DefaultGrid, HiddenPath) == DefaultTargetWord
  {
    DefaultPathInGrid();
    var word := Spell(DefaultGrid, HiddenPath);
    assert word[0] == 'H' && word[1] == 'I' && word[2] == 'D';
    assert word[3] == 'D' && word[4] == 'E' && word[5] == 'N';
  }

  class FindObjectsPuzzle {
    const targetWord: string
    const grid: seq<seq<char>>
    var selectedCells: seq<Cell>
    var foundWords: seq<string>
    var isSelecting: bool
    /** How many times `onComplete` has been scheduled. */
    var completions: nat

    ghost predicate Valid()
      reads this
    {
      && Rectangular(grid)
      && PathOk(grid, selectedCells)
      && (foundWords == [] || foundWords == [targetWord])
      && completions == |foundWords|
    }

    constructor (targetWord: string, grid: seq<seq<char>>)
      requires Rectangular(grid)
      ensures Valid()
      ensures this.targetWord == targetWord && this.grid == grid
      ensures selectedCells == [] && foundWords == [] && !isSelecting && completions == 0
    {
      this.targetWord := targetWord;
      this.grid := grid;
      selectedCells := [];
      foundWords := [];
      isSelecting := false;
      completions := 0;
    }

    function IsCellSelected(row: int, col: int): (selected: bool)
      reads this
      ensures selected <==> exists i :: 0 <= i < |selectedCells| && selectedCells[i] == Cell(row, col)
    {
      Cell(row, col) in selectedCells
    }

    /** Pressing a cell starts a new selection holding just that cell. */
    method HandleTouchStart(row: int, col: int)
      requires Valid() && InGrid(grid, Cell(row, col))
      modifies this`isSelecting, this`selectedCells
      ensures Valid()
      ensures isSelecting && selectedCells == [Cell(row, col)]
    {
      isSelecting := true;
      selectedCells := [Cell(row, col)];
    }

    /** Dragging onto a cell extends the selection when the move is allowed. */
    method HandleTouchMove(row: int, col: int)
      requires Valid() && InGrid(grid, Cell(row, col))
      modifies this`selectedCells
      ensures Valid()
      ensures MoveAccepted(old(selectedCells), isSelecting, Cell(row, col)) ==>
                selectedCells == old(selectedCells) + [Cell(row, col)]
      ensures !MoveAccepted(old(selectedCells), isSelecting, Cell(row, col)) ==>
                selectedCells == old(selectedCells)
    {
      if !isSelecting { return; }
      var n := |selectedCells|;
      if n > 0 && selectedCells[n - 1] == Cell(row, col) { return; }
      if n > 0 {
        var lastCell := selectedCells[n - 1];
        if Abs(lastCell.row - row) > 1 || Abs(lastCell.col - col) > 1 { return; }
        if n > 1 && !DirectionAllowed(selectedCells[n - 2], lastCell, Cell(row, col)) { return; }
      }
      if IsCellSelected(row, col) { return; }
      PathExtend(grid, selectedCells, isSelecting, Cell(row, col));
      selectedCells := selectedCells + [Cell(row, col)];
    }

    /**
     * Fewer than two cells: nothing happens. Otherwise the selection is
     * cleared, and a first find of the target word is recorded and reported.
     */
    method CheckSelection()
      requires Valid()
      modifies this`selectedCells, this`foundWords, this`completions
      ensures Valid()
      ensures |old(selectedCells)| < 2 ==>
                selectedCells == old(selectedCells) && foundWords == old(foundWords)
                && completions == old(completions)
      ensures |old(selectedCells)| >= 2 ==>
                var word := Spell(grid, old(selectedCells));
                var isNew := word == targetWord && word !in old(foundWords);
                && selectedCells == []
                && foundWords == old(foundWords) + (if isNew then [word] else [])
                && completions == old(completions) + (if isNew then 1 else 0)
    {
      if |selectedCells| < 2 { return; }
      var word := Spell(grid, selectedCells);
      if word == targetWord {
        if word !in foundWords {
          foundWords := foundWords + [word];
          completions := completions + 1;
        }
      }
      selectedCells := [];
    }

    /** Lifting the finger checks the selection and ends it. */
    method HandleTouchEnd()
      requires Valid()
      modifies this`selectedCells, this`foundWords, this`completions, this`isSelecting
      ensures Valid()
      ensures !isSelecting
      ensures !old(isSelecting) ==>
                selectedCells == old(selectedCells) && foundWords == old(foundWords)
                && completions == old(completions)
      ensures old(isSelecting) && |old(selectedCells)| >= 2 ==>
                var word := Spell(grid, old(selectedCells));
                var isNew := word == targetWord && word !in old(foundWords);
                && selectedCells == []
                && foundWords == old(foundWords) + (if isNew then [word] else [])
                && completions == old(completions) + (if isNew then 1 else 0)
      ensures old(isSelecting) && |old(selectedCells)| < 2 ==>
                selectedCells == old(selectedCells) && foundWords == old(foundWords)
                && completions == old(completions)
    {
      if isSelecting {
        CheckSelection();
        isSelecting := false;
      }
    }
  }

  /**
   * A player who drags along HIDDEN in the default puzzle: the word is
   * recorded, `onComplete` is scheduled once, and the selection is cleared.
   */
  method PlayDefaultWord() returns (p: FindObjectsPuzzle)
    ensures p.foundWords == [DefaultTargetWord] && p.completions == 1
    ensures p.selectedCells == [] && !p.isSelecting
  {
    DefaultPathInGrid();
    DefaultPathAccepted();
    DefaultPathSpellsTarget();
    p := new FindObjectsPuzzle(DefaultTargetWord, DefaultGrid);
    p.HandleTouchStart(0, 0);
    for k := 1 to |HiddenPath|
      invariant p.Valid() && p.isSelecting && p.selectedCells == HiddenPath[..k]
      invariant p.grid == DefaultGrid && p.targetWord == DefaultTargetWord
      invariant p.foundWords == [] && p.completions == 0
    {
      p.HandleTouchMove(HiddenPath[k].row, HiddenPath[k].col);
      assert HiddenPath[..k + 1] == HiddenPath[..k] + [HiddenPath[k]];
    }
    assert HiddenPath[..|HiddenPath|] == HiddenPath;
    p.HandleTouchEnd();
  }
}
