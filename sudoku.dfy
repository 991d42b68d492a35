/** The Sudoku game of the main page: the move test, the error marker, the
    backtracking generator, the puzzle maker, the number pad and the clock
    text. The 9x9 board is kept flat: cell (row, col) is position
    `9 * row + col` of an 81-element sequence (or array, for the generator). */
module Sudoku {
  import opened Wrappers
  import Text

  /** A cell is empty (`null`) or holds a number. */
  datatype Cell = Blank | Digit(n: int)

  type Grid = seq<Cell>

  ghost predicate IsGrid(g: Grid) { |g| == 81 }

  predicate InBoard(row: int, col: int) { 0 <= row < 9 && 0 <= col < 9 }

  function Pos(row: int, col: int): int { 9 * row + col }

  function At(g: Grid, row: int, col: int): Cell
    requires IsGrid(g) && InBoard(row, col)
  {
    g[Pos(row, col)]
  }

  /** `Math.floor(i / 3) * 3`: the first row (column) of the box. */
  function BoxStart(i: int): int
    requires 0 <= i
  {
    (i / 3) * 3
  }

  /** The row loop of `isValidMove`. */
  predicate RowFree(g: Grid, row: int, col: int, num: int)
    requires IsGrid(g) && InBoard(row, col)
  {
    forall c :: 0 <= c < 9 && c != col ==> At(g, row, c) != Digit(num)
  }

  /** The column loop of `isValidMove`. */
  predicate ColFree(g: Grid, row: int, col: int, num: int)
    requires IsGrid(g) && InBoard(row, col)
  {
    forall r :: 0 <= r < 9 && r != row ==> At(g, r, col) != Digit(num)
  }

  /** The box loops of `isValidMove`. */
  predicate BoxFree(g: Grid, row: int, col: int, num: int)
    requires IsGrid(g) && InBoard(row, col)
  {
    forall r, c ::
      (BoxStart(row) <= r < BoxStart(row) + 3 && BoxStart(col) <= c < BoxStart(col) + 3
       && (r != row || c != col)) ==> At(g, r, c) != Digit(num)
  }

  /** `isValidMove`: `num` is nowhere else in the row, the column or the box. */
  predicate IsValidMove(g: Grid, row: int, col: int, num: int)
    requires IsGrid(g) && InBoard(row, col)
  {
    RowFree(g, row, col, num) && ColFree(g, row, col, num) && BoxFree(g, row, col, num)
  }

  /** Two distinct cells constrain each other: same row, same column or
      same box (stated without the box arithmetic of the source). */
  predicate Peers(r1: int, c1: int, r2: int, c2: int) {
    (r1 != r2 || c1 != c2)
    && (r1 == r2 || c1 == c2 || (r1 / 3 == r2 / 3 && c1 / 3 == c2 / 3))
  }

  lemma BoxStartMeaning(i: int, j: int)
    requires 0 <= i < 9 && 0 <= j < 9
    ensures (BoxStart(i) <= j < BoxStart(i) + 3) <==> i / 3 == j / 3
  {
  }

  /** `isValidMove(b, r, c, n)` is false exactly when `n` is at another cell of
      the row, column or box of (r, c). */
  lemma ValidMoveMeansNoPeer(g: Grid, row: int, col: int, num: int)
    requires IsGrid(g) && InBoard(row, col)
    ensures IsValidMove(g, row, col, num) <==>
      forall r, c :: InBoard(r, c) && Peers(row, col, r, c) ==> At(g, r, c) != Digit(num)
  {
    forall r, c | InBoard(r, c)
      ensures (BoxStart(row) <= r < BoxStart(row) + 3 && BoxStart(col) <= c < BoxStart(col) + 3)
              <==> (row / 3 == r / 3 && col / 3 == c / 3)
    {
      BoxStartMeaning(row, r);
      BoxStartMeaning(col, c);
    }
  }

  /** `hasError`: a filled cell whose number, with the cell itself blanked,
      is not a valid move there. */
  predicate HasError(g: Grid, row: int, col: int)
    requires IsGrid(g) && InBoard(row, col)
  {
    match At(g, row, col)
    case Blank => false
    case Digit(num) => num != 0 && !IsValidMove(g[Pos(row, col) := Blank], row, col, num)
  }

  /** Blanking the cell first makes no difference: `isValidMove` never looks
      at the cell it is asked about. A cell is marked exactly when another
      cell of its row, column or box holds the same (non-zero) number. */
  lemma HasErrorMeaning(g: Grid, row: int, col: int)
    requires IsGrid(g) && InBoard(row, col)
    ensures HasError(g, row, col) <==>
      At(g, row, col).Digit? && At(g, row, col).n != 0 && !IsValidMove(g, row, col, At(g, row, col).n)
    ensures HasError(g, row, col) <==>
      At(g, row, col).Digit? && At(g, row, col).n != 0 &&
      exists r, c :: InBoard(r, c) && Peers(row, col, r, c) && At(g, r, c) == At(g, row, col)
  {
    if At(g, row, col).Digit? {
      var num := At(g, row, col).n;
      var t := g[Pos(row, col) := Blank];
      assert forall r, c :: InBoard(r, c) && (r != row || c != col) ==> At(t, r, c) == At(g, r, c);
      ValidMoveMeansNoPeer(g, row, col, num);
    }
  }

  predicate Full(g: Grid) { forall p :: 0 <= p < |g| ==> g[p] != Blank }

  /** No two peer cells hold the same number. */
  ghost predicate Consistent(g: Grid)
    requires IsGrid(g)
  {
    forall r, c :: InBoard(r, c) && At(g, r, c).Digit? ==> IsValidMove(g, r, c, At(g, r, c).n)
  }

  ghost predicate NoClash(g: Grid)
    requires IsGrid(g)
  {
    forall r1, c1, r2, c2 ::
      (InBoard(r1, c1) && InBoard(r2, c2) && Peers(r1, c1, r2, c2) && At(g, r1, c1).Digit?)
      ==> At(g, r2, c2) != At(g, r1, c1)
  }

  lemma ConsistentIsNoClash(g: Grid)
    requires IsGrid(g)
    ensures Consistent(g) <==> NoClash(g)
  {
    forall r, c | InBoard(r, c) {
      ValidMoveMeansNoPeer(g, r, c, if At(g, r, c).Digit? then At(g, r, c).n else 0);
    }
  }

  /** Placing a number where it is a valid move keeps the board consistent. */
  lemma {:induction false} PlaceKeepsConsistent(g: Grid, row: int, col: int, num: int)
    requires IsGrid(g) && InBoard(row, col) && Consistent(g)
    requires IsValidMove(g, row, col, num)
    ensures Consistent(g[Pos(row, col) := Digit(num)])
  {
    var g' := g[Pos(row, col) := Digit(num)];
    ConsistentIsNoClash(g);
    ValidMoveMeansNoPeer(g, row, col, num);
    forall r1, c1, r2, c2 | InBoard(r1, c1) && InBoard(r2, c2) && Peers(r1, c1, r2, c2)
      && At(g', r1, c1).Digit?
      ensures At(g', r2, c2) != At(g', r1, c1)
    {
      if r1 == row && c1 == col {
      } else if r2 == row && c2 == col {
        assert Peers(row, col, r1, c1);
      } else {
        assert At(g', r1, c1) == At(g, r1, c1) && At(g', r2, c2) == At(g, r2, c2);
      }
    }
    ConsistentIsNoClash(g');
  }

  /** The positions still blank. */
  function BlankSet(g: Grid): set<int> {
    set p | 0 <= p < |g| && g[p] == Blank
  }

  /** The nested loops of `fillBoard` looking for the first empty cell. */
  method FindBlank(a: array<Cell>) returns (found: Option<(int, int)>)
    requires a.Length == 81
    ensures found.None? <==> Full(a[..])
    ensures found.Some? ==> InBoard(found.value.0, found.value.1)
                            && a[Pos(found.value.0, found.value.1)] == Blank
                            && forall p :: 0 <= p < Pos(found.value.0, found.value.1) ==> a[p] != Blank
  {
    for row := 0 to 9
      invariant forall p :: 0 <= p < 9 * row ==> a[p] != Blank
    {
      for col := 0 to 9
        invariant forall p :: 0 <= p < 9 * row + col ==> a[p] != Blank
      {
        if a[Pos(row, col)] == Blank {
          return Some((row, col));
        }
      }
    }
    return None;
  }

  /** The orders in which `fillBoard` may try the numbers: the random
      shuffles of 1..9. */
  predicate IsShuffle(s: seq<int>) {
    |s| == 9 && forall d :: 1 <= d <= 9 ==> d in s
  }

  /** `fillBoard`: backtracking in place. On success the board is full, keeps
      every cell that was filled, and is consistent if it was; on failure it
      is exactly as before. */
  method FillBoard(a: array<Cell>) returns (ok: bool)
    requires a.Length == 81
    modifies a
    decreases BlankSet(a[..])
    ensures ok ==> Full(a[..]) && (Consistent(old(a[..])) ==> Consistent(a[..]))
    ensures ok ==> forall p :: 0 <= p < 81 && old(a[p]) != Blank ==> a[p] == old(a[p])
    ensures !ok ==> a[..] == old(a[..])
  {
    var found := FindBlank(a);
    if found.None? {
      return true;
    }
    var (row, col) := found.value;
    var p := Pos(row, col);
    assert IsShuffle([1, 2, 3, 4, 5, 6, 7, 8, 9]);
    var numbers :| IsShuffle(numbers);
    for k := 0 to |numbers|
      invariant a[..] == old(a[..])
    {
      var num := numbers[k];
      if IsValidMove(a[..], row, col, num) {
        ghost var before := a[..];
        a[p] := Digit(num);
        assert a[..] == before[p := Digit(num)];
        assert BlankSet(a[..]) == BlankSet(before) - {p};
        if Consistent(before) {
          PlaceKeepsConsistent(before, row, col, num);
        }
        ok := FillBoard(a);
        if ok {
          return true;
        }
        a[p] := Blank;
        assert a[..] == before;
      }
    }
    return false;
  }

  datatype Difficulty = Easy | Medium | Hard

  /** How many cells `generatePuzzle` blanks. */
  function CellsToRemove(d: Difficulty): nat {
    match d
    case Easy => 40
    case Medium => 50
    case Hard => 60
  }

  lemma {:induction false} AllBlankSize(g: Grid)
    requires forall p :: 0 <= p < |g| ==> g[p] == Blank
    ensures |BlankSet(g)| == |g|
  {
    if g != [] {
      var h := g[..|g| - 1];
      AllBlankSize(h);
      assert BlankSet(g) == BlankSet(h) + {|g| - 1};
    }
  }

  lemma SomeFilled(g: Grid)
    requires |g| == 81 && |BlankSet(g)| < 81
    ensures exists p :: 0 <= p < 81 && g[p] != Blank
  {
    if forall p :: 0 <= p < 81 ==> g[p] == Blank {
      AllBlankSize(g);
      assert false;
    }
  }

  /** Blanking cells never creates a clash: a grid that agrees with a
      consistent grid on all its filled cells is consistent. */
  lemma {:induction false} BlankingKeepsConsistent(puzzle: Grid, solution: Grid)
    requires IsGrid(puzzle) && IsGrid(solution) && Consistent(solution)
    requires forall p :: 0 <= p < 81 ==> puzzle[p] == Blank || puzzle[p] == solution[p]
    ensures Consistent(puzzle)
  {
    ConsistentIsNoClash(solution);
    forall r1, c1, r2, c2 | InBoard(r1, c1) && InBoard(r2, c2) && Peers(r1, c1, r2, c2)
      && At(puzzle, r1, c1).Digit?
      ensures At(puzzle, r2, c2) != At(puzzle, r1, c1)
    {
      assert At(puzzle, r1, c1) == At(solution, r1, c1);
    }
    ConsistentIsNoClash(puzzle);
  }

  /** `generatePuzzle`: a complete consistent board, and a copy of it with
      `CellsToRemove(d)` cells blanked. Each random pick that lands on a
      filled cell is modelled as a choice among the filled cells (the source's
      picks of already-blank cells change nothing). Where the fill fails, the
      source would pick cells forever; the model returns None there. */
  method GeneratePuzzle(d: Difficulty) returns (res: Option<(Grid, Grid)>)
    ensures res.Some? ==>
      var (puzzle, solution) := res.value;
      && IsGrid(solution) && Full(solution) && Consistent(solution)
      && IsGrid(puzzle) && (forall p :: 0 <= p < 81 ==> puzzle[p] == Blank || puzzle[p] == solution[p])
      && |BlankSet(puzzle)| == CellsToRemove(d) && Consistent(puzzle)
  {
    var a := new Cell[81](_ => Blank);
    assert Consistent(a[..]);
    var ok := FillBoard(a);
    if !ok {
      return None;
    }
    var solution := a[..];
    var puzzle := solution;
    var removed := 0;
    while removed < CellsToRemove(d)
      invariant IsGrid(puzzle)
      invariant forall p :: 0 <= p < 81 ==> puzzle[p] == Blank || puzzle[p] == solution[p]
      invariant |BlankSet(puzzle)| == removed <= CellsToRemove(d)
      decreases CellsToRemove(d) - removed
    {
      SomeFilled(puzzle);
      var p :| 0 <= p < 81 && puzzle[p] != Blank;
      assert BlankSet(puzzle[p := Blank]) == BlankSet(puzzle) + {p};
      puzzle := puzzle[p := Blank];
      removed := removed + 1;
    }
    BlankingKeepsConsistent(puzzle, solution);
    return Some((puzzle, solution));
  }

  /** `formatTime`: minutes, a colon, and the seconds padded to two digits;
      the two parts read back as the minutes and seconds of `seconds`. */
  function FormatTime(seconds: nat): (r: string)
    ensures |r| >= 4 && r[|r| - 3] == ':'
    ensures Text.AllDigits(r[..|r| - 3]) && Text.AllDigits(r[|r| - 2..])
    ensures Text.DecimalValue(r[|r| - 2..]) < 60
    ensures 60 * Text.DecimalValue(r[..|r| - 3]) + Text.DecimalValue(r[|r| - 2..]) == seconds
    ensures r[..|r| - 3] == Text.NatToString(seconds / 60)
  {
    var mins := seconds / 60;
    var secs := seconds % 60;
    Text.NatToStringDenotes(mins);
    Text.NatToStringDenotes(secs);
    var s := Text.NatToString(secs);
    var padded := if |s| < 2 then "0" + s else s;
    assert Text.DecimalValue(padded) == secs by {
      if |s| < 2 {
        assert padded[..1] == "0";
      }
    }
    var r := Text.NatToString(mins) + ":" + padded;
    assert r[..|r| - 3] == Text.NatToString(mins);
    assert r[|r| - 2..] == padded;
    r
  }

  function EmptyGrid(): (g: Grid)
    ensures IsGrid(g) && forall p :: 0 <= p < 81 ==> g[p] == Blank
  {
    seq(81, _ => Blank)
  }

  /** The state of the `Sudoku` component (its timer and celebration banner
      are display only). */
  class Game {
    var board: Grid
    /** The puzzle as generated: its filled cells are the prefilled ones. */
    var original: Grid
    var selected: Option<(int, int)>
    var mistakes: nat
    var complete: bool
    var started: bool
    var difficulty: Difficulty
    var timeElapsed: nat

    /** Prefilled cells keep their numbers and are never the selected cell. */
    ghost predicate Valid()
      reads this
    {
      && IsGrid(board) && IsGrid(original)
      && (forall p :: 0 <= p < 81 && original[p] != Blank ==> board[p] == original[p])
      && (selected.Some? ==> InBoard(selected.value.0, selected.value.1)
                             && At(original, selected.value.0, selected.value.1) == Blank)
    }

    /** The initial state, before the mount effect starts an easy game. */
    constructor ()
      ensures Valid() && board == EmptyGrid() && original == EmptyGrid()
      ensures selected == None && mistakes == 0 && !complete && !started
      ensures difficulty == Easy && timeElapsed == 0
    {
      board, original := EmptyGrid(), EmptyGrid();
      selected := None;
      mistakes := 0;
      complete, started := false, false;
      difficulty := Easy;
      timeElapsed := 0;
    }

    /** `startNewGame`: a fresh puzzle with everything reset. When no puzzle
        comes back (see GeneratePuzzle) the state is left as it was. */
    method StartNewGame(d: Difficulty) returns (ok: bool)
      requires Valid()
      modifies this
      ensures Valid()
      ensures !ok ==> board == old(board) && original == old(original) && selected == old(selected)
                      && mistakes == old(mistakes) && complete == old(complete) && started == old(started)
                      && difficulty == old(difficulty) && timeElapsed == old(timeElapsed)
      ensures ok ==> board == original && |BlankSet(board)| == CellsToRemove(d) && Consistent(board)
                     && selected == None && mistakes == 0 && !complete && started
                     && difficulty == d && timeElapsed == 0
      ensures ok ==> exists solution :: IsGrid(solution) && Full(solution) && Consistent(solution)
                       && forall p :: 0 <= p < 81 ==> board[p] == Blank || board[p] == solution[p]
    {
      var res := GeneratePuzzle(d);
      if res.None? {
        return false;
      }
      var (puzzle, solution) := res.value;
      board, original := puzzle, puzzle;
      selected := None;
      mistakes := 0;
      complete := false;
      timeElapsed := 0;
      started := true;
      difficulty := d;
      return true;
    }

    /** `handleCellClick`: prefilled cells cannot be selected. */
    method CellClick(row: int, col: int)
      requires Valid() && InBoard(row, col)
      modifies this`selected
      ensures Valid()
      ensures selected == if At(original, row, col) != Blank then old(selected) else Some((row, col))
    {
      if At(original, row, col) != Blank {
        return;
      }
      selected := Some((row, col));
    }

    /** `handleNumberInput`: with no selection, or a prefilled one, nothing
        changes; entering the cell's own number clears it; any other number
        is placed, and raises `mistakes` by one when it is not a valid move.
        Only the selected cell changes, and a full board ends the game
        (whether or not its numbers clash). */
    method NumberInput(num: int)
      requires Valid()
      modifies this`board, this`mistakes, this`complete, this`started
      ensures Valid()
      ensures (old(selected).None? || At(original, old(selected).value.0, old(selected).value.1) != Blank) ==>
        board == old(board) && mistakes == old(mistakes) && complete == old(complete) && started == old(started)
      ensures (old(selected).Some? && At(original, old(selected).value.0, old(selected).value.1) == Blank) ==>
        var (row, col) := old(selected).value;
        var p := Pos(row, col);
        && board == old(board)[p := if old(board)[p] == Digit(num) then Blank else Digit(num)]
        && mistakes == old(mistakes)
             + (if old(board)[p] != Digit(num) && !IsValidMove(old(board), row, col, num) then 1 else 0)
        && (Full(board) ==> complete && !started)
        && (!Full(board) ==> complete == old(complete) && started == old(started))
    {
      if selected.None? || At(original, selected.value.0, selected.value.1) != Blank {
        return;
      }
      var (row, col) := selected.value;
      var p := Pos(row, col);
      var newBoard := board;
      if newBoard[p] == Digit(num) {
        newBoard := newBoard[p := Blank];
      } else {
        if !IsValidMove(newBoard, row, col, num) {
          mistakes := mistakes + 1;
        }
        newBoard := newBoard[p := Digit(num)];
      }
      board := newBoard;
      if Full(newBoard) {
        complete := true;
        started := false;
      }
    }

    /** The Clear button: blanks the selected cell unless it is prefilled. */
    method ClearCell()
      requires Valid()
      modifies this`board
      ensures Valid()
      ensures board == if old(selected).Some? && At(original, selected.value.0, selected.value.1) == Blank
                       then old(board)[Pos(selected.value.0, selected.value.1) := Blank]
                       else old(board)
    {
      if selected.Some? && At(original, selected.value.0, selected.value.1) == Blank {
        board := board[Pos(selected.value.0, selected.value.1) := Blank];
      }
    }
  }
}
