/** The tic-tac-toe game of the main page: the winner test, the computer
    opponent and the click handler. */
module TicTacToe {
  import opened Wrappers

  datatype Mark = X | O

  /** A square holds a player's mark or nothing (`null`). */
  type Square = Option<Mark>

  /** A board is the nine squares in reading order. */
  type Board = seq<Square>

  ghost predicate IsBoard(b: Board) { |b| == 9 }

  /** What `calculateWinner` returns: a player's mark, 'Draw', or null. */
  datatype Verdict = Winner(mark: Mark) | Draw | Undecided

  /** The eight winning lines, in the order they are tested. */
  const Lines: seq<(int, int, int)> :=
    [(0, 1, 2), (3, 4, 5), (6, 7, 8),
     (0, 3, 6), (1, 4, 7), (2, 5, 8),
     (0, 4, 8), (2, 4, 6)]

  /** The mark filling all three squares of line `k`, if one does. */
  function LineOwner(b: Board, k: int): Option<Mark>
    requires IsBoard(b) && 0 <= k < 8
  {
    var (p, q, s) := Lines[k];
    if b[p].Some? && b[p] == b[q] && b[p] == b[s] then b[p] else None
  }

  predicate Full(b: Board) requires IsBoard(b) {
    forall i :: 0 <= i < 9 ==> b[i].Some?
  }

  /** The loop of `calculateWinner` from line `k` on. */
  function ScanLines(b: Board, k: int): Verdict
    requires IsBoard(b) && 0 <= k <= 8
    decreases 8 - k
  {
    if k == 8 then (if Full(b) then Draw else Undecided)
    else match LineOwner(b, k)
      case Some(m) => Winner(m)
      case None => ScanLines(b, k + 1)
  }

  lemma {:induction false} ScanLinesMeaning(b: Board, k: int)
    requires IsBoard(b) && 0 <= k <= 8
    decreases 8 - k
    ensures var r := ScanLines(b, k);
      && (r.Winner? ==> exists j :: k <= j < 8 && LineOwner(b, j) == Some(r.mark)
                                    && forall i :: k <= i < j ==> LineOwner(b, i) == None)
      && (!r.Winner? <==> forall j :: k <= j < 8 ==> LineOwner(b, j) == None)
      && (r == Draw <==> !r.Winner? && Full(b))
  {
    if k < 8 && LineOwner(b, k) == None {
      ScanLinesMeaning(b, k + 1);
    }
  }

  /** `calculateWinner`: the loop over the lines, then the draw test. */
  function CalculateWinner(b: Board): Verdict
    requires IsBoard(b)
  {
    ScanLines(b, 0)
  }

  /** `calculateWinner` returns a mark only when that mark fills a line (the
      first complete one), 'Draw' exactly when the board is full and no line
      is complete, and null exactly when neither holds. */
  lemma CalculateWinnerMeaning(b: Board)
    requires IsBoard(b)
    ensures var r := CalculateWinner(b);
      && (r.Winner? ==> exists j :: 0 <= j < 8 && LineOwner(b, j) == Some(r.mark)
                                    && forall i :: 0 <= i < j ==> LineOwner(b, i) == None)
      && (r.Winner? <==> exists j :: 0 <= j < 8 && LineOwner(b, j).Some?)
      && (r == Draw <==> (forall j :: 0 <= j < 8 ==> LineOwner(b, j) == None) && Full(b))
      && (r == Undecided <==> (forall j :: 0 <= j < 8 ==> LineOwner(b, j) == None) && !Full(b))
  {
    ScanLinesMeaning(b, 0);
  }

  /** Playing `m` on empty square `i` makes `m` the winner. */
  ghost predicate Wins(b: Board, i: int, m: Mark)
    requires IsBoard(b) && 0 <= i < 9
  {
    b[i] == None && CalculateWinner(b[i := Some(m)]) == Winner(m)
  }

  ghost predicate IsCorner(i: int) { i == 0 || i == 2 || i == 6 || i == 8 }

  /** One of the two scans of `getAiMove`: the first empty square on which
      `m` would win, if any. */
  method FirstWinningSquare(b: Board, m: Mark) returns (move: Option<int>)
    requires IsBoard(b)
    ensures move.None? <==> forall i :: 0 <= i < 9 ==> !Wins(b, i, m)
    ensures move.Some? ==> 0 <= move.value < 9 && Wins(b, move.value, m)
                           && forall j :: 0 <= j < move.value ==> !Wins(b, j, m)
  {
    var i := 0;
    while i < 9
      invariant 0 <= i <= 9
      invariant forall j :: 0 <= j < i ==> !Wins(b, j, m)
    {
      if b[i] == None {
        var test := b[i := Some(m)];
        if CalculateWinner(test) == Winner(m) {
          assert Wins(b, i, m);
          return Some(i);
        }
      }
      i := i + 1;
    }
    return None;
  }

  /** The square `getAiMove` may pick on `b`: an empty one, chosen by a
      strict priority. The first square that wins for 'O'; else the first
      that blocks an 'X' win; else the centre; else a free corner; else
      any free square. */
  ghost predicate AiChoice(b: Board, k: int) {
    && IsBoard(b) && 0 <= k < 9 && b[k] == None
    && if exists i :: 0 <= i < 9 && Wins(b, i, O) then
         Wins(b, k, O) && forall j :: 0 <= j < k ==> !Wins(b, j, O)
       else if exists i :: 0 <= i < 9 && Wins(b, i, X) then
         Wins(b, k, X) && forall j :: 0 <= j < k ==> !Wins(b, j, X)
       else if b[4] == None then k == 4
       else if exists i :: 0 <= i < 9 && IsCorner(i) && b[i] == None then IsCorner(k)
       else true
  }

  /** `getAiMove` (the computer plays 'O'); none on a full board, where the
      source yields `undefined`. The random picks are nondeterministic
      choices. */
  method GetAiMove(b: Board) returns (move: Option<int>)
    requires IsBoard(b)
    ensures move.Some? <==> exists i :: 0 <= i < 9 && b[i] == None
    ensures move.Some? ==> AiChoice(b, move.value)
  {
    move := FirstWinningSquare(b, O);
    if move.Some? {
      return;
    }
    move := FirstWinningSquare(b, X);
    if move.Some? {
      return;
    }
    if b[4] == None {
      return Some(4);
    }
    var corners := [0, 2, 6, 8];
    var available: seq<int> := [];
    for n := 0 to 4
      invariant forall k :: 0 <= k < |available| ==>
        0 <= available[k] < 9 && IsCorner(available[k]) && b[available[k]] == None
      invariant forall k :: 0 <= k < n && b[corners[k]] == None ==> corners[k] in available
    {
      if b[corners[n]] == None {
        available := available + [corners[n]];
      }
    }
    if |available| > 0 {
      var pick :| 0 <= pick < |available|;
      return Some(available[pick]);
    }
    assert b[corners[0]] != None && b[corners[1]] != None && b[corners[2]] != None && b[corners[3]] != None;
    var free: seq<int> := [];
    for n := 0 to 9
      invariant forall k :: 0 <= k < |free| ==> 0 <= free[k] < 9 && b[free[k]] == None
      invariant forall k :: 0 <= k < n && b[k] == None ==> k in free
    {
      if b[n] == None {
        free := free + [n];
      }
    }
    if |free| > 0 {
      var pick :| 0 <= pick < |free|;
      move := Some(free[pick]);
    } else {
      move := None;
    }
  }

  /** How the game end is reported to the page: 'user', 'ai' or 'draw'. */
  datatype EndResult = UserWon | AiWon | Drawn

  function EndResultOf(w: Verdict): (r: EndResult)
    requires w != Undecided
    ensures r == UserWon <==> w == Winner(X)
    ensures r == AiWon <==> w == Winner(O)
  {
    match w
    case Draw => Drawn
    case Winner(X) => UserWon
    case Winner(O) => AiWon
  }

  function Count(b: seq<Square>, m: Mark): (n: nat)
    ensures n <= |b|
  {
    if b == [] then 0 else (if b[|b| - 1] == Some(m) then 1 else 0) + Count(b[..|b| - 1], m)
  }

  /** Filling an empty square adds one to that mark's count and leaves the
      other mark's count alone. */
  lemma {:induction false} CountPlace(b: seq<Square>, i: int, m: Mark, other: Mark)
    requires 0 <= i < |b| && b[i] == None
    ensures Count(b[i := Some(m)], m) == Count(b, m) + 1
    ensures other != m ==> Count(b[i := Some(m)], other) == Count(b, other)
  {
    var b' := b[i := Some(m)];
    if i < |b| - 1 {
      assert b'[..|b| - 1] == b[..|b| - 1][i := Some(m)];
      CountPlace(b[..|b| - 1], i, m, other);
    } else {
      assert b'[..|b| - 1] == b[..|b| - 1];
    }
  }

  lemma {:induction false} CountEmpty(b: seq<Square>, m: Mark)
    requires forall i :: 0 <= i < |b| ==> b[i] == None
    ensures Count(b, m) == 0
  {
    if b != [] {
      CountEmpty(b[..|b| - 1], m);
    }
  }

  function EmptyBoard(): (b: Board)
    ensures IsBoard(b) && forall i :: 0 <= i < 9 ==> b[i] == None
  {
    [None, None, None, None, None, None, None, None, None]
  }

  /** A board captured by `handleClick` for a computer move: no line is
      complete and some square is free. */
  ghost predicate Scheduled(p: Board) {
    IsBoard(p) && CalculateWinner(p) == Undecided
  }

  /** The state of the `TicTacToe` component. */
  class Game {
    var board: Board
    var xIsNext: bool
    /** `winner`: the verdict once there is one (`Undecided` stands for null). */
    var winner: Verdict
    var aiThinking: bool
    const aiMode: bool
    /** Whether the page passed an `onGameEnd` callback. */
    const reportsEnd: bool
    /** The boards captured by computer-move timers that have not fired yet,
        in the order they were set. `reset` does not cancel them. */
    var pending: seq<Board>

    ghost predicate Valid()
      reads this
    {
      IsBoard(board) && forall p :: p in pending ==> Scheduled(p)
    }

    /** The component as the game intends it: the stored winner agrees with
        the board, the marks alternate while the game is on, and a computer
        move is pending exactly while the computer thinks, on the board shown. */
    ghost predicate Settled()
      reads this
    {
      && Valid()
      && winner == CalculateWinner(board)
      && (winner == Undecided ==> Count(board, X) == Count(board, O) + (if xIsNext then 0 else 1))
      && (aiThinking <==> pending != [])
      && (pending != [] ==> pending == [board] && aiMode && !xIsNext)
    }

    constructor (aiMode: bool, reportsEnd: bool)
      ensures Settled() && this.aiMode == aiMode && this.reportsEnd == reportsEnd
      ensures board == EmptyBoard() && xIsNext && winner == Undecided && !aiThinking && pending == []
    {
      this.aiMode := aiMode;
      this.reportsEnd := reportsEnd;
      board := EmptyBoard();
      xIsNext := true;
      winner := Undecided;
      aiThinking := false;
      pending := [];
      new;
      CountEmpty(board, X);
      CountEmpty(board, O);
    }

    /** `handleClick(i)`. Returns the end result to report when this move
        ends the game, and whether a computer move was scheduled. */
    method Click(i: int) returns (report: Option<EndResult>, aiScheduled: bool)
      requires Valid() && 0 <= i < 9
      modifies this
      ensures Valid()
      ensures old(Settled()) ==> Settled()
      ensures old(board[i].Some? || winner != Undecided || (aiMode && !xIsNext)) ==>
        && board == old(board) && xIsNext == old(xIsNext) && winner == old(winner)
        && aiThinking == old(aiThinking) && pending == old(pending) && report == None && !aiScheduled
      ensures !old(board[i].Some? || winner != Undecided || (aiMode && !xIsNext)) ==>
        && board == old(board)[i := Some(if old(xIsNext) then X else O)]
        && (CalculateWinner(board) != Undecided ==>
              && winner == CalculateWinner(board) && xIsNext == old(xIsNext)
              && aiThinking == old(aiThinking) && pending == old(pending) && !aiScheduled
              && report == (if aiMode && reportsEnd then Some(EndResultOf(winner)) else None))
        && (CalculateWinner(board) == Undecided ==>
              && winner == Undecided && report == None
              && aiScheduled == (aiMode && old(xIsNext)) && xIsNext == !old(xIsNext)
              && aiThinking == (old(aiThinking) || aiScheduled)
              && pending == old(pending) + (if aiScheduled then [board] else []))
    {
      report, aiScheduled := None, false;
      if board[i].Some? || winner != Undecided {
        return;
      }
      if aiMode && !xIsNext {
        return;
      }
      var m := if xIsNext then X else O;
      var other := if xIsNext then O else X;
      CountPlace(board, i, m, other);
      var next := board[i := Some(m)];
      board := next;
      var w := CalculateWinner(next);
      if w != Undecided {
        winner := w;
        if aiMode && reportsEnd {
          report := Some(EndResultOf(w));
        }
        return;
      }
      if aiMode && xIsNext {
        xIsNext := false;
        aiThinking := true;
        pending := pending + [next];
        aiScheduled := true;
      } else {
        xIsNext := !xIsNext;
      }
    }

    /** The computer-move timer that captured `pending[t]` fires: it plays
        `getAiMove` on the captured board and shows the result, whatever the
        board shows now. */
    method AiTurn(t: int) returns (report: Option<EndResult>)
      requires Valid() && 0 <= t < |pending|
      modifies this
      ensures Valid() && !aiThinking
      ensures old(Settled()) ==> Settled()
      ensures pending == old(pending[..t] + pending[t + 1..])
      ensures exists k :: AiChoice(old(pending[t]), k) && board == old(pending[t])[k := Some(O)]
      ensures CalculateWinner(board) == Undecided ==> xIsNext && winner == old(winner) && report == None
      ensures CalculateWinner(board) != Undecided ==>
        && winner == CalculateWinner(board) && xIsNext == old(xIsNext)
        && report == (if reportsEnd then Some(EndResultOf(winner)) else None)
    {
      report := None;
      var next := pending[t];
      assert Scheduled(next);
      CalculateWinnerMeaning(next);
      var move := GetAiMove(next);
      var k := move.value;
      CountPlace(next, k, O, X);
      var aiBoard := next[k := Some(O)];
      board := aiBoard;
      pending := pending[..t] + pending[t + 1..];
      var aiWinner := CalculateWinner(aiBoard);
      if aiWinner != Undecided {
        winner := aiWinner;
        if reportsEnd {
          report := Some(EndResultOf(aiWinner));
        }
      } else {
        xIsNext := true;
      }
      aiThinking := false;
    }

    /** `reset`, as written: a fresh board with 'X' to move. The computer
        moves already scheduled stay scheduled. */
    method Reset()
      requires Valid()
      modifies this`board, this`xIsNext, this`winner, this`aiThinking
      ensures Valid() && board == EmptyBoard() && xIsNext && winner == Undecided && !aiThinking
      ensures old(pending) == [] ==> Settled()
    {
      board := EmptyBoard();
      CountEmpty(board, X);
      CountEmpty(board, O);
      xIsNext := true;
      winner := Undecided;
      aiThinking := false;
    }

    /** `reset` as evidently intended: it also cancels the scheduled
        computer moves, so the game is settled afterwards whatever state it
        was in. */
    method ResetCancelling()
      requires Valid()
      modifies this`board, this`xIsNext, this`winner, this`aiThinking, this`pending
      ensures Settled() && board == EmptyBoard() && xIsNext && winner == Undecided
      ensures !aiThinking && pending == []
    {
      board := EmptyBoard();
      CountEmpty(board, X);
      CountEmpty(board, O);
      xIsNext := true;
      winner := Undecided;
      aiThinking := false;
      pending := [];
    }
  }

  /** Computer mode: a click on the first square, then Reset before the
      computer's timer fires. When the timer fires it undoes the reset, and
      the 'X' is back on the board. */
  method StaleMoveUndoesReset() returns (g: Game)
    ensures g.Valid() && g.board[0] == Some(X) && g.board != EmptyBoard()
  {
    g := new Game(true, false);
    var report, scheduled := g.Click(0);
    g.Reset();
    assert g.pending == [EmptyBoard()[0 := Some(X)]];
    report := g.AiTurn(0);
  }
}
