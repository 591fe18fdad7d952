/**
  The "Hard" computer opponent: exhaustive minimax over the board, simulating
  each move in place on the caller's array and undoing it afterwards.
*/
module MinMaxAI {
  import opened Board

  /** `int.MinValue` and `int.MaxValue`, the starting values of `bestScore`. */
  const MinInt: int := -0x8000_0000
  const MaxInt: int := 0x7fff_ffff

  /** `Mathf.Max` and `Mathf.Min` on integers. */
  function Max(a: int, b: int): int {
    if a >= b then a else b
  }

  function Min(a: int, b: int): int {
    if a <= b then a else b
  }

  // ----------------------------------------------------------- CheckWinner

  /**
    The order in which `CheckWinner` tries the lines: along a fixed `y` first,
    then along a fixed `x`, then `[0,0],[1,1],[2,2]`, then `[2,0],[1,1],[0,2]`.
  */
  const WinnerOrder: seq<Line> :=
    [FixedY(0), FixedY(1), FixedY(2), FixedX(0), FixedX(1), FixedX(2),
     DiagDown, Line(Coord(2, 0), Coord(1, 1), Coord(0, 2))]

  /** The mark on the first complete line in `CheckWinner`'s order, or `None`. */
  function Winner(g: Grid): PlayerType {
    var k := FirstCompleteFrom(g, WinnerOrder, 0);
    if k < 8 then At(g, WinnerOrder[k].a) else None
  }

  /** There is a winner exactly when some line is complete, and it owns one. */
  lemma WinnerSpec(g: Grid)
    ensures Winner(g) == None <==> !HasLine(g)
    ensures Winner(g) != None ==> HasLineOf(g, Winner(g))
  {
    WinnerOrderCoversAllLines(g);
    FirstCompleteFromSpec(g, WinnerOrder, 0);
  }

  /** `CheckWinner`'s lines are the board's eight lines, reordered. */
  lemma WinnerOrderCoversAllLines(g: Grid)
    ensures AllInBoard(WinnerOrder)
    ensures forall k | 0 <= k < 8 :: Complete(g, WinnerOrder[k]) ==>
      HasLineOf(g, At(g, WinnerOrder[k].a))
    ensures HasLine(g) ==> exists k | 0 <= k < 8 :: Complete(g, WinnerOrder[k])
  {
    assert AllLines[0] == WinnerOrder[3] && AllLines[1] == WinnerOrder[4] && AllLines[2] == WinnerOrder[5];
    assert AllLines[3] == WinnerOrder[0] && AllLines[4] == WinnerOrder[1] && AllLines[5] == WinnerOrder[2];
    assert AllLines[7] == WinnerOrder[6];
    assert Complete(g, AllLines[6]) <==> Complete(g, WinnerOrder[7]);
  }

  /** The source's `CheckWinner`: scans the array with early returns. */
  method CheckWinner(board: array2<PlayerType>) returns (w: PlayerType)
    requires board.Length0 == 3 && board.Length1 == 3
    ensures w == Winner(Snapshot(board))
  {
    ghost var g := Snapshot(board);
    SnapshotCells(board);
    WinnerOrderCoversAllLines(g);
    for row := 0 to 3
      invariant FirstCompleteFrom(g, WinnerOrder, row) == FirstCompleteFrom(g, WinnerOrder, 0)
    {
      assert WinnerOrder[row] == FixedY(row);
      if board[0, row] != None && board[0, row] == board[1, row] && board[1, row] == board[2, row] {
        return board[0, row];
      }
    }
    for col := 0 to 3
      invariant FirstCompleteFrom(g, WinnerOrder, 3 + col) == FirstCompleteFrom(g, WinnerOrder, 0)
    {
      assert WinnerOrder[3 + col] == FixedX(col);
      if board[col, 0] != None && board[col, 0] == board[col, 1] && board[col, 1] == board[col, 2] {
        return board[col, 0];
      }
    }
    if board[0, 0] != None && board[0, 0] == board[1, 1] && board[1, 1] == board[2, 2] {
      return board[0, 0];
    }
    if board[2, 0] != None && board[2, 0] == board[1, 1] && board[1, 1] == board[0, 2] {
      return board[2, 0];
    }
    return None;
  }

  /** `MinMaxAI.IsBoardFull`: true exactly when no cell is `None`. */
  method IsBoardFull(board: array2<PlayerType>) returns (full: bool)
    requires board.Length0 == 3 && board.Length1 == 3
    ensures full <==> Full(Snapshot(board))
  {
    SnapshotCells(board);
    for col := 0 to 3
      invariant forall x, y | 0 <= x < col && 0 <= y < 3 :: board[x, y] != None
    {
      for row := 0 to 3
        invariant forall x, y | 0 <= x < col && 0 <= y < 3 :: board[x, y] != None
        invariant forall y | 0 <= y < row :: board[col, y] != None
      {
        if board[col, row] == None {
          return false;
        }
      }
    }
    return true;
  }

  // ----------------------------------------------------------------- Minimax

  /** The mark the player to move places: the AI's when maximising. */
  function Mark(isMax: bool, ai: PlayerType): PlayerType {
    if isMax then ai else Opponent(ai)
  }

  /** The starting value of `bestScore` at a non-terminal node. */
  function Init(isMax: bool): int {
    if isMax then MinInt else MaxInt
  }

  /**
    The value `Minimax(board, depth, isMaximizing, aiPlayer)` returns on a
    board holding `g`: an AI win scores `10 - depth`, an opponent win
    `depth - 10`, a full board `0`, and any other node folds the scores of
    its children with `Mathf.Max` (maximising) or `Mathf.Min` (minimising).
  */
  function Score(g: Grid, depth: int, isMax: bool, ai: PlayerType): int
    decreases EmptyCount(g), 1
  {
    var w := Winner(g);
    if w == ai then 10 - depth
    else if w != None then depth - 10
    else if Full(g) then 0
    else Fold(g, isMax, ChildScores(g, depth, isMax, ai), 0, Init(isMax))
  }

  /**
    The score of every scan position's child: the mover's mark in that
    empty cell, scored one ply deeper with the turn passed; `0` stands for a
    taken cell, which the fold skips.
  */
  function ChildScores(g: Grid, depth: int, isMax: bool, ai: PlayerType): (s: seq<int>)
    requires ai != None
    ensures |s| == 9
    decreases EmptyCount(g), 0
  {
    seq(9, k requires 0 <= k < 9 =>
      var c := CellAt(k);
      if At(g, c) == None then
        (PlaceFills(g, c, Mark(isMax, ai)); Score(Place(g, c, Mark(isMax, ai)), depth + 1, !isMax, ai))
      else 0)
  }

  /**
    The nested loop of `Minimax` from scan position `k` on, with `best`
    holding `bestScore`: the score of every empty cell is folded in with
    `Mathf.Max` or `Mathf.Min`.
  */
  function Fold(g: Grid, isMax: bool, scores: seq<int>, k: nat, best: int): int
    requires |scores| == 9 && k <= 9
    decreases g, 9 - k  // `g` in the measure stops Dafny from unrolling the whole scan on literal arguments
  {
    if k == 9 then best
    else if At(g, CellAt(k)) == None then
      Fold(g, isMax, scores, k + 1, if isMax then Max(scores[k], best) else Min(scores[k], best))
    else
      Fold(g, isMax, scores, k + 1, best)
  }

  /** The score of the child reached by the mover marking the empty cell `c`. */
  function ChildScore(g: Grid, c: Coord, depth: int, isMax: bool, ai: PlayerType): int
    requires InRange(c)
  {
    Score(Place(g, c, Mark(isMax, ai)), depth + 1, !isMax, ai)
  }

  lemma ChildScoresAt(g: Grid, depth: int, isMax: bool, ai: PlayerType, k: int)
    requires ai != None && 0 <= k < 9 && At(g, CellAt(k)) == None
    ensures ChildScores(g, depth, isMax, ai)[k] == ChildScore(g, CellAt(k), depth, isMax, ai)
  {
  }

  /**
    Scores stay within [-10, 10] while the depth counts the marks added since
    the search started: so `bestScore` never leaks `int.MinValue` or
    `int.MaxValue`, because a node that is not terminal has an empty cell.
  */
  lemma {:induction false} ScoreBounds(g: Grid, depth: int, isMax: bool, ai: PlayerType)
    requires 0 <= depth && depth + EmptyCount(g) <= 9
    ensures -10 <= Score(g, depth, isMax, ai) <= 10
    decreases EmptyCount(g)
  {
    var w := Winner(g);
    if w != ai && w == None && !Full(g) {
      var scores := ChildScores(g, depth, isMax, ai);
      forall k | 0 <= k < 9 && At(g, CellAt(k)) == None
        ensures -10 <= scores[k] <= 10
      {
        var c := CellAt(k);
        PlaceFills(g, c, Mark(isMax, ai));
        ScoreBounds(Place(g, c, Mark(isMax, ai)), depth + 1, !isMax, ai);
        ChildScoresAt(g, depth, isMax, ai, k);
      }
      var x, y :| 0 <= x < 3 && 0 <= y < 3 && g[x][y] == None;
      CellAtIndex(Coord(x, y));
      FoldBounds(g, isMax, scores, 0, Init(isMax));
    }
  }

  lemma {:induction false} FoldBounds(g: Grid, isMax: bool, scores: seq<int>, k: nat, best: int)
    requires |scores| == 9 && k <= 9
    requires forall j | k <= j < 9 && At(g, CellAt(j)) == None :: -10 <= scores[j] <= 10
    requires -10 <= best <= 10 || (best == Init(isMax) && exists j | k <= j < 9 :: At(g, CellAt(j)) == None)
    ensures -10 <= Fold(g, isMax, scores, k, best) <= 10
    decreases 9 - k
  {
    if k < 9 {
      if At(g, CellAt(k)) == None {
        FoldBounds(g, isMax, scores, k + 1, if isMax then Max(scores[k], best) else Min(scores[k], best));
      } else {
        FoldBounds(g, isMax, scores, k + 1, best);
      }
    }
  }

  /**
    The fold from position `k` on is at least (maximising) or at most
    (minimising) `best` and every score of an empty cell it visits, and it is
    `best` itself or one of those scores.
  */
  lemma {:induction false} FoldExtremum(g: Grid, isMax: bool, scores: seq<int>, k: nat, best: int)
    requires |scores| == 9 && k <= 9
    ensures isMax ==> Fold(g, isMax, scores, k, best) >= best
    ensures !isMax ==> Fold(g, isMax, scores, k, best) <= best
    ensures forall j | k <= j < 9 && At(g, CellAt(j)) == None ::
      if isMax then scores[j] <= Fold(g, isMax, scores, k, best) else scores[j] >= Fold(g, isMax, scores, k, best)
    ensures Fold(g, isMax, scores, k, best) == best
      || exists j | k <= j < 9 && At(g, CellAt(j)) == None :: scores[j] == Fold(g, isMax, scores, k, best)
    decreases 9 - k
  {
    if k < 9 {
      if At(g, CellAt(k)) == None {
        FoldExtremum(g, isMax, scores, k + 1, if isMax then Max(scores[k], best) else Min(scores[k], best));
      } else {
        FoldExtremum(g, isMax, scores, k + 1, best);
      }
    }
  }

  /**
    At a node that is not terminal, the maximising ply scores the largest of
    its children and the minimising ply the smallest, where a child marks one
    empty cell with the mover's mark.
  */
  lemma ScoreIsExtremeChild(g: Grid, depth: int, isMax: bool, ai: PlayerType)
    requires ai != None && Winner(g) == None && !Full(g)
    requires 0 <= depth && depth + EmptyCount(g) <= 9
    ensures forall c | InRange(c) && At(g, c) == None ::
      if isMax then ChildScore(g, c, depth, isMax, ai) <= Score(g, depth, isMax, ai)
      else ChildScore(g, c, depth, isMax, ai) >= Score(g, depth, isMax, ai)
    ensures exists c | InRange(c) && At(g, c) == None :: ChildScore(g, c, depth, isMax, ai) == Score(g, depth, isMax, ai)
  {
    var r := Score(g, depth, isMax, ai);
    var scores := ChildScores(g, depth, isMax, ai);
    assert r == Fold(g, isMax, scores, 0, Init(isMax));
    FoldExtremum(g, isMax, scores, 0, Init(isMax));
    forall c | InRange(c) && At(g, c) == None
      ensures if isMax then ChildScore(g, c, depth, isMax, ai) <= r else ChildScore(g, c, depth, isMax, ai) >= r
    {
      CellAtIndex(c);
      ChildScoresAt(g, depth, isMax, ai, Index(c));
    }
    ScoreBounds(g, depth, isMax, ai);
    assert r != Init(isMax);
    var j :| 0 <= j < 9 && At(g, CellAt(j)) == None && scores[j] == r;
    ChildScoresAt(g, depth, isMax, ai, j);
    assert ChildScore(g, CellAt(j), depth, isMax, ai) == r;
  }

  /** The child score at the empty cell `[col, row]` of the nested loop. */
  lemma ChildScoresAtCell(g: Grid, depth: int, isMax: bool, ai: PlayerType, col: int, row: int)
    requires ai != None && 0 <= col < 3 && 0 <= row < 3 && g[col][row] == None
    ensures ChildScores(g, depth, isMax, ai)[3 * col + row]
      == Score(Place(g, Coord(col, row), Mark(isMax, ai)), depth + 1, !isMax, ai)
  {
    assert CellAt(3 * col + row) == Coord(col, row);
  }

  /** One step of the fold, at the cell `[col, row]` of the nested loop. */
  lemma FoldStepAt(g: Grid, isMax: bool, scores: seq<int>, col: int, row: int, best: int)
    requires |scores| == 9 && 0 <= col < 3 && 0 <= row < 3
    ensures Fold(g, isMax, scores, 3 * col + row, best) ==
      if g[col][row] == None then
        Fold(g, isMax, scores, 3 * col + row + 1,
          if isMax then Max(scores[3 * col + row], best) else Min(scores[3 * col + row], best))
      else Fold(g, isMax, scores, 3 * col + row + 1, best)
  {
    assert CellAt(3 * col + row) == Coord(col, row);
  }

  /**
    `MinMaxAI.Minimax`: the same scan, with each simulated mark written
    into the caller's array and set back to `None` after the recursive call
    (the write, the call and the undo are `SimulateMove`). The array is left
    exactly as it was found.
  */
  method Minimax(board: array2<PlayerType>, depth: int, isMaximizing: bool, aiPlayer: PlayerType)
    returns (bestScore: int)
    requires board.Length0 == 3 && board.Length1 == 3
    modifies board
    ensures Snapshot(board) == old(Snapshot(board))
    ensures bestScore == Score(old(Snapshot(board)), depth, isMaximizing, aiPlayer)
    decreases EmptyCount(Snapshot(board)), 3
  {
    ghost var g := Snapshot(board);
    var winner := CheckWinner(board);
    if winner == aiPlayer {
      return 10 - depth;
    }
    if winner != None {
      return depth - 10;
    }
    var full := IsBoardFull(board);
    if full {
      return 0;
    }
    bestScore := ScoreMoves(board, depth, isMaximizing, aiPlayer);
  }

  /**
    The nested loop of `Minimax` at a node with no winner and an empty cell:
    every empty cell in turn receives the mover's mark, is scored one ply
    deeper and is emptied again, and the scores are folded into `bestScore`.
  */
  method ScoreMoves(board: array2<PlayerType>, depth: int, isMaximizing: bool, aiPlayer: PlayerType)
    returns (bestScore: int)
    requires board.Length0 == 3 && board.Length1 == 3
    requires aiPlayer != None && Winner(Snapshot(board)) == None && !Full(Snapshot(board))
    modifies board
    ensures Snapshot(board) == old(Snapshot(board))
    ensures bestScore == Score(old(Snapshot(board)), depth, isMaximizing, aiPlayer)
    decreases EmptyCount(Snapshot(board)), 2
  {
    ghost var g := Snapshot(board);
    var opponent := if aiPlayer == Cross then Circle else Cross;
    ghost var scores := ChildScores(g, depth, isMaximizing, aiPlayer);
    bestScore := if isMaximizing then MinInt else MaxInt;
    for col := 0 to 3
      invariant Snapshot(board) == g
      invariant Fold(g, isMaximizing, scores, 3 * col, bestScore) == Fold(g, isMaximizing, scores, 0, Init(isMaximizing))
    {
      for row := 0 to 3
        invariant Snapshot(board) == g
        invariant Fold(g, isMaximizing, scores, 3 * col + row, bestScore)
          == Fold(g, isMaximizing, scores, 0, Init(isMaximizing))
      {
        var mark := if isMaximizing then aiPlayer else opponent;
        bestScore := ScoreCell(board, col, row, mark, depth, isMaximizing, aiPlayer, bestScore);
      }
    }
  }

  /**
    One pass of the inner loop of `ScoreMoves`: when `[col, row]` is empty,
    `mark` is simulated there and the score it gets is folded into `best`.
    This is one step of `Fold` over the child scores.
  */
  method ScoreCell(board: array2<PlayerType>, col: int, row: int, mark: PlayerType,
                   depth: int, isMaximizing: bool, aiPlayer: PlayerType, best: int)
    returns (bestScore: int)
    requires board.Length0 == 3 && board.Length1 == 3 && 0 <= col < 3 && 0 <= row < 3
    requires aiPlayer != None && mark == Mark(isMaximizing, aiPlayer)
    modifies board
    ensures Snapshot(board) == old(Snapshot(board))
    ensures
      var g := old(Snapshot(board));
      var scores := ChildScores(g, depth, isMaximizing, aiPlayer);
      Fold(g, isMaximizing, scores, 3 * col + row + 1, bestScore) == Fold(g, isMaximizing, scores, 3 * col + row, best)
    decreases EmptyCount(Snapshot(board)), 1
  {
    ghost var g := Snapshot(board);
    FoldStepAt(g, isMaximizing, ChildScores(g, depth, isMaximizing, aiPlayer), col, row, best);
    SnapshotCell(board, col, row);
    bestScore := best;
    if board[col, row] == None {
      var score := SimulateMove(board, col, row, mark, depth + 1, !isMaximizing, aiPlayer);
      ChildScoresAtCell(g, depth, isMaximizing, aiPlayer, col, row);
      if isMaximizing {
        bestScore := Max(score, bestScore);
      } else {
        bestScore := Min(score, bestScore);
      }
    }
  }

  /**
    One simulated move, as both `Minimax` and `GetBestMove` make it: `mark`
    goes into the empty cell `[col, row]`, `Minimax` scores the board that
    results, and the cell is emptied again.
  */
  method SimulateMove(board: array2<PlayerType>, col: int, row: int, mark: PlayerType,
                      depth: int, isMaximizing: bool, aiPlayer: PlayerType)
    returns (score: int)
    requires board.Length0 == 3 && board.Length1 == 3
    requires 0 <= col < 3 && 0 <= row < 3 && board[col, row] == None && mark != None
    modifies board
    ensures Snapshot(board) == old(Snapshot(board))
    ensures score == Score(Place(old(Snapshot(board)), Coord(col, row), mark), depth, isMaximizing, aiPlayer)
    decreases EmptyCount(Snapshot(board)), 0
  {
    ghost var g := Snapshot(board);
    ghost var c := Coord(col, row);
    board[col, row] := mark;
    SnapshotIs(board, Place(g, c, mark));
    PlaceFills(g, c, mark);
    score := Minimax(board, depth, isMaximizing, aiPlayer);
    board[col, row] := None;
    SnapshotIs(board, Place(Place(g, c, mark), c, None));
    PlaceUndo(g, c, mark);
  }

  // ------------------------------------------------------------- GetBestMove

  /** The score `GetBestMove` gives cell `c`: the AI's mark there, opponent to move, depth 0. */
  function RootScore(g: Grid, c: Coord, ai: PlayerType): int
    requires InRange(c)
  {
    Score(Place(g, c, ai), 0, false, ai)
  }

  lemma RootScoreBounds(g: Grid, c: Coord, ai: PlayerType)
    requires InRange(c) && At(g, c) == None
    ensures -10 <= RootScore(g, c, ai) <= 10
  {
    ScoreBounds(Place(g, c, ai), 0, false, ai);
  }

  /** `RootScore` at each scan position, with `0` standing for a taken cell. */
  function RootScores(g: Grid, ai: PlayerType): (s: seq<int>)
    ensures |s| == 9
  {
    seq(9, k requires 0 <= k < 9 => if At(g, CellAt(k)) == None then RootScore(g, CellAt(k), ai) else 0)
  }

  /** Every entry of `RootScores` lies in [-10, 10]. */
  lemma RootScoresBounds(g: Grid, ai: PlayerType)
    ensures forall k | 0 <= k < 9 :: -10 <= RootScores(g, ai)[k] <= 10
  {
    forall k | 0 <= k < 9
      ensures -10 <= RootScores(g, ai)[k] <= 10
    {
      IndexCellAt(k);
      if At(g, CellAt(k)) == None {
        RootScoreBounds(g, CellAt(k), ai);
      }
    }
  }

  /** The entry of `RootScores` for the empty cell `[col, row]` of the nested loop. */
  lemma RootScoresAt(g: Grid, ai: PlayerType, col: int, row: int)
    requires 0 <= col < 3 && 0 <= row < 3 && g[col][row] == None
    ensures RootScores(g, ai)[3 * col + row] == Score(Place(g, Coord(col, row), ai), 0, false, ai)
  {
    assert CellAt(3 * col + row) == Coord(col, row);
  }

  /**
    The loop of `GetBestMove` from scan position `k` on, given the score of
    every position: an empty cell replaces the best so far only when its
    score is strictly greater.
  */
  function BestMoveFrom(g: Grid, scores: seq<int>, k: nat, bestScore: int, bestMove: Coord): Coord
    requires |scores| == 9 && k <= 9
    decreases g, 9 - k  // `g` in the measure stops Dafny from unrolling the whole scan on literal arguments
  {
    if k == 9 then bestMove
    else
      var c := CellAt(k);
      if At(g, c) == None && scores[k] > bestScore then
        BestMoveFrom(g, scores, k + 1, scores[k], c)
      else
        BestMoveFrom(g, scores, k + 1, bestScore, bestMove)
  }

  /** One step of the scan, at the cell `[col, row]` of the nested loop. */
  lemma BestMoveStepAt(g: Grid, scores: seq<int>, col: int, row: int, bestScore: int, bestMove: Coord)
    requires |scores| == 9 && 0 <= col < 3 && 0 <= row < 3
    ensures BestMoveFrom(g, scores, 3 * col + row, bestScore, bestMove) ==
      if g[col][row] == None && scores[3 * col + row] > bestScore then
        BestMoveFrom(g, scores, 3 * col + row + 1, scores[3 * col + row], Coord(col, row))
      else BestMoveFrom(g, scores, 3 * col + row + 1, bestScore, bestMove)
  {
    assert CellAt(3 * col + row) == Coord(col, row);
  }

  /** The move `GetBestMove` returns for a board holding `g`. */
  function BestMove(g: Grid, ai: PlayerType): Coord {
    BestMoveFrom(g, RootScores(g, ai), 0, MinInt, NoMove)
  }

  /** What the scan of `GetBestMove` knows after the positions before `k`. */
  ghost predicate ScanSoFar(g: Grid, scores: seq<int>, k: nat, bestScore: int, bestMove: Coord)
    requires |scores| == 9 && k <= 9
  {
    || (bestMove == NoMove && bestScore == MinInt && forall j | 0 <= j < k :: At(g, CellAt(j)) != None)
    || (&& InRange(bestMove) && Index(bestMove) < k && At(g, bestMove) == None
        && bestScore == scores[Index(bestMove)]
        && (forall j | 0 <= j < k && At(g, CellAt(j)) == None :: scores[j] <= bestScore)
        && (forall j | 0 <= j < Index(bestMove) && At(g, CellAt(j)) == None :: scores[j] < bestScore))
  }

  /** A strictly better empty cell at position `k` becomes the best so far. */
  lemma ScanImproves(g: Grid, scores: seq<int>, k: nat, bestScore: int, bestMove: Coord)
    requires |scores| == 9 && k < 9 && ScanSoFar(g, scores, k, bestScore, bestMove)
    requires At(g, CellAt(k)) == None && scores[k] > bestScore
    ensures ScanSoFar(g, scores, k + 1, scores[k], CellAt(k))
  {
    IndexCellAt(k);
    forall j | 0 <= j < k + 1 && At(g, CellAt(j)) == None
      ensures scores[j] <= scores[k]
    {
      if j < k {
        assert scores[j] <= bestScore || bestMove == NoMove;
      }
    }
  }

  /** A taken cell, or one that is no better, leaves the best so far in place. */
  lemma ScanKeeps(g: Grid, scores: seq<int>, k: nat, bestScore: int, bestMove: Coord)
    requires |scores| == 9 && k < 9 && ScanSoFar(g, scores, k, bestScore, bestMove)
    requires forall j | 0 <= j < 9 :: MinInt < scores[j]
    requires !(At(g, CellAt(k)) == None && scores[k] > bestScore)
    ensures ScanSoFar(g, scores, k + 1, bestScore, bestMove)
  {
    if bestMove == NoMove && bestScore == MinInt && forall j | 0 <= j < k :: At(g, CellAt(j)) != None {
      assert At(g, CellAt(k)) != None;
      assert forall j | 0 <= j < k + 1 :: At(g, CellAt(j)) != None;
    } else {
      assert forall j | 0 <= j < k + 1 && At(g, CellAt(j)) == None :: scores[j] <= bestScore;
    }
  }

  /** The rest of the scan keeps what the scan knows, up to the end of the board. */
  lemma {:induction false} BestMoveFromCorrect(g: Grid, scores: seq<int>, k: nat, bestScore: int, bestMove: Coord)
    returns (finalScore: int)
    requires |scores| == 9 && k <= 9 && ScanSoFar(g, scores, k, bestScore, bestMove)
    requires forall j | 0 <= j < 9 :: MinInt < scores[j]
    ensures ScanSoFar(g, scores, 9, finalScore, BestMoveFrom(g, scores, k, bestScore, bestMove))
    decreases 9 - k
  {
    if k == 9 {
      finalScore := bestScore;
    } else {
      var c := CellAt(k);
      if At(g, c) == None && scores[k] > bestScore {
        ScanImproves(g, scores, k, bestScore, bestMove);
        finalScore := BestMoveFromCorrect(g, scores, k + 1, scores[k], c);
      } else {
        ScanKeeps(g, scores, k, bestScore, bestMove);
        finalScore := BestMoveFromCorrect(g, scores, k + 1, bestScore, bestMove);
      }
    }
  }

  /**
    `GetBestMove` returns `(-1, -1)` exactly when the board is full;
    otherwise an empty cell whose score is the maximum over all empty cells,
    and the first such cell in the scan (`x` outer, `y` inner).
  */
  lemma BestMoveCorrect(g: Grid, ai: PlayerType)
    ensures BestMove(g, ai) == NoMove <==> Full(g)
    ensures !Full(g) ==>
      && InRange(BestMove(g, ai)) && At(g, BestMove(g, ai)) == None
      && (forall c | InRange(c) && At(g, c) == None :: RootScore(g, c, ai) <= RootScore(g, BestMove(g, ai), ai))
      && (forall c | InRange(c) && At(g, c) == None && Index(c) < Index(BestMove(g, ai)) ::
            RootScore(g, c, ai) < RootScore(g, BestMove(g, ai), ai))
  {
    var scores := RootScores(g, ai);
    var m := BestMove(g, ai);
    RootScoresBounds(g, ai);
    assert ScanSoFar(g, scores, 0, MinInt, NoMove);
    var s := BestMoveFromCorrect(g, scores, 0, MinInt, NoMove);
    if m == NoMove {
      forall x, y | 0 <= x < 3 && 0 <= y < 3
        ensures g[x][y] != None
      {
        CellAtIndex(Coord(x, y));
      }
    } else {
      CellAtIndex(m);
      forall c | InRange(c) && At(g, c) == None
        ensures RootScore(g, c, ai) <= RootScore(g, m, ai)
        ensures Index(c) < Index(m) ==> RootScore(g, c, ai) < RootScore(g, m, ai)
      {
        CellAtIndex(c);
      }
    }
  }

  /**
    `MinMaxAI.GetBestMove`: tries every empty cell in place, scoring it
    with `Minimax`, and leaves the array as it found it.
  */
  method GetBestMove(board: array2<PlayerType>, aiPlayer: PlayerType) returns (bestMove: Coord)
    requires board.Length0 == 3 && board.Length1 == 3 && aiPlayer != None
    modifies board
    ensures Snapshot(board) == old(Snapshot(board))
    ensures bestMove == BestMove(old(Snapshot(board)), aiPlayer)
  {
    ghost var g := Snapshot(board);
    ghost var scores := RootScores(g, aiPlayer);
    var bestScore := MinInt;
    bestMove := NoMove;
    for col := 0 to 3
      invariant Snapshot(board) == g
      invariant BestMoveFrom(g, scores, 3 * col, bestScore, bestMove) == BestMoveFrom(g, scores, 0, MinInt, NoMove)
    {
      for row := 0 to 3
        invariant Snapshot(board) == g
        invariant BestMoveFrom(g, scores, 3 * col + row, bestScore, bestMove) == BestMoveFrom(g, scores, 0, MinInt, NoMove)
      {
        BestMoveStepAt(g, scores, col, row, bestScore, bestMove);
        SnapshotCell(board, col, row);
        if board[col, row] == None {
          var score := SimulateMove(board, col, row, aiPlayer, 0, false, aiPlayer);
          RootScoresAt(g, aiPlayer, col, row);
          if score > bestScore {
            bestScore := score;
            bestMove := Coord(col, row);
          }
        }
      }
    }
  }
}
