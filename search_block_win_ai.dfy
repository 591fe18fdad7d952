/**
  The "Medium" computer opponent: one time in five a random empty cell,
  otherwise its own win, then a block of the opponent's win, then the
  centre, then a corner, then the first empty cell. The board is only read.
*/
module SearchBlockWinAI {
  import opened Board

  /** `Vector2Int?`: a cell, or `null` when no line has the wanted shape. */
  datatype MaybeMove = Nothing | Found(cell: Coord)

  // ------------------------------------------------------- one line's tally

  /** The `i`-th cell of a line, in the order the scan visits them. */
  function Cell(l: Line, i: int): Coord {
    if i <= 0 then l.a else if i == 1 then l.b else l.c
  }

  /** `count` after the first `n` cells of the line: how many of them hold `t`. */
  function Tally(g: Grid, l: Line, t: PlayerType, n: int): nat
    requires l.InBoard()
  {
    (if n > 0 && At(g, l.a) == t then 1 else 0)
    + (if n > 1 && At(g, l.b) == t then 1 else 0)
    + (if n > 2 && At(g, l.c) == t then 1 else 0)
  }

  /**
    `emptyX` (or `emptyY`, or `empty`) after the first `n` cells of the line:
    the position of the last empty one, since every empty cell overwrites
    it, or `-1` when none is empty.
  */
  function LastEmpty(g: Grid, l: Line, n: int): int
    requires l.InBoard()
  {
    if n > 2 && At(g, l.c) == None then 2
    else if n > 1 && At(g, l.b) == None then 1
    else if n > 0 && At(g, l.a) == None then 0
    else -1
  }

  /** The test `count == 2 && emptyX != -1` the scan makes on each line. */
  predicate Hit(g: Grid, l: Line, t: PlayerType)
    requires l.InBoard()
  {
    Tally(g, l, t, 3) == 2 && LastEmpty(g, l, 3) != -1
  }

  /** `c` is the one empty cell of `l`, and the other two hold `t`. */
  predicate Threat(g: Grid, l: Line, t: PlayerType, c: Coord)
    requires l.InBoard()
  {
    || (c == l.a && At(g, l.a) == None && At(g, l.b) == t && At(g, l.c) == t)
    || (c == l.b && At(g, l.b) == None && At(g, l.a) == t && At(g, l.c) == t)
    || (c == l.c && At(g, l.c) == None && At(g, l.a) == t && At(g, l.b) == t)
  }

  /**
    For a player's mark, the test of a line passes exactly when the line
    has the winning shape, and the cell it reports is the empty one.
  */
  lemma HitIffThreat(g: Grid, l: Line, t: PlayerType)
    requires l.InBoard() && t != None
    ensures forall c :: Threat(g, l, t, c) <==> Hit(g, l, t) && c == Cell(l, LastEmpty(g, l, 3))
  {
  }

  /** Writing `t` into the empty cell of a threatened line completes it with `t`. */
  lemma ThreatCompletes(g: Grid, l: Line, t: PlayerType, c: Coord)
    requires l.InBoard() && t != None && Threat(g, l, t, c)
    ensures InRange(c) && At(g, c) == None
    ensures Complete(Place(g, c, t), l) && At(Place(g, c, t), l.a) == t
  {
    PlaceKeepsOthers(g, c, t);
  }

  // ------------------------------------------------------ FindWinningMove

  /**
    The `k`-th line of the scan: lines of fixed `y`, lines of fixed `x`,
    `[i, i]`, then `[i, 2 - i]`.
  */
  function ScanLine(k: int): (l: Line)
    requires 0 <= k < 8
    ensures l.InBoard()
  {
    if k < 3 then FixedY(k) else if k < 6 then FixedX(k - 3) else if k == 6 then DiagDown else DiagUp
  }

  /** A line of the scan that is complete with `p`'s marks is a win for `p`. */
  lemma ScanLineWins(g: Grid, k: int, p: PlayerType)
    requires 0 <= k < 8 && Complete(g, ScanLine(k)) && At(g, ScanLine(k).a) == p
    ensures HasLineOf(g, p)
  {
    var i := if k < 3 then k + 3 else if k < 6 then k - 3 else if k == 6 then 7 else 6;
    assert AllLines[i] == ScanLine(k);
  }

  /** What `FindWinningMove(board, t)` returns from line `k` of the scan on. */
  function WinningMoveFrom(g: Grid, t: PlayerType, k: nat): MaybeMove
    requires k <= 8
    decreases g, 8 - k  // `g` in the measure stops Dafny from unrolling the whole scan on literal arguments
  {
    if k == 8 then Nothing
    else if Hit(g, ScanLine(k), t) then Found(Cell(ScanLine(k), LastEmpty(g, ScanLine(k), 3)))
    else WinningMoveFrom(g, t, k + 1)
  }

  /** What `FindWinningMove(board, t)` returns for a board holding `g`. */
  function WinningMove(g: Grid, t: PlayerType): MaybeMove {
    WinningMoveFrom(g, t, 0)
  }

  /** From line `k` on, the scan reports nothing only when no line has the winning shape. */
  lemma {:induction false} WinningMoveFromNothing(g: Grid, t: PlayerType, k: nat)
    requires k <= 8 && t != None
    ensures WinningMoveFrom(g, t, k) == Nothing <==> forall j, c | k <= j < 8 :: !Threat(g, ScanLine(j), t, c)
    decreases 8 - k
  {
    if k < 8 {
      HitIffThreat(g, ScanLine(k), t);
      if !Hit(g, ScanLine(k), t) {
        WinningMoveFromNothing(g, t, k + 1);
      } else {
        assert Threat(g, ScanLine(k), t, WinningMoveFrom(g, t, k).cell);
      }
    }
  }

  /** From line `k` on, the scan reports the empty cell of the first line with the winning shape. */
  lemma {:induction false} WinningMoveFromFirst(g: Grid, t: PlayerType, k: nat) returns (j: nat)
    requires k <= 8 && t != None && WinningMoveFrom(g, t, k).Found?
    ensures k <= j < 8 && Threat(g, ScanLine(j), t, WinningMoveFrom(g, t, k).cell)
    ensures forall i, c | k <= i < j :: !Threat(g, ScanLine(i), t, c)
    decreases 8 - k
  {
    HitIffThreat(g, ScanLine(k), t);
    if Hit(g, ScanLine(k), t) {
      j := k;
    } else {
      j := WinningMoveFromFirst(g, t, k + 1);
    }
  }

  /**
    `FindWinningMove` returns only the empty cell of a line whose other two
    cells hold `t`, and of the first such line in the scan order; it returns
    `null` only when no line has that shape.
  */
  lemma WinningMoveCorrect(g: Grid, t: PlayerType)
    requires t != None
    ensures WinningMove(g, t) == Nothing <==> forall k, c | 0 <= k < 8 :: !Threat(g, ScanLine(k), t, c)
    ensures WinningMove(g, t).Found? ==>
      exists k | 0 <= k < 8 :: Threat(g, ScanLine(k), t, WinningMove(g, t).cell)
        && (forall j, c | 0 <= j < k :: !Threat(g, ScanLine(j), t, c))
  {
    WinningMoveFromNothing(g, t, 0);
    if WinningMove(g, t).Found? {
      var k := WinningMoveFromFirst(g, t, 0);
    }
  }

  /** The move `FindWinningMove` finds for a player completes a line of that player. */
  lemma WinningMoveWins(g: Grid, t: PlayerType)
    requires t != None && WinningMove(g, t).Found?
    ensures InRange(WinningMove(g, t).cell) && At(g, WinningMove(g, t).cell) == None
    ensures HasLineOf(Place(g, WinningMove(g, t).cell, t), t)
  {
    var c := WinningMove(g, t).cell;
    WinningMoveCorrect(g, t);
    var k :| 0 <= k < 8 && Threat(g, ScanLine(k), t, c);
    ThreatCompletes(g, ScanLine(k), t, c);
    ScanLineWins(Place(g, c, t), k, t);
  }

  /** Whatever the mark, a cell `FindWinningMove` reports is empty. */
  lemma {:induction false} WinningMoveFromEmpty(g: Grid, t: PlayerType, k: nat)
    requires k <= 8 && WinningMoveFrom(g, t, k).Found?
    ensures InRange(WinningMoveFrom(g, t, k).cell) && At(g, WinningMoveFrom(g, t, k).cell) == None
    decreases 8 - k
  {
    if !Hit(g, ScanLine(k), t) {
      WinningMoveFromEmpty(g, t, k + 1);
    }
  }

  /** The inner loop one line's block repeats: `count` and the last empty position. */
  method TallyLine(board: array2<PlayerType>, l: Line, t: PlayerType) returns (count: int, empty: int)
    requires board.Length0 == 3 && board.Length1 == 3 && l.InBoard()
    ensures count == Tally(Snapshot(board), l, t, 3)
    ensures empty == LastEmpty(Snapshot(board), l, 3)
  {
    ghost var g := Snapshot(board);
    count := 0;
    empty := -1;
    for i := 0 to 3
      invariant count == Tally(g, l, t, i)
      invariant empty == LastEmpty(g, l, i)
    {
      var c := Cell(l, i);
      SnapshotCell(board, c.x, c.y);
      if board[c.x, c.y] == t {
        count := count + 1;
      }
      if board[c.x, c.y] == None {
        empty := i;
      }
    }
  }

  /** `SearchBlockWinAI.FindWinningMove`: the first line, in scan order, that passes the test. */
  method FindWinningMove(board: array2<PlayerType>, t: PlayerType) returns (m: MaybeMove)
    requires board.Length0 == 3 && board.Length1 == 3
    ensures m == WinningMove(Snapshot(board), t)
  {
    ghost var g := Snapshot(board);
    for y := 0 to 3
      invariant WinningMoveFrom(g, t, y) == WinningMove(g, t)
    {
      var count, emptyX := TallyLine(board, FixedY(y), t);
      if count == 2 && emptyX != -1 {
        return Found(Coord(emptyX, y));
      }
    }
    for x := 0 to 3
      invariant WinningMoveFrom(g, t, 3 + x) == WinningMove(g, t)
    {
      var count, emptyY := TallyLine(board, FixedX(x), t);
      if count == 2 && emptyY != -1 {
        return Found(Coord(x, emptyY));
      }
    }
    assert ScanLine(6) == DiagDown && ScanLine(7) == DiagUp;
    var count, empty := TallyLine(board, DiagDown, t);
    if count == 2 && empty != -1 {
      return Found(Coord(empty, empty));
    }
    assert WinningMoveFrom(g, t, 6) == WinningMoveFrom(g, t, 7);
    count, empty := TallyLine(board, DiagUp, t);
    if count == 2 && empty != -1 {
      return Found(Coord(empty, 2 - empty));
    }
    assert WinningMoveFrom(g, t, 7) == WinningMoveFrom(g, t, 8);
    return Nothing;
  }

  // -------------------------------------------------------- GetRandomMove

  /**
    What `GetRandomMove` returns when `Random.Range` yields `draw`: the
    empty cell at that position of the column-major list, `draw` taken
    modulo the list's length, or `(-1, -1)` when there is none.
  */
  function RandomMove(g: Grid, draw: int): Coord {
    var spots := EmptyCells(g);
    if |spots| == 0 then NoMove else spots[draw % |spots|]
  }

  /** The random pick is an empty cell when the board has one, and `(-1, -1)` otherwise. */
  lemma RandomMoveLegal(g: Grid, draw: int)
    ensures Full(g) ==> RandomMove(g, draw) == NoMove
    ensures !Full(g) ==> InRange(RandomMove(g, draw)) && At(g, RandomMove(g, draw)) == None
  {
    EmptyCellsIffNotFull(g);
    EmptyCellsExact(g);
    var spots := EmptyCells(g);
    if |spots| > 0 {
      assert spots[draw % |spots|] in spots;
    }
  }

  /** Every empty cell is the random pick for some draw. */
  lemma RandomMoveCovers(g: Grid, c: Coord) returns (draw: int)
    requires InRange(c) && At(g, c) == None
    ensures RandomMove(g, draw) == c
  {
    EmptyCellsExact(g);
    var spots := EmptyCells(g);
    assert c in spots;
    var i :| 0 <= i < |spots| && spots[i] == c;
    draw := i;
    SmallMod(i, |spots|);
  }

  lemma SmallMod(i: int, n: int)
    requires 0 <= i < n
    ensures i % n == i
  {
  }

  /** `SearchBlockWinAI.GetRandomMove`: collects the empty cells, then picks one. */
  method GetRandomMove(board: array2<PlayerType>, draw: int) returns (move: Coord)
    requires board.Length0 == 3 && board.Length1 == 3
    ensures move == RandomMove(Snapshot(board), draw)
  {
    var emptySpots := CollectEmpty(board);
    if |emptySpots| == 0 {
      return NoMove;
    }
    return emptySpots[draw % |emptySpots|];
  }

  // -------------------------------------------------------------- GetMove

  /** The corners in the order they are tried. */
  const Corners: seq<Coord> := [Coord(0, 0), Coord(2, 0), Coord(0, 2), Coord(2, 2)]

  /** The position in `Corners` of the first free corner from `k` on, or 4. */
  function FirstFreeCornerFrom(g: Grid, k: nat): (r: nat)
    requires k <= 4
    ensures k <= r <= 4
    decreases g, 4 - k  // `g` in the measure stops Dafny from unrolling the whole scan on literal arguments
  {
    if k == 4 then 4
    else if At(g, Corners[k]) == None then k
    else FirstFreeCornerFrom(g, k + 1)
  }

  lemma {:induction false} FirstFreeCornerFromSpec(g: Grid, k: nat)
    requires k <= 4
    ensures forall j | k <= j < FirstFreeCornerFrom(g, k) :: At(g, Corners[j]) != None
    ensures FirstFreeCornerFrom(g, k) < 4 ==> At(g, Corners[FirstFreeCornerFrom(g, k)]) == None
    decreases 4 - k
  {
    if k < 4 && At(g, Corners[k]) != None {
      FirstFreeCornerFromSpec(g, k + 1);
    }
  }

  /** The first empty cell with `x` outer and `y` inner, or `(-1, -1)`. */
  function FirstEmpty(g: Grid): Coord {
    if |EmptyCells(g)| > 0 then EmptyCells(g)[0] else NoMove
  }

  /** The move `GetMove` makes outside its random branch. */
  function HeuristicMove(g: Grid, ai: PlayerType): Coord {
    var win := WinningMove(g, ai);
    var block := WinningMove(g, Opponent(ai));
    if win.Found? then win.cell
    else if block.Found? then block.cell
    else if g[1][1] == None then Coord(1, 1)
    else if FirstFreeCornerFrom(g, 0) < 4 then Corners[FirstFreeCornerFrom(g, 0)]
    else FirstEmpty(g)
  }

  /** What `GetMove(board, ai)` returns when `Random.Range(0, 5)` yields `roll`. */
  function MediumMove(g: Grid, ai: PlayerType, roll: int, draw: int): Coord {
    if roll == 0 then RandomMove(g, draw) else HeuristicMove(g, ai)
  }

  /**
    On both branches, `GetMove` returns an empty cell when the board has
    one, and `(-1, -1)` only for a full board.
  */
  lemma MediumMoveLegal(g: Grid, ai: PlayerType, roll: int, draw: int)
    ensures !Full(g) ==> InRange(MediumMove(g, ai, roll, draw)) && At(g, MediumMove(g, ai, roll, draw)) == None
    ensures Full(g) ==> MediumMove(g, ai, roll, draw) == NoMove
  {
    RandomMoveLegal(g, draw);
    EmptyCellsIffNotFull(g);
    EmptyCellsExact(g);
    FirstFreeCornerFromSpec(g, 0);
    if WinningMove(g, ai).Found? {
      WinningMoveFromEmpty(g, ai, 0);
    }
    if WinningMove(g, Opponent(ai)).Found? {
      WinningMoveFromEmpty(g, Opponent(ai), 0);
    }
    if |EmptyCells(g)| > 0 {
      assert EmptyCells(g)[0] in EmptyCells(g);
    }
    if Full(g) {
      assert At(g, Coord(1, 1)) != None;
    }
  }

  /** Outside the random branch, a win on the board is always taken. */
  lemma MediumTakesWin(g: Grid, ai: PlayerType, roll: int, draw: int)
    requires roll != 0 && ai != None
    requires exists k, c | 0 <= k < 8 :: Threat(g, ScanLine(k), ai, c)
    ensures var m := MediumMove(g, ai, roll, draw);
      InRange(m) && At(g, m) == None && HasLineOf(Place(g, m, ai), ai)
  {
    WinningMoveCorrect(g, ai);
    WinningMoveWins(g, ai);
  }

  /**
    Outside the random branch, with no win for itself, the opponent marks
    the empty cell of a line where the other player has two marks.
  */
  lemma MediumBlocks(g: Grid, ai: PlayerType, roll: int, draw: int)
    requires roll != 0 && ai != None
    requires forall k, c | 0 <= k < 8 :: !Threat(g, ScanLine(k), ai, c)
    requires exists k, c | 0 <= k < 8 :: Threat(g, ScanLine(k), Opponent(ai), c)
    ensures exists k | 0 <= k < 8 :: Threat(g, ScanLine(k), Opponent(ai), MediumMove(g, ai, roll, draw))
  {
    WinningMoveCorrect(g, ai);
    WinningMoveCorrect(g, Opponent(ai));
  }

  /**
    Outside the random branch, with nothing to win or block, the centre
    comes first, then the first free corner in the order `(0, 0)`, `(2, 0)`,
    `(0, 2)`, `(2, 2)`, then the empty cell earliest in the column-major scan.
  */
  lemma MediumPreference(g: Grid, ai: PlayerType, roll: int, draw: int)
    requires roll != 0 && ai != None && !Full(g)
    requires forall k, c | 0 <= k < 8 :: !Threat(g, ScanLine(k), ai, c)
    requires forall k, c | 0 <= k < 8 :: !Threat(g, ScanLine(k), Opponent(ai), c)
    ensures g[1][1] == None ==> MediumMove(g, ai, roll, draw) == Coord(1, 1)
    ensures g[1][1] != None && (exists j | 0 <= j < 4 :: At(g, Corners[j]) == None) ==>
      exists j | 0 <= j < 4 :: MediumMove(g, ai, roll, draw) == Corners[j] && At(g, Corners[j]) == None
        && forall i | 0 <= i < j :: At(g, Corners[i]) != None
    ensures g[1][1] != None && (forall j | 0 <= j < 4 :: At(g, Corners[j]) != None) ==>
      var m := MediumMove(g, ai, roll, draw);
      InRange(m) && At(g, m) == None && forall c | InRange(c) && At(g, c) == None :: Index(m) <= Index(c)
  {
    WinningMoveCorrect(g, ai);
    WinningMoveCorrect(g, Opponent(ai));
    FirstFreeCornerFromSpec(g, 0);
    var k := FirstFreeCornerFrom(g, 0);
    if k == 4 && g[1][1] != None {
      EmptyCellsIffNotFull(g);
      EmptyCellsExact(g);
      var m := EmptyCells(g)[0];
      assert m in EmptyCells(g);
      forall c | InRange(c) && At(g, c) == None
        ensures Index(m) <= Index(c)
      {
        assert c in EmptyCells(g);
        var i :| 0 <= i < |EmptyCells(g)| && EmptyCells(g)[i] == c;
        assert i == 0 || Index(EmptyCells(g)[0]) < Index(EmptyCells(g)[i]);
      }
    }
  }

  /**
    `SearchBlockWinAI.GetMove`: the random branch on a roll of `0`, otherwise
    win, block, centre, corners and the first empty cell, in that order.
    The board is only read.
  */
  method GetMove(board: array2<PlayerType>, aiType: PlayerType, roll: int, draw: int) returns (move: Coord)
    requires board.Length0 == 3 && board.Length1 == 3
    ensures move == MediumMove(Snapshot(board), aiType, roll, draw)
  {
    ghost var g := Snapshot(board);
    if roll == 0 {
      move := GetRandomMove(board, draw);
      return;
    }
    var opponent := if aiType == Cross then Circle else Cross;
    var winMove := FindWinningMove(board, aiType);
    if winMove.Found? {
      return winMove.cell;
    }
    var blockMove := FindWinningMove(board, opponent);
    if blockMove.Found? {
      return blockMove.cell;
    }
    SnapshotCell(board, 1, 1);
    if board[1, 1] == None {
      return Coord(1, 1);
    }
    for i := 0 to 4
      invariant FirstFreeCornerFrom(g, i) == FirstFreeCornerFrom(g, 0)
    {
      var c := Corners[i];
      SnapshotCell(board, c.x, c.y);
      if board[c.x, c.y] == None {
        return c;
      }
    }
    move := FirstAvailable(board);
  }

  /** Step 5 of `GetMove`: the first empty cell, `x` outer and `y` inner, or `(-1, -1)`. */
  method FirstAvailable(board: array2<PlayerType>) returns (move: Coord)
    requires board.Length0 == 3 && board.Length1 == 3
    ensures move == FirstEmpty(Snapshot(board))
  {
    ghost var g := Snapshot(board);
    for x := 0 to 3
      invariant EmptyCellsFrom(g, 3 * x) == EmptyCells(g)
    {
      for y := 0 to 3
        invariant EmptyCellsFrom(g, 3 * x + y) == EmptyCells(g)
      {
        SnapshotCell(board, x, y);
        assert CellAt(3 * x + y) == Coord(x, y);
        if board[x, y] == None {
          return Coord(x, y);
        }
      }
    }
    return NoMove;
  }
}
