/**
  The 3x3 board shared by the game manager and both computer opponents:
  the `PlayerType[,]` array indexed `[x, y]`, its value view `Grid`, the
  eight lines of three cells, and the column-major list of empty cells.
*/
module Board {

  /** The occupancy of one cell, and also whose turn it is. */
  datatype PlayerType = None | Cross | Circle

  /** The other player. As in both computer opponents, `None` maps to `Cross`. */
  function Opponent(p: PlayerType): (q: PlayerType)
    ensures q != None && q != p
  {
    if p == Cross then Circle else Cross
  }

  /** A `Vector2Int` board coordinate; `(-1, -1)` means "no move". */
  datatype Coord = Coord(x: int, y: int)

  const NoMove: Coord := Coord(-1, -1)

  predicate InRange(c: Coord) {
    0 <= c.x < 3 && 0 <= c.y < 3
  }

  /** The value of a board: `g[x][y]` is the cell `[x, y]`. */
  type Grid = g: seq<seq<PlayerType>> | |g| == 3 && forall x | 0 <= x < 3 :: |g[x]| == 3
    witness [[None, None, None], [None, None, None], [None, None, None]]

  /** A freshly allocated `new PlayerType[3, 3]`: every cell holds `None`. */
  const EmptyGrid: Grid := [[None, None, None], [None, None, None], [None, None, None]]

  function At(g: Grid, c: Coord): PlayerType
    requires InRange(c)
  {
    g[c.x][c.y]
  }

  /** The board after writing `p` into cell `c`: that cell and no other changes. */
  function Place(g: Grid, c: Coord, p: PlayerType): (h: Grid)
    requires InRange(c)
    ensures At(h, c) == p
  {
    g[c.x := g[c.x][c.y := p]]
  }

  /** `Place` leaves every other cell as it was. */
  lemma PlaceKeepsOthers(g: Grid, c: Coord, p: PlayerType)
    requires InRange(c)
    ensures forall d | InRange(d) && d != c :: At(Place(g, c, p), d) == At(g, d)
  {
  }

  /** Writing `None` back into a cell that was empty restores the board. */
  lemma PlaceUndo(g: Grid, c: Coord, p: PlayerType)
    requires InRange(c) && At(g, c) == None
    ensures Place(Place(g, c, p), c, None) == g
  {
    GridExt(Place(Place(g, c, p), c, None), g);
  }

  /** Two boards that agree on every cell are equal. */
  lemma GridExt(g: Grid, h: Grid)
    requires forall c | InRange(c) :: At(g, c) == At(h, c)
    ensures g == h
  {
    forall x | 0 <= x < 3
      ensures g[x] == h[x]
    {
      forall y | 0 <= y < 3
        ensures g[x][y] == h[x][y]
      {
        assert At(g, Coord(x, y)) == At(h, Coord(x, y));
      }
    }
  }

  lemma EmptyGridIsEmpty()
    ensures forall c | InRange(c) :: At(EmptyGrid, c) == None
  {
  }

  /** No cell holds `None`. */
  predicate Full(g: Grid) {
    forall x, y | 0 <= x < 3 && 0 <= y < 3 :: g[x][y] != None
  }

  /** The value held by a 3x3 array. */
  function Snapshot(a: array2<PlayerType>): (g: Grid)
    requires a.Length0 == 3 && a.Length1 == 3
    reads a
  {
    [[a[0, 0], a[0, 1], a[0, 2]], [a[1, 0], a[1, 1], a[1, 2]], [a[2, 0], a[2, 1], a[2, 2]]]
  }

  /** Each cell of the snapshot is the array's cell. */
  lemma SnapshotCell(a: array2<PlayerType>, x: int, y: int)
    requires a.Length0 == 3 && a.Length1 == 3 && 0 <= x < 3 && 0 <= y < 3
    ensures Snapshot(a)[x][y] == a[x, y]
  {
  }

  lemma SnapshotCells(a: array2<PlayerType>)
    requires a.Length0 == 3 && a.Length1 == 3
    ensures forall x, y | 0 <= x < 3 && 0 <= y < 3 :: Snapshot(a)[x][y] == a[x, y]
  {
    forall x, y | 0 <= x < 3 && 0 <= y < 3
      ensures Snapshot(a)[x][y] == a[x, y]
    {
      SnapshotCell(a, x, y);
    }
  }

  /** An array that holds `h` in each of its nine cells has snapshot `h`. */
  lemma SnapshotIs(a: array2<PlayerType>, h: Grid)
    requires a.Length0 == 3 && a.Length1 == 3
    requires a[0, 0] == h[0][0] && a[0, 1] == h[0][1] && a[0, 2] == h[0][2]
    requires a[1, 0] == h[1][0] && a[1, 1] == h[1][1] && a[1, 2] == h[1][2]
    requires a[2, 0] == h[2][0] && a[2, 1] == h[2][1] && a[2, 2] == h[2][2]
    ensures Snapshot(a) == h
  {
    assert Snapshot(a)[0] == h[0] && Snapshot(a)[1] == h[1] && Snapshot(a)[2] == h[2];
  }

  // ---------------------------------------------------------------- counting

  function RowEmpties(r: seq<PlayerType>): nat
    requires |r| == 3
  {
    (if r[0] == None then 1 else 0) + (if r[1] == None then 1 else 0) + (if r[2] == None then 1 else 0)
  }

  /** The number of empty cells. */
  function EmptyCount(g: Grid): (n: nat)
    ensures n <= 9
  {
    RowEmpties(g[0]) + RowEmpties(g[1]) + RowEmpties(g[2])
  }

  /** The number of marks on the board, which `playsCount` tracks. */
  function FilledCount(g: Grid): nat {
    9 - EmptyCount(g)
  }

  /** Writing a mark into an empty cell fills exactly one more cell. */
  lemma PlaceFills(g: Grid, c: Coord, p: PlayerType)
    requires InRange(c) && At(g, c) == None && p != None
    ensures EmptyCount(Place(g, c, p)) == EmptyCount(g) - 1
  {
    var h := Place(g, c, p);
    assert h[c.x] == g[c.x][c.y := p];
    forall x | 0 <= x < 3 && x != c.x
      ensures h[x] == g[x]
    {
    }
  }

  lemma EmptyGridCount()
    ensures EmptyCount(EmptyGrid) == 9
  {
  }

  /** A board is full exactly when it has no empty cell left to count. */
  lemma FullIffNoEmpties(g: Grid)
    ensures Full(g) <==> EmptyCount(g) == 0
  {
    if EmptyCount(g) != 0 {
      var x :| 0 <= x < 3 && RowEmpties(g[x]) != 0;
      var y :| 0 <= y < 3 && g[x][y] == None;
      assert At(g, Coord(x, y)) == None;
    }
  }

  // ------------------------------------------------------------------- lines

  /** Three cells, in the order a scan visits them. */
  datatype Line = Line(a: Coord, b: Coord, c: Coord) {
    predicate InBoard() {
      InRange(a) && InRange(b) && InRange(c)
    }
  }

  /** The line along a fixed `x`: `[x, 0], [x, 1], [x, 2]`. */
  function FixedX(x: int): Line {
    Line(Coord(x, 0), Coord(x, 1), Coord(x, 2))
  }

  /** The line along a fixed `y`: `[0, y], [1, y], [2, y]`. */
  function FixedY(y: int): Line {
    Line(Coord(0, y), Coord(1, y), Coord(2, y))
  }

  /** `[0, 0], [1, 1], [2, 2]`. */
  const DiagDown: Line := Line(Coord(0, 0), Coord(1, 1), Coord(2, 2))

  /** `[0, 2], [1, 1], [2, 0]`. */
  const DiagUp: Line := Line(Coord(0, 2), Coord(1, 1), Coord(2, 0))

  /** The eight lines of the board. */
  const AllLines: seq<Line> :=
    [FixedX(0), FixedX(1), FixedX(2), FixedY(0), FixedY(1), FixedY(2), DiagUp, DiagDown]

  /** All three cells of `l` hold the same mark. */
  predicate Complete(g: Grid, l: Line)
    requires l.InBoard()
  {
    At(g, l.a) != None && At(g, l.a) == At(g, l.b) && At(g, l.b) == At(g, l.c)
  }

  /** Some line of the board is complete. */
  predicate HasLine(g: Grid) {
    exists k | 0 <= k < 8 :: Complete(g, AllLines[k])
  }

  /** Some line of the board is complete with `p`'s marks. */
  predicate HasLineOf(g: Grid, p: PlayerType) {
    exists k | 0 <= k < 8 :: Complete(g, AllLines[k]) && At(g, AllLines[k].a) == p
  }

  predicate AllInBoard(lines: seq<Line>) {
    forall l | l in lines :: l.InBoard()
  }

  /**
    The index of the first complete line of `lines` at or after `k`, or
    `|lines|` when there is none: the early-return scan every win check uses.
  */
  function FirstCompleteFrom(g: Grid, lines: seq<Line>, k: nat): (r: nat)
    requires AllInBoard(lines) && k <= |lines|
    ensures k <= r <= |lines|
    decreases g, |lines| - k  // `g` in the measure stops Dafny from unrolling the whole scan on literal arguments
  {
    if k == |lines| then k
    else if Complete(g, lines[k]) then k
    else FirstCompleteFrom(g, lines, k + 1)
  }

  /** The scan stops at the first complete line: none before it is complete. */
  lemma {:induction false} FirstCompleteFromSpec(g: Grid, lines: seq<Line>, k: nat)
    requires AllInBoard(lines) && k <= |lines|
    ensures forall j | k <= j < FirstCompleteFrom(g, lines, k) :: !Complete(g, lines[j])
    ensures FirstCompleteFrom(g, lines, k) < |lines| ==> Complete(g, lines[FirstCompleteFrom(g, lines, k)])
    decreases |lines| - k
  {
    if k < |lines| && !Complete(g, lines[k]) {
      FirstCompleteFromSpec(g, lines, k + 1);
    }
  }

  // ------------------------------------------------------------- empty cells

  /** The `k`-th cell of the scan with `x` outer and `y` inner. */
  function CellAt(k: int): (c: Coord)
    ensures 0 <= k < 9 ==> InRange(c)
  {
    if k < 3 then Coord(0, k) else if k < 6 then Coord(1, k - 3) else Coord(2, k - 6)
  }

  /** The position of `c` in the scan with `x` outer and `y` inner. */
  function Index(c: Coord): int {
    3 * c.x + c.y
  }

  lemma CellAtIndex(c: Coord)
    requires InRange(c)
    ensures 0 <= Index(c) < 9 && CellAt(Index(c)) == c
  {
  }

  lemma IndexCellAt(k: int)
    requires 0 <= k < 9
    ensures InRange(CellAt(k)) && Index(CellAt(k)) == k
  {
  }

  /** The empty cells at scan positions `k` and later, in scan order. */
  function EmptyCellsFrom(g: Grid, k: nat): seq<Coord>
    requires k <= 9
    decreases g, 9 - k  // `g` in the measure stops Dafny from unrolling the whole scan on literal arguments
  {
    if k == 9 then []
    else (if At(g, CellAt(k)) == None then [CellAt(k)] else []) + EmptyCellsFrom(g, k + 1)
  }

  /** The empty cells of the board, `x` outer and `y` inner. */
  function EmptyCells(g: Grid): seq<Coord> {
    EmptyCellsFrom(g, 0)
  }

  lemma {:induction false} EmptyCellsFromMembers(g: Grid, k: nat)
    requires k <= 9
    ensures forall c :: c in EmptyCellsFrom(g, k) <==> InRange(c) && k <= Index(c) && At(g, c) == None
    decreases 9 - k
  {
    if k < 9 {
      EmptyCellsFromMembers(g, k + 1);
      IndexCellAt(k);
      var s, rest := EmptyCellsFrom(g, k), EmptyCellsFrom(g, k + 1);
      forall c
        ensures c in s <==> InRange(c) && k <= Index(c) && At(g, c) == None
      {
        if InRange(c) && Index(c) == k {
          CellAtIndex(c);
        }
      }
    }
  }

  lemma {:induction false} EmptyCellsFromAbove(g: Grid, k: nat)
    requires k <= 9
    ensures forall i | 0 <= i < |EmptyCellsFrom(g, k)| :: k <= Index(EmptyCellsFrom(g, k)[i])
    decreases 9 - k
  {
    if k < 9 {
      EmptyCellsFromAbove(g, k + 1);
      IndexCellAt(k);
    }
  }

  /** The cells of `s` come strictly in scan order. */
  ghost predicate InScanOrder(s: seq<Coord>) {
    forall i, j | 0 <= i < j < |s| :: Index(s[i]) < Index(s[j])
  }

  lemma ConsInScanOrder(c: Coord, rest: seq<Coord>)
    requires InScanOrder(rest)
    requires forall i | 0 <= i < |rest| :: Index(c) < Index(rest[i])
    ensures InScanOrder([c] + rest)
  {
    var s := [c] + rest;
    forall i, j | 0 <= i < j < |s|
      ensures Index(s[i]) < Index(s[j])
    {
      assert s[j] == rest[j - 1];
      if i > 0 {
        assert s[i] == rest[i - 1];
      }
    }
  }

  lemma {:induction false} EmptyCellsFromSorted(g: Grid, k: nat)
    requires k <= 9
    ensures InScanOrder(EmptyCellsFrom(g, k))
    decreases 9 - k
  {
    if k < 9 {
      var rest := EmptyCellsFrom(g, k + 1);
      EmptyCellsFromSorted(g, k + 1);
      if At(g, CellAt(k)) == None {
        EmptyCellsFromAbove(g, k + 1);
        IndexCellAt(k);
        ConsInScanOrder(CellAt(k), rest);
      }
    }
  }

  /**
    The list of empty cells holds every empty in-range cell and nothing else,
    strictly in scan order (so without repetitions).
  */
  lemma EmptyCellsExact(g: Grid)
    ensures forall c :: c in EmptyCells(g) <==> InRange(c) && At(g, c) == None
    ensures forall i, j | 0 <= i < j < |EmptyCells(g)| :: Index(EmptyCells(g)[i]) < Index(EmptyCells(g)[j])
  {
    EmptyCellsFromMembers(g, 0);
    EmptyCellsFromSorted(g, 0);
    forall c | InRange(c) && At(g, c) == None
      ensures c in EmptyCells(g)
    {
      CellAtIndex(c);
    }
  }

  /** A board has an empty cell exactly when it is not full. */
  lemma EmptyCellsIffNotFull(g: Grid)
    ensures |EmptyCells(g)| == 0 <==> Full(g)
  {
    EmptyCellsExact(g);
    if |EmptyCells(g)| > 0 {
      assert EmptyCells(g)[0] in EmptyCells(g);
    }
    if !Full(g) {
      var x, y :| 0 <= x < 3 && 0 <= y < 3 && g[x][y] == None;
      assert Coord(x, y) in EmptyCells(g);
    }
  }

  /** One step of the scan that collects empty cells. */
  lemma CollectStep(g: Grid, x: int, y: int, cells: seq<Coord>)
    requires 0 <= x < 3 && 0 <= y < 3
    requires cells + EmptyCellsFrom(g, 3 * x + y) == EmptyCells(g)
    ensures (cells + if g[x][y] == None then [Coord(x, y)] else []) + EmptyCellsFrom(g, 3 * x + y + 1)
      == EmptyCells(g)
  {
    var k := 3 * x + y;
    var rest := EmptyCellsFrom(g, k + 1);
    var here := if g[x][y] == None then [Coord(x, y)] else [];
    assert CellAt(k) == Coord(x, y);
    assert EmptyCellsFrom(g, k) == here + rest;
    assert (cells + here) + rest == cells + (here + rest);
  }

  /** `new PlayerType[3, 3]`: a fresh array whose cells all hold `None`. */
  method NewBoard() returns (a: array2<PlayerType>)
    ensures fresh(a) && a.Length0 == 3 && a.Length1 == 3 && Snapshot(a) == EmptyGrid
  {
    a := new PlayerType[3, 3]((x, y) => None);
    SnapshotIs(a, EmptyGrid);
  }

  /**
    Collects the empty cells of the array into a list, `x` outer and `y`
    inner, as `GetRandomMove` and the easy opponent both do.
  */
  method CollectEmpty(board: array2<PlayerType>) returns (cells: seq<Coord>)
    requires board.Length0 == 3 && board.Length1 == 3
    ensures cells == EmptyCells(Snapshot(board))
  {
    ghost var g := Snapshot(board);
    cells := [];
    for x := 0 to 3
      invariant cells + EmptyCellsFrom(g, 3 * x) == EmptyCells(g)
    {
      for y := 0 to 3
        invariant cells + EmptyCellsFrom(g, 3 * x + y) == EmptyCells(g)
      {
        CollectStep(g, x, y, cells);
        SnapshotCell(board, x, y);
        if board[x, y] == None {
          cells := cells + [Coord(x, y)];
        } else {
          // `CollectStep` speaks of `cells + []`; without this the solver runs out of resource
          assert cells + [] == cells;
        }
      }
    }
  }
}
