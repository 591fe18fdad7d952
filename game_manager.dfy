/**
  The game manager: the board array, the count of marks played, the two
  per-mode turn and score pairs (the networked ones used online, the local
  ones against the computer), the last win check, the move and restart
  operations of both paths, and the computer opponent's three moves.
*/
module Game {
  import opened Board
  import opened GameStates
  import SearchBlockWinAI
  import MinMaxAI

  /** `LineType`; its `None` is written `NoLine` here. */
  datatype LineType = NoLine | Horizontal | Vertical | DiagonalMain | DiagonalAnti

  /** `AIDifficulty`; its `None` is written `NoDifficulty` here. */
  datatype AIDifficulty = NoDifficulty | Easy | Medium | Hard

  /** `WinResult`, with `Center` kept as a board coordinate. */
  datatype WinResult = WinResult(winner: PlayerType, center: Coord, line: LineType)

  /** The result `CheckWin` starts from and returns when no line is complete. */
  const NoResult: WinResult := WinResult(None, Coord(0, 0), NoLine)

  // --------------------------------------------------------------- CheckWin

  /**
    `CheckWin` scans the lines in the order of `AllLines`: fixed `x`, fixed
    `y`, `[0, 2], [1, 1], [2, 0]`, then `[0, 0], [1, 1], [2, 2]`. The lines
    of fixed `x` are labelled `Vertical` and those of fixed `y` `Horizontal`.
  */
  function LineLabel(k: int): LineType {
    if k < 3 then Vertical else if k < 6 then Horizontal else if k == 6 then DiagonalMain else DiagonalAnti
  }

  /** The middle cell of the `k`-th line of the scan. */
  function LineCenter(k: int): Coord {
    if k < 3 then Coord(k, 1) else if k < 6 then Coord(1, k - 3) else Coord(1, 1)
  }

  /** What `CheckWin` returns for a board holding `g`. */
  function CheckWin(g: Grid): WinResult {
    var k := FirstCompleteFrom(g, AllLines, 0);
    if k < 8 then WinResult(At(g, AllLines[k].a), LineCenter(k), LineLabel(k)) else NoResult
  }

  /**
    `CheckWin` reports no winner exactly when no line is complete;
    otherwise it reports the first complete line of the scan, with its mark,
    its middle cell and its label.
  */
  lemma CheckWinSpec(g: Grid)
    ensures CheckWin(g).winner == None <==> !HasLine(g)
    ensures CheckWin(g).winner == None ==> CheckWin(g) == NoResult
    ensures CheckWin(g).winner != None ==>
      exists k | 0 <= k < 8 ::
        && Complete(g, AllLines[k])
        && (forall j | 0 <= j < k :: !Complete(g, AllLines[j]))
        && CheckWin(g) == WinResult(At(g, AllLines[k].a), LineCenter(k), LineLabel(k))
  {
    FirstCompleteFromSpec(g, AllLines, 0);
  }

  /**
    A complete line of fixed `x`, with no earlier one, is reported as
    `Vertical` around `(x, 1)`, although it runs along the board's `y` axis.
  */
  lemma FixedXIsVertical(g: Grid, x: int)
    requires 0 <= x < 3 && Complete(g, FixedX(x))
    requires forall i | 0 <= i < x :: !Complete(g, FixedX(i))
    ensures CheckWin(g) == WinResult(g[x][0], Coord(x, 1), Vertical)
  {
    FirstCompleteFromSpec(g, AllLines, 0);
    var k := FirstCompleteFrom(g, AllLines, 0);
    assert AllLines[x] == FixedX(x);
    forall j | 0 <= j < x
      ensures !Complete(g, AllLines[j])
    {
      assert AllLines[j] == FixedX(j);
    }
  }

  // ------------------------------------------------------ session transitions

  /** The state the two move paths and the two restart paths change. */
  datatype Session = Session(
    grid: Grid,
    playsCount: int,
    playerTypeTurn: PlayerType,
    remotePlayerTypeTurn: PlayerType,
    crossScore: int,
    circleScore: int,
    remoteCrossScore: int,
    remoteCircleScore: int,
    winResult: WinResult)

  /** The state `Awake` and the field initialisers leave. */
  const InitialSession: Session := Session(EmptyGrid, 0, None, None, 0, 0, 0, 0, NoResult)

  /** `playsCount` counts the marks on the board. */
  predicate Consistent(s: Session) {
    s.playsCount == FilledCount(s.grid)
  }

  /** `1` when the win check reports `p` as the winner, else `0`. */
  function Point(w: WinResult, p: PlayerType): int {
    if w.winner == p then 1 else 0
  }

  /**
    The second half of `ClickedOnGridBoxRpc`, once `p`'s mark is on
    `s.grid` and counted: pass the turn, check for a win, and on a win or
    a full count clear the turn and score the winner.
  */
  function RpcOutcome(s: Session, p: PlayerType): Session {
    var w := CheckWin(s.grid);
    s.(winResult := w,
       playerTypeTurn := if w.winner != None || s.playsCount >= 9 then None else Opponent(p),
       crossScore := s.crossScore + Point(w, Cross), circleScore := s.circleScore + Point(w, Circle))
  }

  /** Both move paths write the mark and count the play before looking at the mover. */
  function Placed(s: Session, c: Coord, p: PlayerType): Session
    requires InRange(c)
  {
    s.(grid := Place(s.grid, c, p), playsCount := s.playsCount + 1)
  }

  /**
    `ClickedOnGridBoxRpc(c, p)` on the server. A mover other than Cross or
    Circle falls to the switch's default case after the write and the count.
  */
  function RpcMove(s: Session, c: Coord, p: PlayerType): Session
    requires InRange(c)
  {
    if s.playerTypeTurn != p || At(s.grid, c) != None then s
    else if p == None then Placed(s, c, p)
    else RpcOutcome(Placed(s, c, p), p)
  }

  /**
    The second half of `ClickedOnGridBoxRemote`. On a draw it clears the
    networked turn, not `remotePlayerTypeTurn`, which keeps the turn
    passed to the other player.
  */
  function RemoteOutcome(s: Session, p: PlayerType): Session {
    var w := CheckWin(s.grid);
    s.(winResult := w,
       remotePlayerTypeTurn := if w.winner != None then None else Opponent(p),
       playerTypeTurn := if w.winner == None && s.playsCount >= 9 then None else s.playerTypeTurn,
       remoteCrossScore := s.remoteCrossScore + Point(w, Cross),
       remoteCircleScore := s.remoteCircleScore + Point(w, Circle))
  }

  /** `ClickedOnGridBoxRemote(c, p)`, with the same default case. */
  function RemoteMove(s: Session, c: Coord, p: PlayerType): Session
    requires InRange(c)
  {
    if s.remotePlayerTypeTurn != p || At(s.grid, c) != None then s
    else if p == None then Placed(s, c, p)
    else RemoteOutcome(Placed(s, c, p), p)
  }

  /**
    The coroutine `ClickedOnGridBoxRemote` starts: the one for the selected
    difficulty when the move was accepted and leaves Circle to play in a game
    that goes on, and none otherwise.
  */
  function RemoteSchedule(s: Session, c: Coord, p: PlayerType, d: AIDifficulty): AIDifficulty
    requires InRange(c)
  {
    var t := RemoteMove(s, c, p);
    if s.remotePlayerTypeTurn == p && At(s.grid, c) == None && p != None
      && t.remotePlayerTypeTurn == Circle && t.winResult.winner == None && t.playsCount < 9
    then d else NoDifficulty
  }

  /** Who moves first after a restart; `coin` is `Random.value > 0.5f`. */
  function FirstMover(w: WinResult, coin: bool): PlayerType {
    if w.winner == Cross then Circle
    else if w.winner == Circle then Cross
    else if coin then Cross else Circle
  }

  /** `RestartGameRpc`: the last win result is kept. */
  function RestartRpc(s: Session, coin: bool): Session {
    s.(grid := EmptyGrid, playsCount := 0, playerTypeTurn := FirstMover(s.winResult, coin))
  }

  /** `RestartGameRemote`: the last win result is cleared. */
  function RestartRemote(s: Session, coin: bool): Session {
    s.(grid := EmptyGrid, playsCount := 0, remotePlayerTypeTurn := FirstMover(s.winResult, coin), winResult := NoResult)
  }

  /** The coroutine `RestartGameRemote` starts: one only when Circle moves first. */
  function RestartSchedule(s: Session, coin: bool, d: AIDifficulty): AIDifficulty {
    if RestartRemote(s, coin).remotePlayerTypeTurn == Circle then d else NoDifficulty
  }

  // ------------------------------------------------------------- move lemmas

  /**
    A networked move changes nothing exactly when it is not the mover's turn
    or the cell is taken.
  */
  lemma RpcMoveRejected(s: Session, c: Coord, p: PlayerType)
    requires InRange(c)
    ensures RpcMove(s, c, p) == s <==> s.playerTypeTurn != p || At(s.grid, c) != None
  {
    if s.playerTypeTurn == p && At(s.grid, c) == None {
      assert RpcMove(s, c, p).playsCount == s.playsCount + 1;
    }
  }

  /** The same holds for a local move. */
  lemma RemoteMoveRejected(s: Session, c: Coord, p: PlayerType)
    requires InRange(c)
    ensures RemoteMove(s, c, p) == s <==> s.remotePlayerTypeTurn != p || At(s.grid, c) != None
  {
    if s.remotePlayerTypeTurn == p && At(s.grid, c) == None {
      assert RemoteMove(s, c, p).playsCount == s.playsCount + 1;
    }
  }

  /**
    A move by `None` that gets past both checks (the turn is `None` and the
    cell is empty) leaves the board as it was but counts a play, so
    `playsCount` no longer counts the marks.
  */
  lemma NoneMoveMiscounts(s: Session, c: Coord)
    requires InRange(c) && At(s.grid, c) == None
    ensures s.playerTypeTurn == None ==> RpcMove(s, c, None) == s.(playsCount := s.playsCount + 1)
    ensures s.remotePlayerTypeTurn == None ==> RemoteMove(s, c, None) == s.(playsCount := s.playsCount + 1)
    ensures Consistent(s) && s.playerTypeTurn == None ==> !Consistent(RpcMove(s, c, None))
    ensures Consistent(s) && s.remotePlayerTypeTurn == None ==> !Consistent(RemoteMove(s, c, None))
    ensures forall d :: RemoteSchedule(s, c, None, d) == NoDifficulty
  {
    GridExt(Place(s.grid, c, None), s.grid);
  }

  /**
    An accepted networked move marks the target cell and no other, counts
    one more play, records the win check of the new board, passes the
    turn (or clears it when the game ends), raises only the winner's score
    by one, and leaves the local turn and scores alone.
  */
  lemma RpcMoveAccepted(s: Session, c: Coord, p: PlayerType)
    requires InRange(c) && p != None && s.playerTypeTurn == p && At(s.grid, c) == None
    ensures var t := RpcMove(s, c, p);
      && At(t.grid, c) == p
      && (forall d | InRange(d) && d != c :: At(t.grid, d) == At(s.grid, d))
      && t.playsCount == s.playsCount + 1
      && t.winResult == CheckWin(t.grid)
      && t.playerTypeTurn == (if t.winResult.winner != None || t.playsCount >= 9 then None else Opponent(p))
      && (t.winResult.winner == Cross ==> t.crossScore == s.crossScore + 1 && t.circleScore == s.circleScore)
      && (t.winResult.winner == Circle ==> t.circleScore == s.circleScore + 1 && t.crossScore == s.crossScore)
      && (t.winResult.winner == None ==> t.crossScore == s.crossScore && t.circleScore == s.circleScore)
      && t.remotePlayerTypeTurn == s.remotePlayerTypeTurn
      && t.remoteCrossScore == s.remoteCrossScore && t.remoteCircleScore == s.remoteCircleScore
  {
    PlaceKeepsOthers(s.grid, c, p);
  }

  /**
    An accepted local move does the same with the local turn and scores;
    on a draw the local turn still passes while the networked one is cleared.
  */
  lemma RemoteMoveAccepted(s: Session, c: Coord, p: PlayerType)
    requires InRange(c) && p != None && s.remotePlayerTypeTurn == p && At(s.grid, c) == None
    ensures var t := RemoteMove(s, c, p);
      && At(t.grid, c) == p
      && (forall d | InRange(d) && d != c :: At(t.grid, d) == At(s.grid, d))
      && t.playsCount == s.playsCount + 1
      && t.winResult == CheckWin(t.grid)
      && t.remotePlayerTypeTurn == (if t.winResult.winner != None then None else Opponent(p))
      && t.playerTypeTurn == (if t.winResult.winner == None && t.playsCount >= 9 then None else s.playerTypeTurn)
      && (t.winResult.winner == Cross ==> t.remoteCrossScore == s.remoteCrossScore + 1 && t.remoteCircleScore == s.remoteCircleScore)
      && (t.winResult.winner == Circle ==> t.remoteCircleScore == s.remoteCircleScore + 1 && t.remoteCrossScore == s.remoteCrossScore)
      && (t.winResult.winner == None ==> t.remoteCrossScore == s.remoteCrossScore && t.remoteCircleScore == s.remoteCircleScore)
      && t.crossScore == s.crossScore && t.circleScore == s.circleScore
  {
    PlaceKeepsOthers(s.grid, c, p);
  }

  /**
    On a board with no complete line, a move that completes one wins for
    the mover: the winner is the player who moved.
  */
  lemma WinnerIsMover(g: Grid, c: Coord, p: PlayerType)
    requires InRange(c) && p != None && At(g, c) == None && !HasLine(g)
    ensures CheckWin(Place(g, c, p)).winner != None ==> CheckWin(Place(g, c, p)).winner == p
  {
    var h := Place(g, c, p);
    var k := FirstCompleteFrom(h, AllLines, 0);
    FirstCompleteFromSpec(h, AllLines, 0);
    if k < 8 {
      var l := AllLines[k];
      if At(h, l.a) != p {
        assert l.a != c && l.b != c && l.c != c;
        assert At(g, l.a) == At(h, l.a) && At(g, l.b) == At(h, l.b) && At(g, l.c) == At(h, l.c);
        assert Complete(g, AllLines[k]);
        assert false;
      }
    }
  }

  /** Both moves keep `playsCount` equal to the number of marks. */
  lemma MovesKeepConsistent(s: Session, c: Coord, p: PlayerType)
    requires Consistent(s) && InRange(c) && p != None
    ensures Consistent(RpcMove(s, c, p)) && Consistent(RemoteMove(s, c, p))
  {
    if At(s.grid, c) == None {
      PlaceFills(s.grid, c, p);
    }
  }

  /** Both restarts leave an empty board and a zero count. */
  lemma RestartsKeepConsistent(s: Session, coin: bool)
    ensures Consistent(RestartRpc(s, coin)) && Consistent(RestartRemote(s, coin))
  {
    EmptyGridCount();
  }

  lemma InitialConsistent()
    ensures Consistent(InitialSession) && InitialSession.winResult.winner == None
  {
    EmptyGridCount();
  }

  /**
    With `playsCount` counting the marks, the draw test `playsCount >= 9`
    after an accepted move holds exactly when the board is full.
  */
  lemma DrawMeansFull(s: Session, c: Coord, p: PlayerType)
    requires Consistent(s) && InRange(c) && p != None && s.remotePlayerTypeTurn == p && At(s.grid, c) == None
    ensures RemoteMove(s, c, p).playsCount >= 9 <==> Full(RemoteMove(s, c, p).grid)
  {
    PlaceFills(s.grid, c, p);
    FullIffNoEmpties(RemoteMove(s, c, p).grid);
  }

  // ---------------------------------------------------------- restart lemmas

  /**
    A restart empties the board and the count, never touches a score, and
    gives the first move to the loser of a decisive game, or to the player
    the coin picks.
  */
  lemma RestartEffects(s: Session, coin: bool)
    ensures var t := RestartRpc(s, coin);
      && (forall c | InRange(c) :: At(t.grid, c) == None) && t.playsCount == 0
      && t.crossScore == s.crossScore && t.circleScore == s.circleScore
      && t.remoteCrossScore == s.remoteCrossScore && t.remoteCircleScore == s.remoteCircleScore
      && (s.winResult.winner != None ==> t.playerTypeTurn == Opponent(s.winResult.winner))
      && (s.winResult.winner == None ==> t.playerTypeTurn == (if coin then Cross else Circle))
    ensures var t := RestartRemote(s, coin);
      && (forall c | InRange(c) :: At(t.grid, c) == None) && t.playsCount == 0
      && t.crossScore == s.crossScore && t.circleScore == s.circleScore
      && t.remoteCrossScore == s.remoteCrossScore && t.remoteCircleScore == s.remoteCircleScore
      && (s.winResult.winner != None ==> t.remotePlayerTypeTurn == Opponent(s.winResult.winner))
      && (s.winResult.winner == None ==> t.remotePlayerTypeTurn == (if coin then Cross else Circle))
  {
    EmptyGridIsEmpty();
  }

  /**
    `RestartGameRpc` keeps the last win result, so restarting twice after a
    decisive game gives the first move to the same player whatever the coin;
    `RestartGameRemote` clears it, so its second restart is up to the coin.
  */
  lemma RestartRepeated(s: Session, coin1: bool, coin2: bool)
    ensures RestartRpc(s, coin1).winResult == s.winResult
    ensures s.winResult.winner != None ==>
      RestartRpc(RestartRpc(s, coin1), coin2).playerTypeTurn == RestartRpc(s, coin1).playerTypeTurn
    ensures RestartRemote(s, coin1).winResult.winner == None
    ensures RestartRemote(RestartRemote(s, coin1), coin2).remotePlayerTypeTurn == (if coin2 then Cross else Circle)
  {
  }

  // ------------------------------------------------------------- scheduling

  /**
    The computer opponent is started after a local move only when Circle is
    to play, nobody has won and the board still has an empty cell.
  */
  lemma ScheduledMoveHasRoom(s: Session, c: Coord, p: PlayerType, d: AIDifficulty)
    requires Consistent(s) && InRange(c)
    requires RemoteSchedule(s, c, p, d) != NoDifficulty
    ensures var t := RemoteMove(s, c, p);
      t.remotePlayerTypeTurn == Circle && t.winResult.winner == None && !Full(t.grid)
  {
    PlaceFills(s.grid, c, p);
    FullIffNoEmpties(RemoteMove(s, c, p).grid);
  }

  /** After a restart the computer opponent is started only when Circle moves first. */
  lemma ScheduledRestartHasRoom(s: Session, coin: bool, d: AIDifficulty)
    requires RestartSchedule(s, coin, d) != NoDifficulty
    ensures var t := RestartRemote(s, coin);
      t.remotePlayerTypeTurn == Circle && t.winResult.winner == None && !Full(t.grid)
    ensures d != NoDifficulty
  {
    assert At(EmptyGrid, Coord(0, 0)) == None;
  }

  /** The computer opponent's own move, as Circle, never starts another one. */
  lemma CircleMoveNeverSchedules(s: Session, c: Coord, d: AIDifficulty)
    requires InRange(c)
    ensures RemoteSchedule(s, c, Circle, d) == NoDifficulty
  {
  }

  // ---------------------------------------------------------------- the class

  /** The `GameManager` component, with the state its move and restart paths update. */
  class GameManager {
    var playerTypeArray: array2<PlayerType>
    var playsCount: int
    var playerTypeTurn: PlayerType
    var remotePlayerTypeTurn: PlayerType
    var crossScore: int
    var circleScore: int
    var remoteCrossScore: int
    var remoteCircleScore: int
    var winResult: WinResult
    var aiDifficulty: AIDifficulty
    /** `GameStateManager.Instance`, which the getters consult. */
    var gameStateManager: GameStateManager

    /** The current state as a value. */
    function State(): Session
      reads this, playerTypeArray
      requires playerTypeArray.Length0 == 3 && playerTypeArray.Length1 == 3
    {
      Session(Snapshot(playerTypeArray), playsCount, playerTypeTurn, remotePlayerTypeTurn,
              crossScore, circleScore, remoteCrossScore, remoteCircleScore, winResult)
    }

    /** The board is 3x3. */
    ghost predicate Valid()
      reads this
    {
      playerTypeArray.Length0 == 3 && playerTypeArray.Length1 == 3
    }

    /** `Awake` and the field initialisers: an empty board and no turn, score or winner yet. */
    constructor (states: GameStateManager)
      ensures Valid() && fresh(playerTypeArray)
      ensures State() == InitialSession
      ensures aiDifficulty == NoDifficulty && gameStateManager == states
    {
      var board := NewBoard();
      playerTypeArray := board;
      playsCount := 0;
      playerTypeTurn := None;
      remotePlayerTypeTurn := None;
      crossScore := 0;
      circleScore := 0;
      remoteCrossScore := 0;
      remoteCircleScore := 0;
      winResult := NoResult;
      aiDifficulty := NoDifficulty;
      gameStateManager := states;
      new;
    }

    /** The networked move, as the server runs it. */
    method ClickedOnGridBoxRpc(gridCoordinate: Coord, playerType: PlayerType)
      requires Valid() && InRange(gridCoordinate)
      modifies this, playerTypeArray
      ensures Valid() && playerTypeArray == old(playerTypeArray)
      ensures State() == RpcMove(old(State()), gridCoordinate, playerType)
      ensures aiDifficulty == old(aiDifficulty) && gameStateManager == old(gameStateManager)
    {
      ghost var s := State();
      var x, y := gridCoordinate.x, gridCoordinate.y;
      if playerTypeTurn != playerType {
        return;
      }
      SnapshotCell(playerTypeArray, x, y);
      if playerTypeArray[x, y] != None {
        return;
      }
      PlaceMark(gridCoordinate, playerType);
      if playerType != Cross && playerType != Circle {
        return;
      }
      RecordRpcOutcome(playerType);
    }

    /** Both move paths write the mark into the array and count the play. */
    method PlaceMark(c: Coord, p: PlayerType)
      requires Valid() && InRange(c) && At(Snapshot(playerTypeArray), c) == None
      modifies this, playerTypeArray
      ensures Valid() && playerTypeArray == old(playerTypeArray)
      ensures State() == Placed(old(State()), c, p)
      ensures aiDifficulty == old(aiDifficulty) && gameStateManager == old(gameStateManager)
    {
      ghost var g := Snapshot(playerTypeArray);
      playerTypeArray[c.x, c.y] := p;
      SnapshotIs(playerTypeArray, Place(g, c, p));
      playsCount := playsCount + 1;
    }

    /** The turn switch, win check and scoring that end `ClickedOnGridBoxRpc`. */
    method RecordRpcOutcome(playerType: PlayerType)
      requires playerTypeArray.Length0 == 3 && playerTypeArray.Length1 == 3 && playerType != None
      modifies this
      ensures playerTypeArray == old(playerTypeArray) && State() == RpcOutcome(old(State()), playerType)
      ensures aiDifficulty == old(aiDifficulty) && gameStateManager == old(gameStateManager)
    {
      if playerType == Cross {
        playerTypeTurn := Circle;
      } else {
        playerTypeTurn := Cross;
      }
      winResult := CheckWin(Snapshot(playerTypeArray));
      if winResult.winner != None {
        playerTypeTurn := None;
        if winResult.winner == Cross {
          crossScore := crossScore + 1;
        } else if winResult.winner == Circle {
          circleScore := circleScore + 1;
        }
      } else if playsCount >= 9 {
        playerTypeTurn := None;
      }
    }

    /**
      The local move. Returns the difficulty whose coroutine it starts, or
      `NoDifficulty` when it starts none.
    */
    method ClickedOnGridBoxRemote(gridCoordinate: Coord, playerType: PlayerType) returns (scheduled: AIDifficulty)
      requires Valid() && InRange(gridCoordinate)
      modifies this, playerTypeArray
      ensures Valid() && playerTypeArray == old(playerTypeArray)
      ensures State() == RemoteMove(old(State()), gridCoordinate, playerType)
      ensures scheduled == RemoteSchedule(old(State()), gridCoordinate, playerType, old(aiDifficulty))
      ensures aiDifficulty == old(aiDifficulty) && gameStateManager == old(gameStateManager)
    {
      ghost var s := State();
      var x, y := gridCoordinate.x, gridCoordinate.y;
      if remotePlayerTypeTurn != playerType {
        return NoDifficulty;
      }
      SnapshotCell(playerTypeArray, x, y);
      if playerTypeArray[x, y] != None {
        return NoDifficulty;
      }
      PlaceMark(gridCoordinate, playerType);
      if playerType != Cross && playerType != Circle {
        return NoDifficulty;
      }
      RecordRemoteOutcome(playerType);
      scheduled := NoDifficulty;
      if remotePlayerTypeTurn == Circle && winResult.winner == None && playsCount < 9 {
        scheduled := aiDifficulty;
      }
    }

    /** The turn switch, win check and scoring that end `ClickedOnGridBoxRemote`. */
    method RecordRemoteOutcome(playerType: PlayerType)
      requires playerTypeArray.Length0 == 3 && playerTypeArray.Length1 == 3 && playerType != None
      modifies this
      ensures playerTypeArray == old(playerTypeArray) && State() == RemoteOutcome(old(State()), playerType)
      ensures aiDifficulty == old(aiDifficulty) && gameStateManager == old(gameStateManager)
    {
      if playerType == Cross {
        remotePlayerTypeTurn := Circle;
      } else {
        remotePlayerTypeTurn := Cross;
      }
      winResult := CheckWin(Snapshot(playerTypeArray));
      if winResult.winner != None {
        remotePlayerTypeTurn := None;
        if winResult.winner == Cross {
          remoteCrossScore := remoteCrossScore + 1;
        } else if winResult.winner == Circle {
          remoteCircleScore := remoteCircleScore + 1;
        }
      } else if playsCount >= 9 {
        playerTypeTurn := None;
      }
    }

    /** The networked restart: a fresh board; the last win result stays. */
    method RestartGameRpc(coin: bool)
      requires Valid()
      modifies this
      ensures Valid() && fresh(playerTypeArray)
      ensures State() == RestartRpc(old(State()), coin)
      ensures aiDifficulty == old(aiDifficulty) && gameStateManager == old(gameStateManager)
    {
      playerTypeArray := NewBoard();
      playsCount := 0;
      if winResult.winner == Cross {
        playerTypeTurn := Circle;
      } else if winResult.winner == Circle {
        playerTypeTurn := Cross;
      } else {
        if coin {
          playerTypeTurn := Cross;
        } else {
          playerTypeTurn := Circle;
        }
      }
    }

    /**
      The local restart: a fresh board and a cleared win result. Returns the
      difficulty whose coroutine it starts, or `NoDifficulty`.
    */
    method RestartGameRemote(coin: bool) returns (scheduled: AIDifficulty)
      requires Valid()
      modifies this
      ensures Valid() && fresh(playerTypeArray)
      ensures State() == RestartRemote(old(State()), coin)
      ensures scheduled == RestartSchedule(old(State()), coin, old(aiDifficulty))
      ensures aiDifficulty == old(aiDifficulty) && gameStateManager == old(gameStateManager)
    {
      playerTypeArray := NewBoard();
      playsCount := 0;
      if winResult.winner == Cross {
        remotePlayerTypeTurn := Circle;
      } else if winResult.winner == Circle {
        remotePlayerTypeTurn := Cross;
      } else {
        if coin {
          remotePlayerTypeTurn := Cross;
        } else {
          remotePlayerTypeTurn := Circle;
        }
      }
      winResult := NoResult;
      scheduled := NoDifficulty;
      if remotePlayerTypeTurn == Circle {
        scheduled := aiDifficulty;
      }
    }

    /** The turn on display: the networked one online, the local one otherwise. */
    function GetPlayerTypeTurn(): PlayerType
      reads this, gameStateManager
    {
      if gameStateManager.IsOnline() then playerTypeTurn else remotePlayerTypeTurn
    }

    function GetCrossScore(): int
      reads this, gameStateManager
    {
      if gameStateManager.IsOnline() then crossScore else remoteCrossScore
    }

    function GetCircleScore(): int
      reads this, gameStateManager
    {
      if gameStateManager.IsOnline() then circleScore else remoteCircleScore
    }

    method SetAIDifficulty(difficulty: AIDifficulty)
      requires Valid()
      modifies this
      ensures aiDifficulty == difficulty
      ensures Valid() && playerTypeArray == old(playerTypeArray) && State() == old(State())
      ensures gameStateManager == old(gameStateManager)
    {
      aiDifficulty := difficulty;
    }

    /**
      The easy opponent, after its delay: Circle plays a random empty cell,
      and nothing happens on a full board. `choice` is the cell it picks.
    */
    method AiPlayMoveEasy(draw: int) returns (choice: Coord, scheduled: AIDifficulty)
      requires Valid()
      modifies this, playerTypeArray
      ensures Valid() && playerTypeArray == old(playerTypeArray)
      ensures choice == SearchBlockWinAI.RandomMove(old(Snapshot(playerTypeArray)), draw)
      ensures Full(old(Snapshot(playerTypeArray))) ==> State() == old(State())
      ensures !Full(old(Snapshot(playerTypeArray))) ==>
        InRange(choice) && old(Snapshot(playerTypeArray))[choice.x][choice.y] == None
        && State() == RemoteMove(old(State()), choice, Circle)
      ensures scheduled == NoDifficulty
      ensures aiDifficulty == old(aiDifficulty) && gameStateManager == old(gameStateManager)
    {
      ghost var g := Snapshot(playerTypeArray);
      SearchBlockWinAI.RandomMoveLegal(g, draw);
      var empty := CollectEmpty(playerTypeArray);
      EmptyCellsIffNotFull(g);
      choice := NoMove;
      scheduled := NoDifficulty;
      if |empty| > 0 {
        choice := empty[draw % |empty|];
        scheduled := ClickedOnGridBoxRemote(choice, Circle);
        CircleMoveNeverSchedules(old(State()), choice, old(aiDifficulty));
      }
    }

    /**
      The medium opponent, after its delay, on a board with an empty cell:
      Circle plays the cell `GetMove` picks.
    */
    method AiPlayMoveMedium(roll: int, draw: int) returns (choice: Coord, scheduled: AIDifficulty)
      requires Valid() && !Full(Snapshot(playerTypeArray))
      modifies this, playerTypeArray
      ensures Valid() && playerTypeArray == old(playerTypeArray)
      ensures choice == SearchBlockWinAI.MediumMove(old(Snapshot(playerTypeArray)), Circle, roll, draw)
      ensures InRange(choice) && old(Snapshot(playerTypeArray))[choice.x][choice.y] == None
      ensures State() == RemoteMove(old(State()), choice, Circle)
      ensures scheduled == NoDifficulty
      ensures aiDifficulty == old(aiDifficulty) && gameStateManager == old(gameStateManager)
    {
      ghost var g := Snapshot(playerTypeArray);
      choice := SearchBlockWinAI.GetMove(playerTypeArray, Circle, roll, draw);
      SearchBlockWinAI.MediumMoveLegal(g, Circle, roll, draw);
      scheduled := ClickedOnGridBoxRemote(choice, Circle);
      CircleMoveNeverSchedules(old(State()), choice, old(aiDifficulty));
    }

    /**
      The hard opponent, after its delay, on a board with an empty cell:
      Circle plays the cell `GetBestMove` picks.
    */
    method AiPlayMoveHard() returns (choice: Coord, scheduled: AIDifficulty)
      requires Valid() && !Full(Snapshot(playerTypeArray))
      modifies this, playerTypeArray
      ensures Valid() && playerTypeArray == old(playerTypeArray)
      ensures choice == MinMaxAI.BestMove(old(Snapshot(playerTypeArray)), Circle)
      ensures InRange(choice) && old(Snapshot(playerTypeArray))[choice.x][choice.y] == None
      ensures State() == RemoteMove(old(State()), choice, Circle)
      ensures scheduled == NoDifficulty
      ensures aiDifficulty == old(aiDifficulty) && gameStateManager == old(gameStateManager)
    {
      ghost var g := Snapshot(playerTypeArray);
      choice := MinMaxAI.GetBestMove(playerTypeArray, Circle);
      MinMaxAI.BestMoveCorrect(g, Circle);
      scheduled := ClickedOnGridBoxRemote(choice, Circle);
      CircleMoveNeverSchedules(old(State()), choice, old(aiDifficulty));
    }
  }

  /**
    The getters show the networked turn and scores online, and the local
    ones at the menu and against the computer.
  */
  lemma GettersFollowMode(m: GameManager)
    ensures m.gameStateManager.CurrentState == Online ==>
      m.GetPlayerTypeTurn() == m.playerTypeTurn && m.GetCrossScore() == m.crossScore && m.GetCircleScore() == m.circleScore
    ensures m.gameStateManager.CurrentState != Online ==>
      && m.GetPlayerTypeTurn() == m.remotePlayerTypeTurn
      && m.GetCrossScore() == m.remoteCrossScore && m.GetCircleScore() == m.remoteCircleScore
  {
  }
}
