# Tic-tac-toe game core in Dafny

This project models the game logic of a Unity tic-tac-toe game (C#) and proves properties of it. Players can meet over the network or play against a computer opponent at one of three levels.

The model covers:

- **`GameManager`**: the 3x3 board, the number of plays, and two turn-and-score pairs: the networked pair used online and the local pair used against the computer. It also covers the move and restart operations of both paths, the win check, and the three computer opponents.
- **`SearchBlockWinAI`**: the medium opponent. It wins if it can, otherwise blocks, otherwise takes the centre, then a corner, then the first free cell. One time in five it plays a random empty cell instead.
- **`MinMaxAI`**: the hard opponent. This is an exhaustive minimax search that marks and unmarks cells of the board array in place.
- **`GameStateManager`**: the mode selector (menu, against the computer, online).

Files:

- `board.dfy` (module `Board`) holds everything the other files share:
  - `PlayerType` and the coordinates;
  - `Grid`, the value of a board (`g[x][y]` is cell `[x, y]`), and `Snapshot`, which reads a `PlayerType[3, 3]` array into a `Grid`;
  - the eight lines and the first-complete-line scan;
  - the column-major list of empty cells and the loop that collects it.
- `game_state_manager.dfy` (module `GameStates`) holds the class `GameStateManager`.
- `min_max_ai.dfy` (module `MinMaxAI`) holds:
  - the specification functions `Winner`, `Score` (the minimax value) and `BestMove`;
  - the in-place methods `CheckWinner`, `IsBoardFull`, `Minimax` and `GetBestMove`. Each is proved to return its specification function's value and to leave the array as it found it.
- `search_block_win_ai.dfy` (module `SearchBlockWinAI`) holds:
  - the specification functions `WinningMove`, `RandomMove` and `MediumMove`;
  - the methods `FindWinningMove`, `GetRandomMove` and `GetMove` over the array.
- `game_manager.dfy` (module `Game`) holds:
  - `CheckWin`;
  - the value `Session`, which has one field for each field that the move and restart paths change;
  - pure transitions (`RpcMove`, `RemoteMove`, `RestartRpc`, `RestartRemote`) and the coroutine each local path starts (`RemoteSchedule`, `RestartSchedule`);
  - lemmas about these transitions;
  - the class `GameManager`. Each of its methods ensures `State() == Transition(old(State()), …)`.

Randomness is passed in as parameters:

- `roll` is `Random.Range(0, 5)` in `GetMove`;
- `draw` is the index drawn by `Random.Range(0, count)`, taken modulo the count;
- `coin` is `Random.value > 0.5f` in the restarts.

The model keeps three behaviours of the code as written:

- After a local draw, `ClickedOnGridBoxRemote` clears the networked turn, not the local one, so the local turn stays passed to the other player.
- `RestartGameRpc` does not reset the last win result, so a networked game restarted twice after a win gives the first move to the same player both times. `RestartGameRemote` does reset it.
- `CheckWin` labels the lines of fixed `x` `Vertical` and the lines of fixed `y` `Horizontal`.

A move by `PlayerType.None` takes one more path. It can reach the code when the turn is `None` (after a game ends) and the cell is empty. It writes `None`, counts a play and only then returns, in the switch's default case. The model keeps this path too: `NoneMoveMiscounts` shows that it breaks the invariant "`playsCount` counts the marks", which every move by Cross or Circle keeps.

The `None` members of the `LineType` and `AIDifficulty` enums are named `NoLine` and `NoDifficulty` here. They would otherwise clash with `PlayerType.None`.

## Model

| member | source | states |
|---|---|---|
| Board.Opponent | Assets/Scripts/MinMaxAI.cs:41 | the other player is a real player and differs from the given one (`None` maps to Cross) |
| Board.Place | Assets/Scripts/GameManager.cs:158 | after writing `p` into cell `c`, that cell holds `p` |
| Board.PlaceKeepsOthers | Assets/Scripts/GameManager.cs:158 | writing a cell leaves every other cell unchanged |
| Board.PlaceUndo | Assets/Scripts/MinMaxAI.cs:18-20 | writing `None` back into a cell that was empty restores the board exactly |
| Board.EmptyGridIsEmpty | Assets/Scripts/GameManager.cs:60 | every cell of a new board is `None` |
| Board.NewBoard | Assets/Scripts/GameManager.cs:60 | a new `PlayerType[3, 3]` is a fresh 3x3 array whose value is the empty board |
| Board.PlaceFills | Assets/Scripts/GameManager.cs:158-159 | a mark on an empty cell raises the number of marks by exactly one, as `playsCount++` does |
| Board.EmptyGridCount | Assets/Scripts/GameManager.cs:60-61 | the new board has no marks, matching `playsCount = 0` |
| Board.FullIffNoEmpties | Assets/Scripts/MinMaxAI.cs:66-73 | a board is full exactly when it has no empty cell, and so exactly when it holds nine marks |
| Board.FirstCompleteFromSpec | Assets/Scripts/GameManager.cs:410-465 | the early-return line scan stops at a complete line, and no line it passed is complete |
| Board.EmptyCellsFromSorted | Assets/Scripts/GameManager.cs:473-480 | the collected cells come in strictly increasing column-major order |
| Board.EmptyCellsExact | Assets/Scripts/GameManager.cs:473-480 | a cell is in the collected list exactly when it is in range and empty; the list is in column-major order without repeats |
| Board.EmptyCellsIffNotFull | Assets/Scripts/SearchBlockWinAI.cs:119-120 | the list of empty cells is empty exactly when the board is full |
| Board.CollectEmpty | Assets/Scripts/GameManager.cs:473-480 | the nested loop over the array returns exactly the list of empty cells of its value |
| GameStates.GameStateManager.constructor | Assets/Scripts/GameStateManager.cs:14 | a new manager is at the start menu |
| GameStates.GameStateManager.SetState | Assets/Scripts/GameStateManager.cs:27-31 | the mode becomes the given one |
| GameStates.GameStateManager.IsOnline | Assets/Scripts/GameStateManager.cs:33-36 | the mode is online; `ModesExclusive` states it |
| GameStates.GameStateManager.IsAI | Assets/Scripts/GameStateManager.cs:38-41 | the mode is against the computer; `ModesExclusive` states it |
| GameStates.ModesExclusive | Assets/Scripts/GameStateManager.cs:33-41 | online and against-the-computer are never both reported; at the menu neither is |
| MinMaxAI.Winner | Assets/Scripts/MinMaxAI.cs:75-107 | the winner check's value: the mark on the first complete line in the order rows of fixed `y`, columns of fixed `x`, the two diagonals, or `None`; `WinnerSpec` states its meaning |
| MinMaxAI.Score | Assets/Scripts/MinMaxAI.cs:34-64 | the minimax value: `10 - depth` for an AI win, `depth - 10` for an opponent win, `0` on a full board, else the maximum (minimum) child score; `ScoreBounds` and `ScoreIsExtremeChild` state its meaning |
| MinMaxAI.BestMove | Assets/Scripts/MinMaxAI.cs:5-32 | the move the root scan keeps; `BestMoveCorrect` states its meaning |
| MinMaxAI.WinnerSpec | Assets/Scripts/MinMaxAI.cs:75-107 | the winner check reports `None` exactly when no line is complete; otherwise the reported player owns a complete line |
| MinMaxAI.WinnerOrderCoversAllLines | Assets/Scripts/MinMaxAI.cs:75-107 | the check's rows, columns and two diagonals are the board's eight lines |
| MinMaxAI.CheckWinner | Assets/Scripts/MinMaxAI.cs:75-107 | the array scan returns the winner of the board's value |
| MinMaxAI.IsBoardFull | Assets/Scripts/MinMaxAI.cs:66-73 | the array scan returns true exactly when no cell is `None` |
| MinMaxAI.ScoreBounds | Assets/Scripts/MinMaxAI.cs:34-64 | when depth plus empty cells is at most nine, the minimax value lies in [-10, 10] |
| MinMaxAI.FoldBounds | Assets/Scripts/MinMaxAI.cs:43-61 | with child scores in [-10, 10], the loop's result is in [-10, 10] whenever its start is, or an empty cell remains to replace the int.MinValue or int.MaxValue start |
| MinMaxAI.FoldExtremum | Assets/Scripts/MinMaxAI.cs:43-61 | the loop's running best is at least (at most, when minimizing) every empty child's score, and at least (at most) its start |
| MinMaxAI.ScoreIsExtremeChild | Assets/Scripts/MinMaxAI.cs:34-64 | in an undecided, non-full position the value is the largest (smallest) child score, and some empty cell attains it |
| MinMaxAI.Minimax | Assets/Scripts/MinMaxAI.cs:34-64 | the in-place search returns the minimax value of the board it was given and leaves the array as it found it |
| MinMaxAI.ScoreMoves | Assets/Scripts/MinMaxAI.cs:41-63 | the loop over empty cells returns the maximum (minimum) child score and restores every simulated cell |
| MinMaxAI.ScoreCell | Assets/Scripts/MinMaxAI.cs:49-59 | one pass of the inner loop is one step of the fold over the child scores, and the cell it simulates is restored |
| MinMaxAI.SimulateMove | Assets/Scripts/MinMaxAI.cs:51-53 | marking a cell, recursing and unmarking it returns the child's value and restores the board |
| MinMaxAI.RootScoreBounds | Assets/Scripts/MinMaxAI.cs:18-19 | each root candidate's score lies in [-10, 10], so it beats the int.MinValue start |
| MinMaxAI.BestMoveFromCorrect | Assets/Scripts/MinMaxAI.cs:11-29 | the scan keeps the first cell with the strictly best score seen so far |
| MinMaxAI.BestMoveCorrect | Assets/Scripts/MinMaxAI.cs:5-32 | the result is (-1, -1) exactly when the board is full; otherwise it is an empty cell whose score is at least every empty cell's score and strictly above every earlier empty cell's score |
| MinMaxAI.GetBestMove | Assets/Scripts/MinMaxAI.cs:5-32 | the in-place method returns the best move of its board and leaves the array unchanged |
| SearchBlockWinAI.WinningMove | Assets/Scripts/SearchBlockWinAI.cs:52-105 | the scan's value: the threat cell of the first scanned line with two of `type`'s marks and one empty cell, or no move; `WinningMoveCorrect` and `WinningMoveWins` state its meaning |
| SearchBlockWinAI.RandomMove | Assets/Scripts/SearchBlockWinAI.cs:107-123 | the empty cell at position `draw` modulo their number in the column-major list, or (-1, -1); `RandomMoveLegal` and `RandomMoveCovers` state its meaning |
| SearchBlockWinAI.HeuristicMove | Assets/Scripts/SearchBlockWinAI.cs:14-49 | the non-random choice: win, else block, else centre, else first free corner, else first empty cell; `MediumTakesWin`, `MediumBlocks` and `MediumPreference` state its meaning |
| SearchBlockWinAI.MediumMove | Assets/Scripts/SearchBlockWinAI.cs:6-50 | the random pick when `roll` is 0, the non-random choice otherwise; `MediumMoveLegal` states its meaning |
| SearchBlockWinAI.HitIffThreat | Assets/Scripts/SearchBlockWinAI.cs:57-64 | a line scores `count == 2` with an empty cell exactly when its one empty cell lies beside two of `type`'s marks, and the cell returned is that empty cell |
| SearchBlockWinAI.ThreatCompletes | Assets/Scripts/SearchBlockWinAI.cs:63-64 | the returned cell is empty and marking it completes the line for `type` |
| SearchBlockWinAI.ScanLineWins | Assets/Scripts/SearchBlockWinAI.cs:54-102 | a complete line among the scanned rows, columns and diagonals is a winning line of the board |
| SearchBlockWinAI.WinningMoveFromNothing | Assets/Scripts/SearchBlockWinAI.cs:52-105 | the scan returns null exactly when no remaining line has a threat |
| SearchBlockWinAI.WinningMoveFromFirst | Assets/Scripts/SearchBlockWinAI.cs:52-105 | a found cell belongs to the first line of the scan that has a threat |
| SearchBlockWinAI.WinningMoveCorrect | Assets/Scripts/SearchBlockWinAI.cs:52-105 | no move exactly when no line has a threat; otherwise the move is the threat cell of the first such line |
| SearchBlockWinAI.WinningMoveWins | Assets/Scripts/SearchBlockWinAI.cs:16-19 | a found move is an empty cell, and playing it gives `type` a complete line |
| SearchBlockWinAI.TallyLine | Assets/Scripts/SearchBlockWinAI.cs:57-62 | the inner loop's count and last empty position are those of the line's three cells |
| SearchBlockWinAI.FindWinningMove | Assets/Scripts/SearchBlockWinAI.cs:52-105 | the four array loops return the specified winning move of the board's value |
| SearchBlockWinAI.RandomMoveLegal | Assets/Scripts/SearchBlockWinAI.cs:107-123 | a random pick is an empty cell when there is one, and (-1, -1) on a full board |
| SearchBlockWinAI.RandomMoveCovers | Assets/Scripts/SearchBlockWinAI.cs:122 | every empty cell is the pick for some draw |
| SearchBlockWinAI.GetRandomMove | Assets/Scripts/SearchBlockWinAI.cs:107-123 | the method returns the specified random pick for the draw |
| SearchBlockWinAI.FirstFreeCornerFromSpec | Assets/Scripts/SearchBlockWinAI.cs:30-37 | the corner loop returns the first free corner in the order (0,0), (2,0), (0,2), (2,2) |
| SearchBlockWinAI.MediumMoveLegal | Assets/Scripts/SearchBlockWinAI.cs:6-50 | on every branch the move is an empty cell unless the board is full, and then it is (-1, -1) |
| SearchBlockWinAI.MediumTakesWin | Assets/Scripts/SearchBlockWinAI.cs:16-19 | off the random branch, when it can win in one move, it plays an empty cell that completes a line of its own |
| SearchBlockWinAI.MediumBlocks | Assets/Scripts/SearchBlockWinAI.cs:21-24 | with no win of its own, it plays on a line the other player threatens to complete |
| SearchBlockWinAI.MediumPreference | Assets/Scripts/SearchBlockWinAI.cs:26-47 | with no win and no block: the centre if free, else the first free corner, else the first empty cell in column-major order |
| SearchBlockWinAI.GetMove | Assets/Scripts/SearchBlockWinAI.cs:6-50 | the method returns the specified medium move for the roll and draw |
| SearchBlockWinAI.FirstAvailable | Assets/Scripts/SearchBlockWinAI.cs:39-49 | the side loop returns the first empty cell in column-major order, or (-1, -1) |
| Game.CheckWin | Assets/Scripts/GameManager.cs:410-465 | the win check's value: the first complete line of the scan with its mark, middle cell and label, or the empty result; `CheckWinSpec` states its meaning |
| Game.RpcOutcome | Assets/Scripts/GameManager.cs:167-206 | after the mark and count: record the win check, pass the turn or clear it on a win or nine plays, score the winner |
| Game.RpcMove | Assets/Scripts/GameManager.cs:141-207 | the networked move: unchanged off turn or on a taken cell, only the write and count for a `None` mover, else mark, count and outcome; `RpcMoveRejected` and `RpcMoveAccepted` state its meaning |
| Game.RemoteOutcome | Assets/Scripts/GameManager.cs:235-277 | the local outcome: on a draw the networked turn is cleared and the local one still passes |
| Game.RemoteMove | Assets/Scripts/GameManager.cs:209-277 | the local move, shaped as the networked one; `RemoteMoveRejected` and `RemoteMoveAccepted` state its meaning |
| Game.RemoteSchedule | Assets/Scripts/GameManager.cs:279-288 | the coroutine started after an accepted local move that leaves Circle to play in an undecided game with fewer than nine plays; `ScheduledMoveHasRoom` states its meaning |
| Game.RestartRpc | Assets/Scripts/GameManager.cs:291-317 | the networked restart: empty board, zero plays, the loser or the coin's player to move, win result kept |
| Game.RestartRemote | Assets/Scripts/GameManager.cs:319-342 | the local restart: the same on the local turn, with the win result cleared |
| Game.RestartSchedule | Assets/Scripts/GameManager.cs:348-357 | the coroutine started after a local restart when Circle moves first; `ScheduledRestartHasRoom` states its meaning |
| Game.CheckWinSpec | Assets/Scripts/GameManager.cs:410-465 | no winner exactly when no line is complete (and then the empty result); otherwise the first complete line of the scan, with its mark, middle cell and label |
| Game.FixedXIsVertical | Assets/Scripts/GameManager.cs:415-425 | the first complete line of fixed `x` is reported as `Vertical` around (x, 1) |
| Game.RpcMoveRejected | Assets/Scripts/GameManager.cs:145-155 | a networked move changes nothing exactly when it is not the mover's turn or the cell is taken |
| Game.RemoteMoveRejected | Assets/Scripts/GameManager.cs:213-222 | a local move changes nothing exactly when it is not the mover's turn or the cell is taken |
| Game.NoneMoveMiscounts | Assets/Scripts/GameManager.cs:151-244 | an accepted move by `None`, on either path, counts a play but changes no cell, so on a consistent session the count no longer matches the marks; on the local path it starts no coroutine, whatever the difficulty |
| Game.RpcMoveAccepted | Assets/Scripts/GameManager.cs:157-206 | an accepted networked move marks only its cell and counts one play. It records the win check and passes the turn, or clears it on a win or at nine plays. It adds one to the winner's score only and leaves the local fields alone |
| Game.RemoteMoveAccepted | Assets/Scripts/GameManager.cs:225-277 | the same for a local move; on a draw the local turn still passes and the networked turn is cleared |
| Game.WinnerIsMover | Assets/Scripts/GameManager.cs:180-186 | on a board with no complete line, a move can only be won by the player who made it |
| Game.MovesKeepConsistent | Assets/Scripts/GameManager.cs:157-159 | moves by Cross or Circle keep `playsCount` equal to the number of marks |
| Game.RestartsKeepConsistent | Assets/Scripts/GameManager.cs:294-295 | both restarts leave zero plays on an empty board |
| Game.InitialConsistent | Assets/Scripts/GameManager.cs:44-61 | the initial state has zero plays on an empty board and no winner |
| Game.DrawMeansFull | Assets/Scripts/GameManager.cs:270-276 | with a consistent count, the draw test `playsCount >= 9` after a move holds exactly when the board is full |
| Game.RestartEffects | Assets/Scripts/GameManager.cs:291-342 | both restarts empty the board and the count, never touch a score, and let the loser of a decided game, or the coin's player, move first |
| Game.RestartRepeated | Assets/Scripts/GameManager.cs:291-342 | the networked restart keeps the win result, so repeating it keeps the same first mover; the local restart clears it, so a second restart is up to the coin |
| Game.ScheduledMoveHasRoom | Assets/Scripts/GameManager.cs:280-288 | the computer opponent starts only when Circle is to play, nobody has won and the board has an empty cell |
| Game.ScheduledRestartHasRoom | Assets/Scripts/GameManager.cs:348-357 | after a restart the computer opponent starts only when Circle moves first on an empty board |
| Game.CircleMoveNeverSchedules | Assets/Scripts/GameManager.cs:280-288 | a move by Circle never starts another computer move |
| Game.GettersFollowMode | Assets/Scripts/GameManager.cs:383-403 | online, the turn and scores shown are the networked ones; in every other mode they are the local ones |
| Game.GameManager.constructor | Assets/Scripts/GameManager.cs:39-61 | a fresh empty board, zero plays, no turn, zero scores, no winner and no difficulty |
| Game.GameManager.ClickedOnGridBoxRpc | Assets/Scripts/GameManager.cs:141-207 | the new state is the networked move of the old one |
| Game.GameManager.PlaceMark | Assets/Scripts/GameManager.cs:157-159 | the array gets the mark at the coordinate, and the count goes up by one |
| Game.GameManager.RecordRpcOutcome | Assets/Scripts/GameManager.cs:167-206 | the turn switch, win check and scoring of the networked move, as `RpcOutcome` |
| Game.GameManager.ClickedOnGridBoxRemote | Assets/Scripts/GameManager.cs:209-289 | the new state is the local move of the old one, and the coroutine started is the one `RemoteSchedule` names |
| Game.GameManager.RecordRemoteOutcome | Assets/Scripts/GameManager.cs:235-277 | the turn switch, win check and scoring of the local move, as `RemoteOutcome` |
| Game.GameManager.RestartGameRpc | Assets/Scripts/GameManager.cs:291-317 | a fresh array, and the new state is the networked restart of the old one |
| Game.GameManager.RestartGameRemote | Assets/Scripts/GameManager.cs:319-358 | a fresh array, the new state is the local restart of the old one, and the coroutine started is the one `RestartSchedule` names |
| Game.GameManager.GetPlayerTypeTurn | Assets/Scripts/GameManager.cs:383-388 | the networked turn online, the local one otherwise; `GettersFollowMode` states it |
| Game.GameManager.GetCrossScore | Assets/Scripts/GameManager.cs:390-395 | the networked Cross score online, the local one otherwise; `GettersFollowMode` states it |
| Game.GameManager.GetCircleScore | Assets/Scripts/GameManager.cs:397-402 | the networked Circle score online, the local one otherwise; `GettersFollowMode` states it |
| Game.GameManager.SetAIDifficulty | Assets/Scripts/GameManager.cs:405-408 | the difficulty becomes the given one and the game state is untouched |
| Game.GameManager.AiPlayMoveEasy | Assets/Scripts/GameManager.cs:467-488 | Circle plays the random empty cell for the draw, or nothing happens on a full board; no further coroutine starts |
| Game.GameManager.AiPlayMoveMedium | Assets/Scripts/GameManager.cs:490-497 | Circle plays the legal cell `GetMove` picks; no further coroutine starts |
| Game.GameManager.AiPlayMoveHard | Assets/Scripts/GameManager.cs:499-506 | Circle plays the legal cell `GetBestMove` picks; no further coroutine starts |

## Left out

- Events and UI. The `On…` events, the `Trigger…Rpc` client notifications and `Debug.Log` are presentation only.
- Networking. `NetworkVariable`, the `[Rpc]` routing, `OnNetworkSpawn`, `NetworkManager_OnClientConnected`, `localPlayerType`/`GetLocalPlayerType`, and the lobby are out. The networked turn and scores are modelled as plain fields.
- Unity lifecycle. `Start`, `Update` and the `Instance` singletons (including `GameStateManager.Awake`) are out. The manager reaches its `GameStateManager` through a field.
- Game start. Two event handlers start a game by handing out the first turn. `AIDifficultyUI_OnDifficultySelected` (GameManager.cs:74-77) sets the local turn to Cross. `NetworkManager_OnClientConnected` (GameManager.cs:126-133) sets the networked turn to the host's player type once two clients are connected. The model has no such start transition: from `InitialSession` both turns are `None`, so the only moves that get past the turn check are moves by `None`, and no move by Cross or Circle is accepted until a restart hands out a turn.
- Coroutine delay. The one-second wait before a computer move is not modelled. A local move or restart returns the difficulty whose coroutine it would start, and the computer's move is a separate method call.
- Win position. `WinResult.Center` stays a board coordinate. Its translation to a world position on a win (`GridBoxList.GetGridWorldPosition`) is not part of this model, and neither is the `Vector2 gridPosition` argument of the move methods.
- Randomness. `Random.Range` and `Random.value` become the parameters `roll`, `draw` and `coin`, with `draw` taken modulo the number of empty cells. Their distribution, including the one-in-five random move of the medium opponent, is not modelled.
- Integer width. Scores and `playsCount` are unbounded integers; 32-bit overflow is not modelled.
- Strength. That the hard opponent never loses is not proved. The model proves the minimax value and which move is chosen, not the outcome of optimal play.
- Game.GameManager.ClickedOnGridBoxRpc: requires an in-range coordinate. In the C#, an out-of-range coordinate from a player who does not have the turn returns at the turn check (GameManager.cs:146-150) before the array is read, so nothing happens; from the player who has the turn, the array read at line 152 throws. That silent no-op is not modelled. Every caller passes an in-range cell: a grid box, a cell of the easy opponent's list of empty cells, or the medium or hard opponent's pick on a board with an empty cell.
- Game.GameManager.ClickedOnGridBoxRemote: requires an in-range coordinate, for the same reason (turn check at lines 213-217, array read at line 219).
- Game.GameManager.AiPlayMoveMedium: requires a board with an empty cell. `ScheduledMoveHasRoom` and `ScheduledRestartHasRoom` show that this holds whenever the coroutine is started. On a full board `GetMove` would return (-1, -1). `ClickedOnGridBoxRemote` would then return at the turn check unless the local turn were Circle, and only in that case would it index the array at (-1, -1) and throw.
- Game.GameManager.AiPlayMoveHard: requires a board with an empty cell, for the same reason, with `GetBestMove` in place of `GetMove`.
- MinMaxAI.GetBestMove: requires a real player as `aiPlayer`, the only way the game calls it.
- Split methods. The helpers `ScoreMoves`, `ScoreCell`, `SimulateMove`, `TallyLine`, `FirstAvailable`, `PlaceMark`, `RecordRpcOutcome` and `RecordRemoteOutcome` stand for stretches of the C# methods' bodies. They make the same array reads and writes in the same order and compute the same results. Three of them are not literal copies:
  - `TallyLine` is one loop over the three cells of a line. It stands for the four inner loops of `FindWinningMove` (SearchBlockWinAI.cs:58-62, 71-75, 83-87, 95-99) and keeps the position of the last empty cell within the line, where the diagonal loops keep a `Vector2Int`.
  - `RecordRpcOutcome` and `RecordRemoteOutcome` replace the `switch` on the mover with an `if`/`else` and require a mover other than `None`. The `default: return` for a `None` mover is taken in their callers, right after `PlaceMark`.
  - `ScoreCell` receives the mark to simulate from `ScoreMoves`, which computes it once per cell as `isMaximizing ? aiPlayer : opponent`.
