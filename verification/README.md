# Tic-tac-toe with time travel: a Dafny model of the game logic

This project models the game logic of a React tic-tac-toe game, without its JSX.
The logic lives in one file, `src/App.js`. The model covers four parts:

- **Win detection** (`calculateWinner`). The eight lines are checked in a fixed order: rows, then
  columns, then diagonals. The first complete line gives the winner and the squares to highlight.
- **The history/cursor state machine** of the `Game` component. The state is `history` (the board
  snapshots), `currentMove` (the cursor) and `sortOrder`. The handlers are:
  - a click on a square (`Board.handleClick` followed by `Game.handlePlay`);
  - `jumpTo`;
  - `resetGame`;
  - the sort button.

  The cursor's parity decides whose turn it is. A click after a jump back discards the later
  snapshots.
- **Move annotation** (`calculateMove`). It finds the square that changed between two consecutive
  snapshots and names it with a row letter `A`–`C` and a column digit `1`–`3`.
- **Derived views.** These are the status line, the move-list labels, and the order in which the
  sort flag shows them.

Each handler is one pure transition from state to state. A board is a `seq<Cell>` of length 9, and
`Empty` stands for JavaScript's `null`. `Option` stands for `null`/`undefined` results.

Modules:

- `Squares` (`squares.dfy`): cells, boards, and counting marked squares.
- `Winner` (`winner.dfy`): the line table, `calculateWinner`, and the highlighted squares.
- `BoardView` (`boardview.dfy`): `handleClick` and the status line.
- `MoveAnnotation` (`annotate.dfy`): `calculateMove`.
- `Game` (`game.dfy`): the state machine and its invariant `WellFormed`. The invariant says:
  - the cursor is in range;
  - the first snapshot is empty;
  - each later snapshot is the one before it, with one empty square marked by the player whose turn
    it was, on a board that had no winner.
- `MoveList` (`movelist.dfy`): the move labels and the sort order.
- `Scenarios` (`scenarios.dfy`): whole games, click by click.

The model follows the code's exact behaviour in these details:

- The status for a game in progress is `"Nextplayer: X"` or `"Nextplayer: O"`, with no space in
  "Nextplayer".
- A move label reads `Move # 3 : X [row:B | col:1]`, spaced exactly as the code builds it.
- Clicking squares 0 to 8 in order does not fill the board and end in a draw. X completes the
  anti-diagonal 2-4-6 with the seventh click, so the clicks on 7 and 8 are ignored
  (`Scenarios.SequentialClicksEndEarly`). A real draw is `Scenarios.DrawnGame`.
- When `sortOrder` is `true` (the button caption says "Descending"), the list is in the order it was
  built: move 0 first. When the flag is `false`, the list is reversed.

## Model

| member | source | states |
|---|---|---|
| Winner.WinnerFrom | src/App.js:232-239 | The scan from line `i` on returns nothing exactly when no later line is complete. Otherwise it returns the mark and line of the earliest complete line at or after `i`. |
| Winner.CalculateWinner | src/App.js:221-240 | No winner exactly when no line is complete. A reported winner is a mark other than `Empty` that fills all three squares of its line, and that line is the first complete one in the fixed order. |
| Winner.CalculateWinnerFirst | src/App.js:232-237 | Line `j` is the first complete line exactly when the result is that line with the mark on its squares (both directions). |
| Winner.DetectsEachLine | src/App.js:222-237 | For each of the 8 lines and each mark, a board with only that line filled is detected with exactly that line and mark. |
| Winner.WinningSquares | src/App.js:49 | The highlighted squares are empty exactly when there is no winner. Otherwise they are the three squares of the first complete line, and each holds the winning mark. |
| BoardView.HandleClick | src/App.js:17-24 | The click returns early exactly when the square is taken or the board has a complete line. Otherwise the new board has the mover's mark at `i` and agrees with the old board everywhere else. |
| BoardView.Status | src/App.js:27-39 | With a complete line, the status is "Winner: " followed by the mark of the first complete line. Without one, a full board gives "Game is a draw". Any other board gives "Nextplayer: " followed by X when X is next and O otherwise. |
| Game.XIsNext | src/App.js:85 | The flag handed to the board is true exactly when the mark for the displayed snapshot's move is X, and false exactly when it is O. |
| Game.MoverAt | src/App.js:23 | The move made from snapshot `m` places a mark, never `Empty`, and that mark is X exactly when `m` is even. |
| Game.HandlePlay | src/App.js:100-104 | Snapshots `0..currentMove` are kept and the new board becomes the last snapshot. The cursor moves to it, one past the old cursor, and the history is one longer than the new cursor. |
| Game.Play | src/App.js:17-25 | A click on a taken square or on a won board leaves the whole state unchanged. Otherwise the history up to the old cursor is kept, and the cursor becomes old cursor + 1 = last index. The new board has the parity mover's mark at `i` and is otherwise equal to the old one. |
| Game.JumpTo | src/App.js:106-108 | The cursor becomes `nextMove` and nothing else changes. The displayed board is `history[nextMove]`, and the well-formed invariant is kept. |
| Game.ResetGame | src/App.js:88-92 | From any state, the result has one all-empty snapshot, cursor 0 and the sort flag set. It is well formed. |
| Game.ToggleSort | src/App.js:208 | The sort flag flips. History and cursor are unchanged, and the invariant is kept. |
| Game.GameStatus | src/App.js:27-39 | The status of the displayed board: with a complete line, "Winner: " and the mark of the first complete line; without one, "Game is a draw" on a full board; otherwise "Nextplayer: " and X when the cursor is even, O when it is odd. |
| Game.PlayPreservesWellFormed | src/App.js:100-104 | From a well-formed state every click gives a well-formed state: the cursor stays in range, snapshot 0 stays empty, and each snapshot is one legal move from the one before. After a successful click the history ends one past the old cursor, the displayed board sits just below the new last snapshot, and the new snapshot is one legal move from it. |
| Game.PlayTwiceSameSquare | src/App.js:18-20 | Clicking the same square twice changes nothing the second time. |
| Game.JumpToRoundTrip | src/App.js:86 | After `jumpTo(m)` the displayed board is `history[m]`, and jumping back to the old cursor restores the state. |
| Game.FilledCountsMoves | src/App.js:22-23 | In a well-formed game, snapshot `m` has exactly `m` marked squares. |
| Game.HistoryAtMostTen | src/App.js:101 | A well-formed history never holds more than ten snapshots. |
| Game.WinnerIsLastMover | src/App.js:18-23 | In a well-formed game, the winner of snapshot `m` is the player who made move `m`. |
| Game.GameStatusMatchesTurn | src/App.js:85 | On a reachable board, a "Winner" status names the player who made the last move. A game in progress names the player whose turn the cursor's parity gives. |
| MoveAnnotation.LastDifference | src/App.js:113-122 | If no square from `i` on differs, the scan keeps what it had. Otherwise it returns a differing square after which no square differs: the last one. |
| MoveAnnotation.RowLabel | src/App.js:128-137 | The three range tests give the letter `"ABC"[x / 3]`. |
| MoveAnnotation.ColLabel | src/App.js:138-146 | The three membership tests give the digit `"123"[x % 3]`. |
| MoveAnnotation.CalculateMove | src/App.js:110-150 | Move 0 is unannotated. A later move is unannotated exactly when its snapshot equals the one before. |
| MoveAnnotation.CalculateMoveSingleChange | src/App.js:113-148 | When consecutive snapshots differ in exactly one square `k`, the annotation is row `"ABC"[k/3]` and column `"123"[k%3]`. |
| MoveList.PlayerOfMove | src/App.js:158 | Entry 0 names O. Entry `m > 0` names the mark of the player who moved from snapshot `m - 1`, so the list's parity rule agrees with the cursor's. |
| MoveList.MoveLabel | src/App.js:155-174 | Entry 0 reads "Go to game start". A later entry fails, as the code's read of an undefined annotation would, exactly when its snapshot equals the one before. |
| MoveList.MoveOrder | src/App.js:181-187 | The order has `n` positions and contains every move `0..n-1`, so it is a permutation. It is the identity `k` when the flag is set, and the reversal `n-1-k` when it is clear. |
| MoveList.Moves | src/App.js:153-188 | Entry `k` points at snapshot `k` when the flag is set and at snapshot `n-1-k` when it is clear, and it carries that snapshot's label. |
| MoveList.ToggleReversesMoves | src/App.js:181-187 | The sort button shows the same entries in reverse order. |
| MoveList.LabelsNameTheMove | src/App.js:157-171 | In a well-formed game, every label of move `m > 0` is defined. It names the mark that move placed (O for even, X for odd moves, as the cursor parity decided), and that square's row and column. |
| Scenarios.OpeningMove | src/App.js:22-34 | After the first click on square 0, the board is X then eight empty squares, and the status is "Nextplayer: O". |
| Scenarios.ColumnWin | src/App.js:27-32 | Clicks 0, 4, 3, 1, 6 give winner X on line 0-3-6, and the status is "Winner: X". |
| Scenarios.SequentialClicksEndEarly | src/App.js:18-20 | Clicks 0 to 8 in order leave eight snapshots: the last two clicks are ignored after X wins on 2-4-6. |
| Scenarios.DrawnGame | src/App.js:36-39 | Clicks 0, 1, 2, 4, 3, 5, 7, 6, 8 fill the board with no winner, and the status is "Game is a draw". |
| Scenarios.BranchDiscard | src/App.js:101 | Three clicks, then `jumpTo(1)`, then a click on square 5: the history is three long, and the last snapshot holds O at 5 on the board of move 1. |

## Left out

- Rendering is not modelled: the `Square` and `BoardRow` components, the JSX trees, CSS class names
  and the `onClick` wiring. They only present the state modelled here.
- `useState` batching and re-render scheduling are not modelled. Each handler is one atomic
  transition.
- The "you are at move #…" span and the sort button's caption are cosmetic text with no logic.
- `Game.JumpTo` requires `nextMove < |history|`. The code does not check this, but its only caller is
  a move-list button, and those exist only for indices of the history.
- Clicks are on squares `0..8` (the `Index` type), because the board renders only those nine
  squares.
- Move numbers are turned into decimal text by `MoveList.NatToString`, which stands in for
  JavaScript's number-to-string conversion.
