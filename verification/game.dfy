/** The `Game` component's state machine: a log of board snapshots, a cursor into
    it (`currentMove`) and the move-list sort flag. Each handler is one atomic
    transition from state to state. */
module Game {
  import opened Options
  import opened Squares
  import opened Winner
  import opened BoardView

  datatype State = State(history: seq<Board>, currentMove: nat, sortOrder: bool)

  /** The cursor points into the history. */
  predicate Valid(s: State)
  {
    s.currentMove < |s.history|
  }

  /** X moves when the cursor is even: the flag handed to the board says whether the
      mark for the displayed snapshot is X. */
  function XIsNext(s: State): (r: bool)
    ensures r <==> MoverAt(s.currentMove) == X
    ensures !r <==> MoverAt(s.currentMove) == O
  {
    s.currentMove % 2 == 0
  }

  /** The mark placed by a move made from snapshot `m`. */
  function MoverAt(m: nat): (c: Cell)
    ensures c != Empty
    ensures c == X <==> m % 2 == 0
  {
    Mover(m % 2 == 0)
  }

  /** The snapshot being displayed. */
  function CurrentSquares(s: State): Board
    requires Valid(s)
  {
    s.history[s.currentMove]
  }

  /** The state on first render: one empty board, cursor on it, sort flag set. */
  const Start: State := State([EmptyBoard], 0, true)

  /** `next` is `prev` with the empty square `j` marked `c`. */
  predicate MarksSquare(prev: Board, next: Board, j: Index, c: Cell)
  {
    prev[j] == Empty && next == prev[j := c]
  }

  /** Snapshot `m` follows from snapshot `m - 1` by one legal move: the earlier board
      had no winner, and the player whose turn it was marked one empty square. */
  predicate StepAt(h: seq<Board>, m: nat)
    requires 0 < m < |h|
  {
    var prev, next, mover := h[m - 1], h[m], MoverAt(m - 1);
    && !HasWinningLine(prev)
    && exists j: Index :: MarksSquare(prev, next, j, mover)
  }

  /** Every state the game can reach: a valid cursor, an empty first snapshot, and
      one legal move between consecutive snapshots. */
  predicate WellFormed(s: State)
  {
    && Valid(s)
    && s.history[0] == EmptyBoard
    && forall m :: 0 < m < |s.history| ==> StepAt(s.history, m)
  }

  /** `handlePlay`: drop every snapshot after the cursor, append the new board and
      move the cursor to it. */
  function HandlePlay(s: State, nextSquares: Board): (r: State)
    requires Valid(s)
    ensures Valid(r) && r.sortOrder == s.sortOrder
    ensures r.currentMove == s.currentMove + 1 == |r.history| - 1
    ensures forall k :: 0 <= k <= s.currentMove ==> r.history[k] == s.history[k]
    ensures CurrentSquares(r) == nextSquares
  {
    var nextHistory := s.history[..s.currentMove + 1] + [nextSquares];
    State(nextHistory, |nextHistory| - 1, s.sortOrder)
  }

  /** A click on square `i`: `handleClick` followed, when it does not return early,
      by `handlePlay`. */
  function Play(s: State, i: Index): (r: State)
    requires Valid(s)
    ensures Valid(r) && r.sortOrder == s.sortOrder
    ensures CurrentSquares(s)[i] != Empty || HasWinningLine(CurrentSquares(s)) ==> r == s
    ensures CurrentSquares(s)[i] == Empty && !HasWinningLine(CurrentSquares(s)) ==>
      && r.currentMove == s.currentMove + 1 == |r.history| - 1
      && r.history[..s.currentMove + 1] == s.history[..s.currentMove + 1]
      && CurrentSquares(r)[i] == MoverAt(s.currentMove)
      && SameExcept(CurrentSquares(s), CurrentSquares(r), i)
  {
    match HandleClick(CurrentSquares(s), XIsNext(s), i)
    case None => s
    case Some(nextSquares) => HandlePlay(s, nextSquares)
  }

  /** `jumpTo`: only the cursor moves. */
  function JumpTo(s: State, nextMove: nat): (r: State)
    requires nextMove < |s.history|
    ensures Valid(r) && r.currentMove == nextMove && CurrentSquares(r) == s.history[nextMove]
    ensures r.history == s.history && r.sortOrder == s.sortOrder
    ensures WellFormed(s) ==> WellFormed(r)
  {
    s.(currentMove := nextMove)
  }

  /** `resetGame`: back to the starting state, whatever came before. */
  function ResetGame(s: State): (r: State)
    ensures WellFormed(r) && |r.history| == 1 && r.currentMove == 0 && r.sortOrder
    ensures forall i: Index :: CurrentSquares(r)[i] == Empty
  {
    Start
  }

  /** The sort button: flips the flag and nothing else. */
  function ToggleSort(s: State): (r: State)
    ensures r.sortOrder == !s.sortOrder
    ensures r.history == s.history && r.currentMove == s.currentMove
    ensures WellFormed(s) ==> WellFormed(r)
  {
    s.(sortOrder := !s.sortOrder)
  }

  /** The status line of the displayed board, with the turn taken from the cursor's
      parity. */
  function GameStatus(s: State): (r: string)
    requires Valid(s)
    ensures var b := CurrentSquares(s);
      HasWinningLine(b) ==>
        exists j :: FirstWinningLine(b, j) && r == "Winner: " + Symbol(b[Lines[j].a])
    ensures var b := CurrentSquares(s);
      !HasWinningLine(b) && IsFull(b) ==> r == "Game is a draw"
    ensures var b := CurrentSquares(s);
      !HasWinningLine(b) && !IsFull(b) ==>
        r == "Nextplayer: " + (if s.currentMove % 2 == 0 then "X" else "O")
  {
    Status(CurrentSquares(s), XIsNext(s))
  }

  /** Playing keeps the game well formed; a successful play keeps the displayed board
      just below the new last snapshot and records exactly one legal move from it. */
  lemma {:induction false} PlayPreservesWellFormed(s: State, i: Index)
    requires WellFormed(s)
    ensures WellFormed(Play(s, i))
    ensures Play(s, i) != s ==>
      && |Play(s, i).history| == s.currentMove + 2
      && Play(s, i).history[s.currentMove] == CurrentSquares(s)
      && StepAt(Play(s, i).history, s.currentMove + 1)
  {
    var r := Play(s, i);
    var c := s.currentMove;
    if r != s {
      var cur := CurrentSquares(s);
      assert cur[i] == Empty && !HasWinningLine(cur);
      assert r.history[c + 1] == cur[i := MoverAt(c)];
      forall m | 0 < m < |r.history|
        ensures StepAt(r.history, m)
      {
        if m <= c {
          assert StepAt(s.history, m);
          assert r.history[m - 1] == s.history[m - 1] && r.history[m] == s.history[m];
        } else {
          assert r.history[m - 1] == cur;
          assert MarksSquare(r.history[m - 1], r.history[m], i, MoverAt(m - 1));
        }
      }
      assert StepAt(r.history, c + 1);
    }
  }

  /** Playing the same square twice changes nothing the second time. */
  lemma PlayTwiceSameSquare(s: State, i: Index)
    requires Valid(s)
    ensures Play(Play(s, i), i) == Play(s, i)
  {
  }

  /** Jumping to a snapshot displays exactly that snapshot, and jumping back to where
      the cursor was restores the state. */
  lemma JumpToRoundTrip(s: State, m: nat)
    requires Valid(s) && m < |s.history|
    ensures CurrentSquares(JumpTo(s, m)) == s.history[m]
    ensures JumpTo(JumpTo(s, m), s.currentMove) == s
  {
  }

  /** In a well-formed game snapshot `m` has exactly `m` marked squares. */
  lemma {:induction false} FilledCountsMoves(s: State, m: nat)
    requires WellFormed(s) && m < |s.history|
    ensures Filled(s.history[m]) == m
  {
    var h := s.history;
    if m == 0 {
      FilledNone(h[0]);
    } else {
      FilledCountsMoves(s, m - 1);
      assert StepAt(h, m);
      var j: Index :| MarksSquare(h[m - 1], h[m], j, MoverAt(m - 1));
      FilledMark(h[m - 1], j, MoverAt(m - 1));
    }
  }

  /** A well-formed history never holds more than ten snapshots. */
  lemma HistoryAtMostTen(s: State)
    requires WellFormed(s)
    ensures |s.history| <= 10
  {
    FilledCountsMoves(s, |s.history| - 1);
  }

  /** A line complete after a legal move must pass through the square just marked, so
      the winner shown is always the player who made the last move. */
  lemma WinnerIsLastMover(s: State, m: nat)
    requires WellFormed(s) && 0 < m < |s.history|
    requires HasWinningLine(s.history[m])
    ensures CalculateWinner(s.history[m]).value.mark == MoverAt(m - 1)
  {
    var h := s.history;
    assert StepAt(h, m);
    var j: Index :| MarksSquare(h[m - 1], h[m], j, MoverAt(m - 1));
  }

  /** The empty starting board has no winner. */
  lemma EmptyBoardHasNoWinner()
    ensures !HasWinningLine(EmptyBoard)
  {
  }

  /** On a reachable board the status names the winner as the player who made the
      last move, and otherwise the player whose turn the cursor gives. */
  lemma GameStatusMatchesTurn(s: State)
    requires WellFormed(s)
    ensures HasWinningLine(CurrentSquares(s)) ==>
      s.currentMove > 0 && GameStatus(s) == "Winner: " + Symbol(MoverAt(s.currentMove - 1))
    ensures !HasWinningLine(CurrentSquares(s)) && !IsFull(CurrentSquares(s)) ==>
      GameStatus(s) == "Nextplayer: " + Symbol(MoverAt(s.currentMove))
  {
    var b := CurrentSquares(s);
    if HasWinningLine(b) {
      if s.currentMove == 0 {
        EmptyBoardHasNoWinner();
        assert false;
      }
      WinnerIsLastMover(s, s.currentMove);
      var j :| FirstWinningLine(b, j) && GameStatus(s) == "Winner: " + Symbol(b[Lines[j].a]);
      CalculateWinnerFirst(b, j);
    }
  }
}
