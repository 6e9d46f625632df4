/** The logic of the `Board` component: the click handler and the status line. */
module BoardView {
  import opened Options
  import opened Squares
  import opened Winner

  /** The mark placed by the player whose turn it is. */
  function Mover(xIsNext: bool): Cell
  {
    if xIsNext then X else O
  }

  /** A click on square `i`: `None` when the handler returns early, otherwise the
      board handed on to the game. */
  function HandleClick(squares: Board, xIsNext: bool, i: Index): (r: Option<Board>)
    ensures r.None? <==> squares[i] != Empty || HasWinningLine(squares)
    ensures r.Some? ==>
      && r.value[i] == Mover(xIsNext)
      && SameExcept(squares, r.value, i)
  {
    if squares[i] != Empty || CalculateWinner(squares).Some? then None
    else
      var nextSquares := squares[i := if xIsNext then X else O];
      Some(nextSquares)
  }

  /** The status line: winner, draw, or whose turn is next. */
  function Status(squares: Board, xIsNext: bool): (r: string)
    ensures HasWinningLine(squares) ==>
      exists j :: FirstWinningLine(squares, j) && r == "Winner: " + Symbol(squares[Lines[j].a])
    ensures !HasWinningLine(squares) && IsFull(squares) ==> r == "Game is a draw"
    ensures !HasWinningLine(squares) && !IsFull(squares) ==>
      r == "Nextplayer: " + (if xIsNext then "X" else "O")
  {
    var winner := CalculateWinner(squares);
    var hasEmpty := Empty in squares;
    var status :=
      if winner.Some? then "Winner: " + Symbol(winner.value.mark)
      else "Nextplayer: " + (if xIsNext then "X" else "O");
    if !hasEmpty && winner.None? then "Game is a draw" else status
  }
}
