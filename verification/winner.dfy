/** Win detection: the eight fixed lines of the board, scanned in a fixed order. */
module Winner {
  import opened Options
  import opened Squares

  /** Three square indices that form a row, a column or a diagonal. */
  datatype Line = Line(a: Index, b: Index, c: Index)

  /** The lines in the order the game checks them: rows, columns, diagonals. */
  const Lines: seq<Line> := [
    Line(0, 1, 2), Line(3, 4, 5), Line(6, 7, 8),
    Line(0, 3, 6), Line(1, 4, 7), Line(2, 5, 8),
    Line(0, 4, 8), Line(2, 4, 6)
  ]

  /** A win: the winning mark and the first line that carries it. */
  datatype Win = Win(mark: Cell, line: Line)

  /** All three squares of `l` hold the same mark. */
  predicate Qualifies(b: Board, l: Line)
  {
    b[l.a] != Empty && b[l.a] == b[l.b] && b[l.a] == b[l.c]
  }

  /** Reference definition: some line of the board is complete. */
  predicate HasWinningLine(b: Board)
  {
    exists j :: 0 <= j < |Lines| && Qualifies(b, Lines[j])
  }

  /** `j` is the earliest line, in checking order, that is complete. */
  predicate FirstWinningLine(b: Board, j: int)
  {
    && 0 <= j < |Lines|
    && Qualifies(b, Lines[j])
    && forall k :: 0 <= k < j ==> !Qualifies(b, Lines[k])
  }

  /** The loop over `lines` from position `i` on. */
  function WinnerFrom(b: Board, i: nat): (r: Option<Win>)
    requires i <= |Lines|
    ensures r.None? <==> forall j :: i <= j < |Lines| ==> !Qualifies(b, Lines[j])
    ensures r.Some? ==>
      exists j :: i <= j < |Lines| && Lines[j] == r.value.line && Qualifies(b, Lines[j])
        && r.value.mark == b[Lines[j].a]
        && forall k :: i <= k < j ==> !Qualifies(b, Lines[k])
    decreases |Lines| - i
  {
    if i == |Lines| then None
    else if Qualifies(b, Lines[i]) then Some(Win(b[Lines[i].a], Lines[i]))
    else WinnerFrom(b, i + 1)
  }

  /** The winner of a board, if any: the mark and line of the first complete line. */
  function CalculateWinner(b: Board): (r: Option<Win>)
    ensures r.None? <==> !HasWinningLine(b)
    ensures r.Some? ==>
      && r.value.mark != Empty
      && r.value.mark == b[r.value.line.a] == b[r.value.line.b] == b[r.value.line.c]
      && exists j :: FirstWinningLine(b, j) && Lines[j] == r.value.line
  {
    WinnerFrom(b, 0)
  }

  /** The winner is determined by the first complete line: both directions. */
  lemma CalculateWinnerFirst(b: Board, j: nat)
    requires j < |Lines|
    ensures FirstWinningLine(b, j) <==> CalculateWinner(b) == Some(Win(b[Lines[j].a], Lines[j]))
  {
  }

  /** The board that has `m` on the three squares of line `j` and nothing else. */
  function LineBoard(j: nat, m: Cell): (b: Board)
    requires j < |Lines|
  {
    seq(9, k => if k == Lines[j].a || k == Lines[j].b || k == Lines[j].c then m else Empty)
  }

  /** Every fixed line, filled with one mark on an otherwise empty board, is detected
      with exactly that line and that mark. */
  lemma DetectsEachLine(j: nat, m: Cell)
    requires j < |Lines| && m != Empty
    ensures CalculateWinner(LineBoard(j, m)) == Some(Win(m, Lines[j]))
  {
    var b := LineBoard(j, m);
    assert Qualifies(b, Lines[j]);
    forall k | 0 <= k < j
      ensures !Qualifies(b, Lines[k])
    {
      // Two distinct lines share at most one square.
      assert b[Lines[k].a] == Empty || b[Lines[k].b] == Empty || b[Lines[k].c] == Empty;
    }
    CalculateWinnerFirst(b, j);
  }

  /** Every line of the table names three different squares. */
  lemma LinesHaveThreeSquares(l: Line)
    requires l in Lines
    ensures |{l.a, l.b, l.c}| == 3
  {
  }

  /** The squares the board highlights: those of the winning line, or none. */
  function WinningSquares(b: Board): (r: set<Index>)
    ensures r == {} <==> !HasWinningLine(b)
    ensures forall j :: FirstWinningLine(b, j) ==> |r| == 3 && r == {Lines[j].a, Lines[j].b, Lines[j].c}
    ensures forall i :: i in r ==> b[i] != Empty && b[i] == CalculateWinner(b).value.mark
  {
    match CalculateWinner(b)
    case None => {}
    case Some(w) =>
      LinesHaveThreeSquares(w.line);
      {w.line.a, w.line.b, w.line.c}
  }
}
