/** Move annotation: which square a move marked, as a row letter and a column digit. */
module MoveAnnotation {
  import opened Options
  import opened Squares

  /** A square's coordinates as the move list shows them. */
  datatype Coord = Coord(row: string, col: string)

  /** The scan over all nine squares from position `i` on, remembering the last
      position where the boards differ (`found` is what earlier positions left). */
  function LastDifference(prev: Board, next: Board, i: nat, found: Option<Index>): (r: Option<Index>)
    requires i <= 9
    ensures (forall k :: i <= k < 9 ==> prev[k] == next[k]) ==> r == found
    ensures (exists k :: i <= k < 9 && prev[k] != next[k]) ==>
      && r.Some? && i <= r.value
      && prev[r.value] != next[r.value]
      && forall k :: r.value < k < 9 ==> prev[k] == next[k]
    decreases 9 - i
  {
    if i == 9 then found
    else LastDifference(prev, next, i + 1, if next[i] != prev[i] then Some(i) else found)
  }

  /** Row letter of a square, by the game's three range tests. */
  function RowLabel(x: Index): (r: string)
    ensures r == ["ABC"[x / 3]]
  {
    if x < 3 then "A"
    else if x > 2 && x < 6 then "B"
    else "C"
  }

  /** Column digit of a square, by the game's three membership tests. */
  function ColLabel(x: Index): (r: string)
    ensures r == ["123"[x % 3]]
  {
    if x == 0 || x == 3 || x == 6 then "1"
    else if x == 1 || x == 4 || x == 7 then "2"
    else "3"
  }

  /** Row and column of the square that changed between snapshot `move - 1` and
      snapshot `move`; `None` for the starting board and for two equal snapshots. */
  function CalculateMove(history: seq<Board>, move: nat): (r: Option<Coord>)
    requires move < |history|
    ensures move == 0 ==> r.None?
    ensures move > 0 ==> (r.None? <==> history[move - 1] == history[move])
  {
    if move == 0 then None
    else
      var moveIndex := LastDifference(history[move - 1], history[move], 0, None);
      match moveIndex
      case None => None
      case Some(x) => Some(Coord(RowLabel(x), ColLabel(x)))
  }

  /** When consecutive snapshots differ in exactly one square `k`, the annotation is
      that square's row `k / 3` and column `k % 3`. */
  lemma CalculateMoveSingleChange(history: seq<Board>, move: nat, k: Index)
    requires 0 < move < |history|
    requires history[move - 1][k] != history[move][k]
    requires SameExcept(history[move - 1], history[move], k)
    ensures CalculateMove(history, move) == Some(Coord(["ABC"[k / 3]], ["123"[k % 3]]))
  {
  }
}
