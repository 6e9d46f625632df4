/** The move list: one entry per snapshot, its label, and the order the sort flag
    selects. */
module MoveList {
  import opened Options
  import opened Squares
  import opened MoveAnnotation
  import opened Game

  /** Decimal text of a natural number, as JavaScript's string concatenation gives. */
  function NatToString(n: nat): string
    decreases n
  {
    if n < 10 then ["0123456789"[n]]
    else NatToString(n / 10) + ["0123456789"[n % 10]]
  }

  /** The player the list names for move `move`: O for even moves, X for odd ones,
      which is the player who made that move from snapshot `move - 1`. */
  function PlayerOfMove(move: nat): (r: string)
    ensures move > 0 ==> r == Symbol(MoverAt(move - 1))
    ensures move == 0 ==> r == "O"
  {
    if move % 2 == 0 then "O" else "X"
  }

  /** The label of entry `move`. `None` stands for the `TypeError` raised by reading a
      coordinate of an undefined annotation, which happens only when two consecutive
      snapshots are equal. */
  function MoveLabel(history: seq<Board>, move: nat): (r: Option<string>)
    requires move < |history|
    ensures move == 0 ==> r == Some("Go to game start")
    ensures move > 0 ==> (r.None? <==> history[move - 1] == history[move])
  {
    if move > 0 then
      match CalculateMove(history, move)
      case None => None
      case Some(c) =>
        Some("Move # " + NatToString(move) + " : " + PlayerOfMove(move)
             + " [row:" + c.row + " | col:" + c.col + "]")
    else Some("Go to game start")
  }

  /** An order that puts move `k` or move `n - 1 - k` at position `k` lists every move. */
  lemma EveryMoveListed(r: seq<nat>, n: nat, sortOrder: bool)
    requires |r| == n
    requires forall k :: 0 <= k < n ==> r[k] == (if sortOrder then k else n - 1 - k)
    ensures forall v :: 0 <= v < n ==> v in r
  {
    forall v | 0 <= v < n
      ensures v in r
    {
      assert r[if sortOrder then v else n - 1 - v] == v;
    }
  }

  /** Positions of the entries in display order: as built when the flag is set, and
      reversed when it is clear. */
  function MoveOrder(n: nat, sortOrder: bool): (r: seq<nat>)
    ensures |r| == n
    ensures sortOrder ==> forall k :: 0 <= k < n ==> r[k] == k
    ensures !sortOrder ==> forall k :: 0 <= k < n ==> r[k] == n - 1 - k
    ensures forall v :: 0 <= v < n ==> v in r
  {
    var moves := seq(n, k => k);
    var r := if sortOrder then moves else seq(n, k requires 0 <= k < n => moves[n - 1 - k]);
    EveryMoveListed(r, n, sortOrder);
    r
  }

  datatype Entry = Entry(move: nat, text: Option<string>)

  /** The rendered move list: one entry per snapshot, in the order of the flag. */
  function Moves(s: State): (r: seq<Entry>)
    ensures |r| == |s.history|
    ensures forall k :: 0 <= k < |r| ==>
      r[k].move < |s.history| && r[k].text == MoveLabel(s.history, r[k].move)
    ensures forall k :: 0 <= k < |r| ==>
      r[k].move == (if s.sortOrder then k else |s.history| - 1 - k)
  {
    var order := MoveOrder(|s.history|, s.sortOrder);
    seq(|order|, k requires 0 <= k < |order| => Entry(order[k], MoveLabel(s.history, order[k])))
  }

  /** The sort button shows the same entries in reverse order. */
  lemma ToggleReversesMoves(s: State)
    ensures forall k :: 0 <= k < |s.history| ==>
      Moves(ToggleSort(s))[k] == Moves(s)[|s.history| - 1 - k]
  {
  }

  /** In a well-formed game every label is defined, and the label of move `m` names the
      player whose mark that move placed and that square's row and column. */
  lemma LabelsNameTheMove(s: State, m: nat)
    requires WellFormed(s) && 0 < m < |s.history|
    ensures exists k: Index ::
      && MarksSquare(s.history[m - 1], s.history[m], k, MoverAt(m - 1))
      && MoveLabel(s.history, m) == Some("Move # " + NatToString(m) + " : " + Symbol(s.history[m][k])
           + " [row:" + ["ABC"[k / 3]] + " | col:" + ["123"[k % 3]] + "]")
  {
    var h := s.history;
    assert StepAt(h, m);
    var k: Index :| MarksSquare(h[m - 1], h[m], k, MoverAt(m - 1));
    assert h[m][k] == MoverAt(m - 1);
    assert SameExcept(h[m - 1], h[m], k);
    CalculateMoveSingleChange(h, m, k);
  }
}
