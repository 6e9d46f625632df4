/** Cells and boards: the nine squares of a tic-tac-toe board in row-major order. */
module Squares {

  /** A square is empty (`null` in the game) or carries a mark. */
  datatype Cell = Empty | X | O

  /** A square index, row * 3 + column. */
  type Index = i: int | 0 <= i < 9

  /** A board is exactly nine squares. */
  type Board = b: seq<Cell> | |b| == 9 witness EmptyBoard

  const EmptyBoard: seq<Cell> := [Empty, Empty, Empty, Empty, Empty, Empty, Empty, Empty, Empty]

  /** The one-letter text the game shows for a mark. */
  function Symbol(c: Cell): string
  {
    match c
    case Empty => ""
    case X => "X"
    case O => "O"
  }

  /** No square is empty. */
  predicate IsFull(b: Board)
  {
    forall i: Index :: b[i] != Empty
  }

  /** The boards agree on every square except `i`. */
  predicate SameExcept(b: Board, b': Board, i: Index)
  {
    forall k: Index :: k != i ==> b[k] == b'[k]
  }

  /** Number of marked squares in `b`. */
  function Filled(b: seq<Cell>): (n: nat)
    ensures n <= |b|
  {
    if |b| == 0 then 0 else Filled(b[..|b| - 1]) + (if b[|b| - 1] != Empty then 1 else 0)
  }

  /** Marking an empty square raises the count of marked squares by exactly one. */
  lemma {:induction false} FilledMark(b: seq<Cell>, i: nat, c: Cell)
    requires i < |b| && b[i] == Empty && c != Empty
    ensures Filled(b[i := c]) == Filled(b) + 1
    decreases |b|
  {
    var b' := b[i := c];
    if i == |b| - 1 {
      assert b'[..|b'| - 1] == b[..|b| - 1];
    } else {
      assert b'[..|b'| - 1] == b[..|b| - 1][i := c];
      FilledMark(b[..|b| - 1], i, c);
    }
  }

  /** A sequence with no marked square counts zero marks. */
  lemma {:induction false} FilledNone(b: seq<Cell>)
    requires forall k :: 0 <= k < |b| ==> b[k] == Empty
    ensures Filled(b) == 0
    decreases |b|
  {
    if |b| > 0 {
      FilledNone(b[..|b| - 1]);
    }
  }
}
