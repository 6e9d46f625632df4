/** Complete games played click by click from the starting state. */
module Scenarios {
  import opened Options
  import opened Squares
  import opened Winner
  import opened BoardView
  import opened Game

  /** None of the eight lines is complete, spelled out line by line. */
  predicate NoCompleteLine(b: Board)
  {
    && !Qualifies(b, Lines[0]) && !Qualifies(b, Lines[1]) && !Qualifies(b, Lines[2])
    && !Qualifies(b, Lines[3]) && !Qualifies(b, Lines[4]) && !Qualifies(b, Lines[5])
    && !Qualifies(b, Lines[6]) && !Qualifies(b, Lines[7])
  }

  /** Checking the lines one by one finds no winner. */
  lemma NoCompleteLineNoWinner(b: Board)
    requires NoCompleteLine(b)
    ensures !HasWinningLine(b) && CalculateWinner(b).None?
  {
    forall j | 0 <= j < |Lines|
      ensures !Qualifies(b, Lines[j])
    {
      assert j in {0, 1, 2, 3, 4, 5, 6, 7};
    }
  }

  /** One accepted click at the tip of the history appends the marked board. */
  lemma Click(s: State, i: Index, b: Board)
    requires Valid(s) && CurrentSquares(s)[i] == Empty && NoCompleteLine(CurrentSquares(s))
    requires b == CurrentSquares(s)[i := MoverAt(s.currentMove)]
    ensures Play(s, i) == State(s.history[..s.currentMove + 1] + [b], s.currentMove + 1, s.sortOrder)
  {
    NoCompleteLineNoWinner(CurrentSquares(s));
  }

  // Opening boards shared by the games below: X on square 0, then O on 1 and X on 2.

  const OpeningB1: Board := [X, Empty, Empty, Empty, Empty, Empty, Empty, Empty, Empty]
  const TopRowB2: Board := [X, O, Empty, Empty, Empty, Empty, Empty, Empty, Empty]
  const TopRowB3: Board := [X, O, X, Empty, Empty, Empty, Empty, Empty, Empty]

  const OpeningS1: State := State([EmptyBoard, OpeningB1], 1, true)
  const TopRowS2: State := State([EmptyBoard, OpeningB1, TopRowB2], 2, true)
  const TopRowS3: State := State([EmptyBoard, OpeningB1, TopRowB2, TopRowB3], 3, true)

  lemma OpeningClick()
    ensures Play(Start, 0) == OpeningS1
  {
    Click(Start, 0, OpeningB1);
  }

  lemma TopRowClick2()
    ensures Play(OpeningS1, 1) == TopRowS2
  {
    Click(OpeningS1, 1, TopRowB2);
  }

  lemma TopRowClick3()
    ensures Play(TopRowS2, 2) == TopRowS3
  {
    Click(TopRowS2, 2, TopRowB3);
  }

  /** X opens in the corner; then it is O's turn. */
  lemma OpeningMove()
    ensures CurrentSquares(Play(Start, 0)) == [X, Empty, Empty, Empty, Empty, Empty, Empty, Empty, Empty]
    ensures GameStatus(Play(Start, 0)) == "Nextplayer: O"
  {
    OpeningClick();
    NoCompleteLineNoWinner(OpeningB1);
    assert OpeningB1[1] == Empty;
  }

  // A game X wins down the left column.

  const ColumnB2: Board := [X, Empty, Empty, Empty, O, Empty, Empty, Empty, Empty]
  const ColumnB3: Board := [X, Empty, Empty, X, O, Empty, Empty, Empty, Empty]
  const ColumnB4: Board := [X, O, Empty, X, O, Empty, Empty, Empty, Empty]
  const ColumnB5: Board := [X, O, Empty, X, O, Empty, X, Empty, Empty]

  const ColumnS2: State := State([EmptyBoard, OpeningB1, ColumnB2], 2, true)
  const ColumnS3: State := State([EmptyBoard, OpeningB1, ColumnB2, ColumnB3], 3, true)
  const ColumnS4: State := State([EmptyBoard, OpeningB1, ColumnB2, ColumnB3, ColumnB4], 4, true)
  const ColumnS5: State := State([EmptyBoard, OpeningB1, ColumnB2, ColumnB3, ColumnB4, ColumnB5], 5, true)

  lemma ColumnClick2()
    ensures Play(OpeningS1, 4) == ColumnS2
  {
    Click(OpeningS1, 4, ColumnB2);
  }

  lemma ColumnClick3()
    ensures Play(ColumnS2, 3) == ColumnS3
  {
    Click(ColumnS2, 3, ColumnB3);
  }

  lemma ColumnClick4()
    ensures Play(ColumnS3, 1) == ColumnS4
  {
    Click(ColumnS3, 1, ColumnB4);
  }

  lemma ColumnClick5()
    ensures Play(ColumnS4, 6) == ColumnS5
  {
    Click(ColumnS4, 6, ColumnB5);
  }

  lemma ColumnBoardWon()
    ensures CalculateWinner(ColumnB5) == Some(Win(X, Line(0, 3, 6)))
    ensures Status(ColumnB5, false) == "Winner: X"
  {
    var b := ColumnB5;
    assert FirstWinningLine(b, 3) by {
      assert !Qualifies(b, Lines[0]) && !Qualifies(b, Lines[1]) && !Qualifies(b, Lines[2]);
    }
    CalculateWinnerFirst(b, 3);
  }

  /** Clicks 0, 4, 3, 1, 6: X completes the left column with its third mark. */
  lemma ColumnWin()
    ensures CalculateWinner(CurrentSquares(Play(Play(Play(Play(Play(Start, 0), 4), 3), 1), 6))) == Some(Win(X, Line(0, 3, 6)))
    ensures GameStatus(Play(Play(Play(Play(Play(Start, 0), 4), 3), 1), 6)) == "Winner: X"
  {
    OpeningClick();
    ColumnClick2();
    ColumnClick3();
    ColumnClick4();
    ColumnClick5();
    ColumnBoardWon();
  }

  // Clicks on squares 0, 1, 2, ... in order, up to the seventh.

  const SequentialB4: Board := [X, O, X, O, Empty, Empty, Empty, Empty, Empty]
  const SequentialB5: Board := [X, O, X, O, X, Empty, Empty, Empty, Empty]
  const SequentialB6: Board := [X, O, X, O, X, O, Empty, Empty, Empty]
  const SequentialB7: Board := [X, O, X, O, X, O, X, Empty, Empty]

  const SequentialS4: State := State([EmptyBoard, OpeningB1, TopRowB2, TopRowB3, SequentialB4], 4, true)
  const SequentialS5: State := State([EmptyBoard, OpeningB1, TopRowB2, TopRowB3, SequentialB4, SequentialB5], 5, true)
  const SequentialS6: State := State([EmptyBoard, OpeningB1, TopRowB2, TopRowB3, SequentialB4, SequentialB5, SequentialB6], 6, true)
  const SequentialS7: State := State([EmptyBoard, OpeningB1, TopRowB2, TopRowB3, SequentialB4, SequentialB5, SequentialB6, SequentialB7], 7, true)

  lemma SequentialClick4()
    ensures Play(TopRowS3, 3) == SequentialS4
  {
    Click(TopRowS3, 3, SequentialB4);
  }

  lemma SequentialClick5()
    ensures Play(SequentialS4, 4) == SequentialS5
  {
    Click(SequentialS4, 4, SequentialB5);
  }

  lemma SequentialClick6()
    ensures Play(SequentialS5, 5) == SequentialS6
  {
    Click(SequentialS5, 5, SequentialB6);
  }

  lemma SequentialClick7()
    ensures Play(SequentialS6, 6) == SequentialS7
  {
    Click(SequentialS6, 6, SequentialB7);
  }

  lemma DiagonalBoardWon()
    ensures CalculateWinner(SequentialB7) == Some(Win(X, Line(2, 4, 6)))
    ensures Status(SequentialB7, false) == "Winner: X"
  {
    var b := SequentialB7;
    assert FirstWinningLine(b, 7) by {
      assert !Qualifies(b, Lines[0]) && !Qualifies(b, Lines[1]) && !Qualifies(b, Lines[2]);
      assert !Qualifies(b, Lines[3]) && !Qualifies(b, Lines[4]) && !Qualifies(b, Lines[5]);
      assert !Qualifies(b, Lines[6]);
    }
    CalculateWinnerFirst(b, 7);
  }

  /** Clicking the squares 0 to 8 in order does not fill the board: X completes the
      anti-diagonal 2, 4, 6 with the seventh click, and the clicks on 7 and 8 are ignored. */
  lemma SequentialClicksEndEarly()
    ensures |Play(Play(Play(Play(Play(Play(Play(Play(Play(Start, 0), 1), 2), 3), 4), 5), 6), 7), 8).history| == 8
    ensures CurrentSquares(Play(Play(Play(Play(Play(Play(Play(Play(Play(Start, 0), 1), 2), 3), 4), 5), 6), 7), 8)) == SequentialB7
    ensures GameStatus(Play(Play(Play(Play(Play(Play(Play(Play(Play(Start, 0), 1), 2), 3), 4), 5), 6), 7), 8)) == "Winner: X"
  {
    OpeningClick();
    TopRowClick2();
    TopRowClick3();
    SequentialClick4();
    SequentialClick5();
    SequentialClick6();
    SequentialClick7();
    DiagonalBoardWon();
    assert Play(SequentialS7, 7) == SequentialS7;
    assert Play(SequentialS7, 8) == SequentialS7;
  }

  // A game that fills the board without a complete line.

  const DrawB4: Board := [X, O, X, Empty, O, Empty, Empty, Empty, Empty]
  const DrawB5: Board := [X, O, X, X, O, Empty, Empty, Empty, Empty]
  const DrawB6: Board := [X, O, X, X, O, O, Empty, Empty, Empty]
  const DrawB7: Board := [X, O, X, X, O, O, Empty, X, Empty]
  const DrawB8: Board := [X, O, X, X, O, O, O, X, Empty]
  const DrawB9: Board := [X, O, X, X, O, O, O, X, X]

  const DrawS4: State := State([EmptyBoard, OpeningB1, TopRowB2, TopRowB3, DrawB4], 4, true)
  const DrawS5: State := State([EmptyBoard, OpeningB1, TopRowB2, TopRowB3, DrawB4, DrawB5], 5, true)
  const DrawS6: State := State([EmptyBoard, OpeningB1, TopRowB2, TopRowB3, DrawB4, DrawB5, DrawB6], 6, true)
  const DrawS7: State := State([EmptyBoard, OpeningB1, TopRowB2, TopRowB3, DrawB4, DrawB5, DrawB6, DrawB7], 7, true)
  const DrawS8: State := State([EmptyBoard, OpeningB1, TopRowB2, TopRowB3, DrawB4, DrawB5, DrawB6, DrawB7, DrawB8], 8, true)
  const DrawS9: State := State([EmptyBoard, OpeningB1, TopRowB2, TopRowB3, DrawB4, DrawB5, DrawB6, DrawB7, DrawB8, DrawB9], 9, true)

  lemma DrawClick4()
    ensures Play(TopRowS3, 4) == DrawS4
  {
    Click(TopRowS3, 4, DrawB4);
  }

  lemma DrawClick5()
    ensures Play(DrawS4, 3) == DrawS5
  {
    Click(DrawS4, 3, DrawB5);
  }

  lemma DrawClick6()
    ensures Play(DrawS5, 5) == DrawS6
  {
    Click(DrawS5, 5, DrawB6);
  }

  lemma DrawClick7()
    ensures Play(DrawS6, 7) == DrawS7
  {
    Click(DrawS6, 7, DrawB7);
  }

  lemma DrawClick8()
    ensures Play(DrawS7, 6) == DrawS8
  {
    Click(DrawS7, 6, DrawB8);
  }

  lemma DrawClick9()
    ensures Play(DrawS8, 8) == DrawS9
  {
    Click(DrawS8, 8, DrawB9);
  }

  lemma DrawBoardDrawn()
    ensures CalculateWinner(DrawB9).None? && IsFull(DrawB9)
    ensures Status(DrawB9, false) == "Game is a draw"
  {
    NoCompleteLineNoWinner(DrawB9);
  }

  /** Clicks 0, 1, 2, 4, 3, 5, 7, 6, 8 fill the board with no winner: a draw. */
  lemma DrawnGame()
    ensures |Play(Play(Play(Play(Play(Play(Play(Play(Play(Start, 0), 1), 2), 4), 3), 5), 7), 6), 8).history| == 10
    ensures GameStatus(Play(Play(Play(Play(Play(Play(Play(Play(Play(Start, 0), 1), 2), 4), 3), 5), 7), 6), 8)) == "Game is a draw"
  {
    OpeningClick();
    TopRowClick2();
    TopRowClick3();
    DrawClick4();
    DrawClick5();
    DrawClick6();
    DrawClick7();
    DrawClick8();
    DrawClick9();
    DrawBoardDrawn();
  }

  /** After three clicks, jumping back to move 1 and clicking square 5 discards the
      later snapshots: O's mark goes on the board of move 1 and the history is three long. */
  lemma BranchDiscard()
    ensures |Play(JumpTo(Play(Play(Play(Start, 0), 4), 3), 1), 5).history| == 3
    ensures Play(JumpTo(Play(Play(Play(Start, 0), 4), 3), 1), 5).currentMove == 2
    ensures CurrentSquares(Play(JumpTo(Play(Play(Play(Start, 0), 4), 3), 1), 5)) == [X, Empty, Empty, Empty, Empty, O, Empty, Empty, Empty]
  {
    OpeningClick();
    ColumnClick2();
    ColumnClick3();
    var j := JumpTo(ColumnS3, 1);
    assert j == State([EmptyBoard, OpeningB1, ColumnB2, ColumnB3], 1, true);
    Click(j, 5, [X, Empty, Empty, Empty, Empty, O, Empty, Empty, Empty]);
  }
}
