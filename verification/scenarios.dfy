/** Concrete boards and turn sequences with their expected results. */
module Scenarios {
  import opened Wrappers
  import opened Board
  import opened Engine
  import opened Reference

  /** X holds the top row; O has two markers in the middle row. */
  const RowX: Board := [Some(X), Some(X), Some(X), Some(O), Some(O), None, None, None, None]

  /** RowX with O written over cell 3. */
  const RowBroken: Board := RowX[2 := Some(O)]

  /** X holds the left column. */
  const ColumnX: Board := [Some(X), Some(O), None, Some(X), Some(O), None, Some(X), None, None]

  /** ColumnX with O written over cell 7. */
  const ColumnBroken: Board := ColumnX[6 := Some(O)]

  /** X holds the 1-5-9 diagonal. */
  const DiagonalX: Board := [Some(X), Some(O), None, Some(O), Some(X), None, None, None, Some(X)]

  /** Every cell taken, no line complete. */
  const FullNoLine: Board := [Some(X), Some(O), Some(X), Some(O), Some(X), Some(O), Some(O), Some(X), Some(O)]

  /** O holds the middle row and X holds the bottom row. */
  const TwoLines: Board := [Some(X), None, None, Some(O), Some(O), Some(O), Some(X), Some(X), Some(X)]

  // Each scenario below names its board through a parameter `b` fixed by `requires`,
  // rather than writing CheckWinner(RowX) directly: a literal argument makes the
  // verifier unfold CheckWinner's whole table scan, which is far more costly than
  // reading the result off the cells with Explicit.

  /** A board's result read off its cells gives the engine's result. */
  lemma ResultByCells(b: Board, w: Option<Winner>)
    requires Explicit(b) == w
    ensures CheckWinner(b) == w
  {
    CheckWinnerIsExplicit(b);
  }

  /** X completes the top row. */
  lemma HorizontalWin(b: Board)
    requires b == RowX
    ensures CheckWinner(b) == Some(Won(X))
  {
    ResultByCells(b, Some(Won(X)));
  }

  /** The top-row board with O in cell 3: no line, cells still free, so no result. */
  lemma HorizontalBroken(b: Board)
    requires b == RowBroken
    ensures CheckWinner(b).None?
  {
    ResultByCells(b, None);
  }

  /** X completes the left column; the three rows before it in the table are open. */
  lemma VerticalWin(b: Board)
    requires b == ColumnX
    ensures CheckWinner(b) == Some(Won(X))
  {
    ResultByCells(b, Some(Won(X)));
  }

  /** The left-column board with O in cell 7: no line, cells still free, so no result. */
  lemma VerticalBroken(b: Board)
    requires b == ColumnBroken
    ensures CheckWinner(b).None?
  {
    ResultByCells(b, None);
  }

  /** X completes the 1-5-9 diagonal; every row and column is open. */
  lemma DiagonalWin(b: Board)
    requires b == DiagonalX
    ensures CheckWinner(b) == Some(Won(X))
  {
    ResultByCells(b, Some(Won(X)));
  }

  /** A full board with no complete line is a tie. */
  lemma FullBoardTie(b: Board)
    requires b == FullNoLine
    ensures CheckWinner(b) == Some(Tie)
  {
    ResultByCells(b, Some(Tie));
  }

  /** When both players hold a line, the earlier line in the table decides:
      O's middle row comes before X's bottom row. */
  lemma FirstLineDecides(b: Board)
    requires b == TwoLines
    ensures CheckWinner(b) == Some(Won(O))
  {
    ResultByCells(b, Some(Won(O)));
  }

  /** Cell 5 twice: the second attempt is rejected as taken and changes nothing.
      Cells 0 and 10 on a new game are rejected as invalid and X keeps the turn. */
  lemma RejectedTurns()
    ensures var s1 := RunTurn(NewGame(), 5);
      && s1.1 == Pass
      && s1.0.current == O
      && RunTurn(s1.0, 5) == (s1.0, Fail(SlotTaken))
    ensures RunTurn(NewGame(), 0) == (NewGame(), Fail(InvalidSlot))
    ensures RunTurn(NewGame(), 10) == (NewGame(), Fail(InvalidSlot))
  {
  }
}
