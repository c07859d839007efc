/** A second, table-free statement of the result of a board: the eight lines and
    the fullness test written out cell by cell. It is proved equal to the engine's
    CheckWinner, which scans the table of lines. */
module Reference {
  import opened Wrappers
  import opened Board
  import opened Engine

  /** The player on cells i, j and k (0-based) when all three hold the same marker. */
  function Three(b: Board, i: nat, j: nat, k: nat): (r: Option<Player>)
    requires i < Cells && j < Cells && k < Cells
  {
    if b[i].Some? && b[i] == b[j] && b[j] == b[k] then b[i] else None
  }

  /** Rows, then columns, then diagonals; then full board or not. */
  ghost function Explicit(b: Board): (r: Option<Winner>) {
    if Three(b, 0, 1, 2).Some? then Some(Won(b[0].value))
    else if Three(b, 3, 4, 5).Some? then Some(Won(b[3].value))
    else if Three(b, 6, 7, 8).Some? then Some(Won(b[6].value))
    else if Three(b, 0, 3, 6).Some? then Some(Won(b[0].value))
    else if Three(b, 1, 4, 7).Some? then Some(Won(b[1].value))
    else if Three(b, 2, 5, 8).Some? then Some(Won(b[2].value))
    else if Three(b, 0, 4, 8).Some? then Some(Won(b[0].value))
    else if Three(b, 2, 4, 6).Some? then Some(Won(b[2].value))
    else if b[0].Some? && b[1].Some? && b[2].Some? && b[3].Some? && b[4].Some?
         && b[5].Some? && b[6].Some? && b[7].Some? && b[8].Some? then Some(Tie)
    else None
  }

  /** The engine's per-line test agrees with comparing the line's three cells. */
  lemma LineWinnerIsThree(b: Board, line: Line)
    ensures LineWinner(b, line) == Three(b, line[0] as int - 1, line[1] as int - 1, line[2] as int - 1)
  {
  }

  /** The table scan, unrolled over the eight lines. */
  lemma {:induction false} FirstWinnerUnrolled(b: Board)
    ensures FirstWinner(b, WinnerPositions, 0) ==
      if Three(b, 0, 1, 2).Some? then b[0]
      else if Three(b, 3, 4, 5).Some? then b[3]
      else if Three(b, 6, 7, 8).Some? then b[6]
      else if Three(b, 0, 3, 6).Some? then b[0]
      else if Three(b, 1, 4, 7).Some? then b[1]
      else if Three(b, 2, 5, 8).Some? then b[2]
      else if Three(b, 0, 4, 8).Some? then b[0]
      else if Three(b, 2, 4, 6).Some? then b[2]
      else None
  {
    var t := WinnerPositions;
    LineWinnerIsThree(b, t[0]);
    LineWinnerIsThree(b, t[1]);
    LineWinnerIsThree(b, t[2]);
    LineWinnerIsThree(b, t[3]);
    LineWinnerIsThree(b, t[4]);
    LineWinnerIsThree(b, t[5]);
    LineWinnerIsThree(b, t[6]);
    LineWinnerIsThree(b, t[7]);
    assert FirstWinner(b, t, 8) == None;
  }

  /** The engine's result equals the explicit one on every board. */
  lemma CheckWinnerIsExplicit(b: Board)
    ensures CheckWinner(b) == Explicit(b)
  {
    FirstWinnerUnrolled(b);
    var full := b[0].Some? && b[1].Some? && b[2].Some? && b[3].Some? && b[4].Some?
         && b[5].Some? && b[6].Some? && b[7].Some? && b[8].Some?;
    assert full <==> Full(b) by {
      if full {
        forall i | 0 <= i < |b| ensures b[i].Some? {
          assert i in {0, 1, 2, 3, 4, 5, 6, 7, 8};
        }
      }
    }
  }
}
