/** The board model: players, the nine cells, the table of winning lines,
    and the cell counts the engine and its invariants are stated with. */
module Board {
  import opened Wrappers

  /** The two players; X always moves first. */
  datatype Player = X | O

  /** What a cell holds: empty or one player's marker. */
  type Cell = Option<Player>

  /** Number of cells on the board. */
  const Cells: nat := 9

  /** Length of a winning line. */
  const Row: nat := 3

  /** A board is exactly nine cells in row-major order; cell k (1-based) is at index k - 1. */
  type Board = b: seq<Cell> | |b| == Cells
    witness [None, None, None, None, None, None, None, None, None]

  /** A 1-based cell number. */
  type Slot = k: int | 1 <= k <= Cells witness 1

  /** A winning line: three 1-based cell numbers. */
  type Line = l: seq<Slot> | |l| == Row witness [1, 2, 3]

  /** The eight winning lines in the order the engine scans them:
      the three rows, the three columns, then the two diagonals.
      Every entry is a Slot, so `k - 1` is always a valid board index. */
  const WinnerPositions: seq<Line> := [
    [1, 2, 3], [4, 5, 6], [7, 8, 9],
    [1, 4, 7], [2, 5, 8], [3, 6, 9],
    [1, 5, 9], [3, 5, 7]
  ]

  /** The player who moves after `p`. */
  function Opponent(p: Player): (q: Player)
    ensures q != p
  {
    match p
    case X => O
    case O => X
  }

  /** Taking the opponent twice gives back the same player. */
  lemma OpponentInvolution(p: Player)
    ensures Opponent(Opponent(p)) == p
  {
  }

  /** The board a new game starts with. */
  function EmptyBoard(): (b: Board)
    ensures forall i :: 0 <= i < |b| ==> b[i].None?
  {
    [None, None, None, None, None, None, None, None, None]
  }

  /** Every cell holds a marker. */
  ghost predicate Full(cells: seq<Cell>) {
    forall i :: 0 <= i < |cells| ==> cells[i].Some?
  }

  /** Number of occupied cells: the `filter(is_some).count()` of the tie test. */
  function Occupied(cells: seq<Cell>): (n: nat)
    ensures n <= |cells|
    ensures n == |cells| <==> Full(cells)
    ensures n == 0 <==> forall i :: 0 <= i < |cells| ==> cells[i].None?
  {
    if cells == [] then 0
    else (if cells[0].Some? then 1 else 0) + Occupied(cells[1..])
  }

  /** Number of cells holding player `p`. */
  function CountOf(cells: seq<Cell>, p: Player): (n: nat)
    ensures n <= Occupied(cells)
  {
    if cells == [] then 0
    else (if cells[0] == Some(p) then 1 else 0) + CountOf(cells[1..], p)
  }

  /** Occupied cells split exactly into X's cells and O's cells. */
  lemma {:induction false} OccupiedSplits(cells: seq<Cell>)
    ensures Occupied(cells) == CountOf(cells, X) + CountOf(cells, O)
  {
    if cells != [] {
      OccupiedSplits(cells[1..]);
      match cells[0]
      case None =>
      case Some(q) => assert q == X || q == O;
    }
  }

  /** Placing `p` into an empty cell adds one to p's count and to the occupied count
      and leaves the other player's count alone. */
  lemma {:induction false} PlaceCounts(cells: seq<Cell>, i: nat, p: Player)
    requires i < |cells| && cells[i].None?
    ensures CountOf(cells[i := Some(p)], p) == CountOf(cells, p) + 1
    ensures CountOf(cells[i := Some(p)], Opponent(p)) == CountOf(cells, Opponent(p))
    ensures Occupied(cells[i := Some(p)]) == Occupied(cells) + 1
  {
    var c' := cells[i := Some(p)];
    if i == 0 {
      assert c'[1..] == cells[1..];
    } else {
      assert c'[1..] == cells[1..][i - 1 := Some(p)];
      PlaceCounts(cells[1..], i - 1, p);
    }
  }
}
