/** The game engine: game state, turn processing, player alternation and
    win/tie detection. */
module Engine {
  import opened Wrappers
  import opened Board

  /** The board plus the player whose turn it is. */
  datatype GameState = GameState(board: Board, current: Player)

  /** Why a turn was rejected. */
  datatype GameError = SlotTaken | InvalidSlot

  /** A finished game: a player completed a line, or the board filled without one. */
  datatype Winner = Won(who: Player) | Tie

  /** The state a game starts in. */
  function NewGame(): (s: GameState)
    ensures Occupied(s.board) == 0
    ensures CountOf(s.board, X) == 0 && CountOf(s.board, O) == 0
    ensures s.current == X
  {
    GameState(EmptyBoard(), X)
  }

  // ---------------------------------------------------------------------------
  // Reference definitions of lines

  /** Every cell of `line` holds player `p`. */
  ghost predicate Holds(b: Board, line: Line, p: Player) {
    forall k :: 0 <= k < |line| ==> b[line[k] - 1] == Some(p)
  }

  /** Some player holds all of `line`. */
  ghost predicate Complete(b: Board, line: Line) {
    Holds(b, line, X) || Holds(b, line, O)
  }

  /** Line `i` of the table is complete and no earlier line is. */
  ghost predicate FirstComplete(b: Board, i: int) {
    && 0 <= i < |WinnerPositions|
    && Complete(b, WinnerPositions[i])
    && forall j :: 0 <= j < i ==> !Complete(b, WinnerPositions[j])
  }

  /** No line of the table is complete. */
  ghost predicate NoLine(b: Board) {
    forall i :: 0 <= i < |WinnerPositions| ==> !Complete(b, WinnerPositions[i])
  }

  /** A line is held by at most one player. */
  lemma HolderUnique(b: Board, line: Line, p: Player, q: Player)
    requires Holds(b, line, p) && Holds(b, line, q)
    ensures p == q
  {
    assert b[line[0] - 1] == Some(p);
  }

  // ---------------------------------------------------------------------------
  // check_winner, as the source computes it

  /** All elements equal the first one; an empty sequence counts as all the same. */
  function IsAllSame<E(==)>(xs: seq<E>): (r: bool)
    ensures r <==> forall i, j :: 0 <= i < |xs| && 0 <= j < |xs| ==> xs[i] == xs[j]
  {
    if |xs| == 0 then true
    else forall i :: 0 <= i < |xs| ==> xs[i] == xs[0]
  }

  /** The markers on the cells of `cells`, in order, empty cells dropped. */
  function Occupants(b: Board, cells: seq<Slot>): (r: seq<Player>)
    ensures |r| <= |cells|
    ensures |r| == |cells| <==> forall k :: 0 <= k < |cells| ==> b[cells[k] - 1].Some?
    ensures |r| == |cells| ==> forall k :: 0 <= k < |cells| ==> b[cells[k] - 1] == Some(r[k])
  {
    if cells == [] then []
    else
      match b[cells[0] - 1]
      case Some(p) => [p] + Occupants(b, cells[1..])
      case None => Occupants(b, cells[1..])
  }

  /** The player holding `line`, if any: three markers collected and all the same. */
  function LineWinner(b: Board, line: Line): (r: Option<Player>)
    ensures r.Some? ==> Holds(b, line, r.value)
    ensures r.None? <==> !Complete(b, line)
  {
    var xs := Occupants(b, line);
    if |xs| == Row && IsAllSame(xs) then
      assert Holds(b, line, xs[0]);
      assert xs[0] == X || xs[0] == O;
      Some(xs[0])
    else
      None
  }

  /** The holder of the first complete line among `lines[from..]`, if any. */
  function FirstWinner(b: Board, lines: seq<Line>, from: nat): (r: Option<Player>)
    requires from <= |lines|
    ensures r.None? <==> forall i :: from <= i < |lines| ==> !Complete(b, lines[i])
    ensures r.Some? ==>
      exists i :: (from <= i < |lines| && Holds(b, lines[i], r.value)
        && forall j :: from <= j < i ==> !Complete(b, lines[j]))
    decreases |lines| - from
  {
    if from == |lines| then None
    else
      match LineWinner(b, lines[from])
      case Some(p) =>
        assert Holds(b, lines[from], p);
        Some(p)
      case None =>
        assert !Complete(b, lines[from]);
        FirstWinner(b, lines, from + 1)
  }

  /** The game's result on board `b`: the holder of the first complete line of the
      table, else a tie when every cell is occupied, else nothing yet. */
  function CheckWinner(b: Board): (r: Option<Winner>)
    ensures (r.Some? && r.value.Won?) <==> exists i :: FirstComplete(b, i)
    ensures forall i, p :: FirstComplete(b, i) && Holds(b, WinnerPositions[i], p) ==> r == Some(Won(p))
    ensures r == Some(Tie) <==> NoLine(b) && Full(b)
    ensures r.None? <==> NoLine(b) && !Full(b)
  {
    var winner := FirstWinner(b, WinnerPositions, 0);
    match winner
    case None => if Occupied(b) == |b| then Some(Tie) else None
    case Some(e) =>
      FirstWinnerIsFirstComplete(b, e);
      Some(Won(e))
  }

  /** The player the table scan reports holds the first complete line of the table,
      and no other player holds that line. */
  lemma FirstWinnerIsFirstComplete(b: Board, e: Player)
    requires FirstWinner(b, WinnerPositions, 0) == Some(e)
    ensures exists i :: FirstComplete(b, i)
    ensures forall i, p :: FirstComplete(b, i) && Holds(b, WinnerPositions[i], p) ==> p == e
  {
    var i :| 0 <= i < |WinnerPositions| && Holds(b, WinnerPositions[i], e)
      && forall j :: 0 <= j < i ==> !Complete(b, WinnerPositions[j]);
    assert e == X || e == O;
    assert FirstComplete(b, i);
    forall i', p | FirstComplete(b, i') && Holds(b, WinnerPositions[i'], p)
      ensures p == e
    {
      assert i' == i;
      HolderUnique(b, WinnerPositions[i], p, e);
    }
  }

  /** When the opponent holds no line, `p` is reported the winner exactly when `p`
      holds some line of the table; empty cells never make a line. */
  lemma WinnerIffLine(b: Board, p: Player)
    requires forall i :: 0 <= i < |WinnerPositions| ==> !Holds(b, WinnerPositions[i], Opponent(p))
    ensures CheckWinner(b) == Some(Won(p)) <==>
      exists i :: 0 <= i < |WinnerPositions| && Holds(b, WinnerPositions[i], p)
  {
  }

  // ---------------------------------------------------------------------------
  // run_turn and next_player

  /** Hands the turn to the other player; the board is untouched. */
  function NextPlayer(s: GameState): (r: GameState)
    ensures r.board == s.board
    ensures r.current != s.current
  {
    s.(current := Opponent(s.current))
  }

  /** Handing the turn over twice gives back the same state. */
  lemma NextPlayerTwice(s: GameState)
    ensures NextPlayer(NextPlayer(s)) == s
  {
  }

  /** One turn at 1-based `slot`: the state afterwards and whether the turn was accepted.
      A rejected turn returns the state it was given. */
  function RunTurn(s: GameState, slot: int): (r: (GameState, Outcome<GameError>))
    ensures !(1 <= slot <= Cells) ==> r == (s, Fail(InvalidSlot))
    ensures 1 <= slot <= Cells && s.board[slot - 1].Some? ==> r == (s, Fail(SlotTaken))
    ensures r.1.Pass? <==> 1 <= slot <= Cells && s.board[slot - 1].None?
    ensures r.1.Pass? ==>
      && r.0.board[slot - 1] == Some(s.current)
      && (forall i :: 0 <= i < Cells && i != slot - 1 ==> r.0.board[i] == s.board[i])
      && r.0.current == Opponent(s.current)
      && Occupied(r.0.board) == Occupied(s.board) + 1
      && CountOf(r.0.board, s.current) == CountOf(s.board, s.current) + 1
      && CountOf(r.0.board, Opponent(s.current)) == CountOf(s.board, Opponent(s.current))
  {
    if !(1 <= slot <= Cells) then (s, Fail(InvalidSlot))
    else
      var realSlot := slot - 1;
      if s.board[realSlot].Some? then (s, Fail(SlotTaken))
      else
        PlaceCounts(s.board, realSlot, s.current);
        var placed := s.(board := s.board[realSlot := Some(s.current)]);
        (NextPlayer(placed), Pass)
  }
}
