/** Sequences of turns: the alternation invariant they keep, and the stopping rule of
    the interactive loop (feed slots to the engine until it reports a result). */
module Session {
  import opened Wrappers
  import opened Board
  import opened Engine

  /** X has placed as many markers as O or one more, and it is X's turn exactly
      when the counts are equal. */
  ghost predicate Balanced(s: GameState) {
    var xs := CountOf(s.board, X);
    var os := CountOf(s.board, O);
    && (xs == os || xs == os + 1)
    && (s.current == X <==> xs == os)
  }

  /** A new game is balanced. */
  lemma NewGameBalanced()
    ensures Balanced(NewGame())
  {
  }

  /** A turn, accepted or rejected, keeps the balance. */
  lemma RunTurnKeepsBalance(s: GameState, slot: int)
    requires Balanced(s)
    ensures Balanced(RunTurn(s, slot).0)
  {
  }

  /** The state after feeding `slots` to the engine in order; a rejected turn leaves
      the state as it was and the next slot is tried. */
  function RunTurns(s: GameState, slots: seq<int>): (r: GameState)
    decreases |slots|
    ensures Occupied(r.board) >= Occupied(s.board)
    ensures Occupied(r.board) == Occupied(s.board) ==> r == s
  {
    if slots == [] then s
    else RunTurns(RunTurn(s, slots[0]).0, slots[1..])
  }

  /** Every state reached from a balanced one by any sequence of turns is balanced. */
  lemma {:induction false} RunTurnsKeepBalance(s: GameState, slots: seq<int>)
    requires Balanced(s)
    ensures Balanced(RunTurns(s, slots))
    decreases |slots|
  {
    if slots != [] {
      RunTurnKeepsBalance(s, slots[0]);
      RunTurnsKeepBalance(RunTurn(s, slots[0]).0, slots[1..]);
    }
  }

  /** Every state reachable from a new game is balanced. */
  lemma ReachableIsBalanced(slots: seq<int>)
    ensures Balanced(RunTurns(NewGame(), slots))
  {
    NewGameBalanced();
    RunTurnsKeepBalance(NewGame(), slots);
  }

  /** The interactive loop with its input already parsed: each slot is tried in turn,
      a rejected slot is skipped, and after each accepted turn the loop stops as soon
      as the engine reports a result. Returns the final state and that result, or
      no result if the slots ran out first. */
  function Start(s: GameState, slots: seq<int>): (r: (GameState, Option<Winner>))
    ensures r.1.Some? ==> CheckWinner(r.0.board) == r.1
    ensures r.1.None? && CheckWinner(s.board).None? ==> CheckWinner(r.0.board).None?
    ensures r.1.None? ==> r.0 == RunTurns(s, slots)
    decreases |slots|
  {
    if slots == [] then (s, None)
    else
      var (s', outcome) := RunTurn(s, slots[0]);
      if outcome.Fail? then Start(s, slots[1..])
      else
        match CheckWinner(s'.board)
        case Some(w) => (s', Some(w))
        case None => Start(s', slots[1..])
  }

  /** Turns on a prefix `k + 1` of the slots are the first turn followed by the
      turns on a prefix `k` of the rest. */
  lemma RunTurnsPrefixStep(s: GameState, slots: seq<int>, k: nat)
    requires k < |slots|
    ensures RunTurns(s, slots[..k + 1]) == RunTurns(RunTurn(s, slots[0]).0, slots[1..][..k])
  {
    assert slots[..k + 1][0] == slots[0];
    assert slots[..k + 1][1..] == slots[1..][..k];
  }

  /** The loop's final state is the state after running the turns of some prefix of
      the slots, in order. */
  lemma {:induction false} StartRunsPrefix(s: GameState, slots: seq<int>)
    ensures exists k :: 0 <= k <= |slots| && Start(s, slots).0 == RunTurns(s, slots[..k])
    decreases |slots|
  {
    if slots == [] {
      assert Start(s, slots).0 == RunTurns(s, slots[..0]);
    } else {
      var (s', outcome) := RunTurn(s, slots[0]);
      if outcome.Fail? {
        StartRunsPrefix(s, slots[1..]);
        var k :| 0 <= k <= |slots[1..]| && Start(s, slots[1..]).0 == RunTurns(s, slots[1..][..k]);
        RunTurnsPrefixStep(s, slots, k);
        assert Start(s, slots).0 == RunTurns(s, slots[..k + 1]);
      } else if CheckWinner(s'.board).Some? {
        RunTurnsPrefixStep(s, slots, 0);
        assert Start(s, slots).0 == RunTurns(s, slots[..1]);
      } else {
        StartRunsPrefix(s', slots[1..]);
        var k :| 0 <= k <= |slots[1..]| && Start(s', slots[1..]).0 == RunTurns(s', slots[1..][..k]);
        RunTurnsPrefixStep(s, slots, k);
        assert Start(s, slots).0 == RunTurns(s, slots[..k + 1]);
      }
    }
  }

  /** One step of the loop: the first slot's turn, then the rest of the slots. */
  lemma StartStep(s: GameState, slots: seq<int>)
    requires slots != []
    ensures var (s', outcome) := RunTurn(s, slots[0]);
      Start(s, slots) ==
        if outcome.Fail? then Start(s, slots[1..])
        else if CheckWinner(s'.board).Some? then (s', CheckWinner(s'.board))
        else Start(s', slots[1..])
  {
  }

  /** The loop stops at the first result: once the slots `a` have produced one,
      whatever input follows is never read. */
  lemma {:induction false} StartIgnoresRest(s: GameState, a: seq<int>, c: seq<int>)
    requires Start(s, a).1.Some?
    ensures Start(s, a + c) == Start(s, a)
    decreases |a|
  {
    var ac := a + c;
    assert ac[0] == a[0] && ac[1..] == a[1..] + c;
    StartStep(s, a);
    StartStep(s, ac);
    var t := RunTurn(s, a[0]);
    if t.1.Fail? {
      StartIgnoresRest(s, a[1..], c);
    } else if CheckWinner(t.0.board).None? {
      StartIgnoresRest(t.0, a[1..], c);
    }
  }

  /** On a board with no complete line, a turn can complete lines only for the
      player who moves. */
  lemma OnlyMoverCompletes(s: GameState, slot: int)
    requires NoLine(s.board) && RunTurn(s, slot).1.Pass?
    ensures forall i, q ::
      0 <= i < |WinnerPositions| && Holds(RunTurn(s, slot).0.board, WinnerPositions[i], q) ==> q == s.current
  {
  }

  /** Played from a board with no complete line, the loop only ever reports the
      player who made the last move, and the player to move next holds no line. */
  lemma {:induction false} StartWinnerIsLastMover(s: GameState, slots: seq<int>)
    requires NoLine(s.board)
    ensures var r := Start(s, slots);
      r.1.Some? && r.1.value.Won? ==>
        && r.1.value.who == Opponent(r.0.current)
        && forall i :: 0 <= i < |WinnerPositions| ==> !Holds(r.0.board, WinnerPositions[i], r.0.current)
    decreases |slots|
  {
    if slots != [] {
      var (s', outcome) := RunTurn(s, slots[0]);
      if outcome.Fail? {
        StartWinnerIsLastMover(s, slots[1..]);
      } else {
        match CheckWinner(s'.board)
        case Some(w) =>
          OnlyMoverCompletes(s, slots[0]);
          OpponentInvolution(s.current);
        case None =>
          StartWinnerIsLastMover(s', slots[1..]);
      }
    }
  }

  /** A full board always ends the game. */
  lemma FullBoardEnds(b: Board)
    requires Full(b)
    ensures CheckWinner(b).Some?
  {
  }
}
