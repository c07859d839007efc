# Tic-tac-toe game engine, modelled in Dafny

This project models the game engine of a two-player, 3x3 tic-tac-toe program
(`rust/src/main.rs`) and proves properties of it. The engine has four parts:

- **The state.** A `GameState` holds a board of nine cells, each empty or holding a
  player's marker, plus the player whose turn it is. A new game has an empty board
  with X to move.
- **`run_turn`.** It takes a 1-based slot. A slot outside 1..9 is rejected as
  `InvalidSlot`. An occupied cell is rejected as `SlotTaken`. Otherwise the current
  player's marker is written into the cell and the turn passes to the other player
  through `next_player`.
- **`check_winner`.** It scans a fixed table of eight winning lines: three rows,
  three columns, then two diagonals. The first line whose three cells hold the same
  player decides the winner. With no such line, a full board is a tie and any other
  board has no result yet.
- **The interactive loop.** It feeds slots to `run_turn` and stops once
  `check_winner` reports a result. It is modelled here only through its stopping rule.

Modules, one per file:

- `wrappers.dfy`, module `Wrappers`. `Option` stands for Rust's `Option`. `Outcome`
  stands for Rust's `Result<(), E>`.
- `board.dfy`, module `Board`. It holds `Player`, cells, the 9-cell `Board` type, the
  `WinnerPositions` table, `Opponent`, and the occupied and per-player cell counts.
  The table's entries have type `Slot` (1..9), so every `k - 1` index into the board
  is valid by typing.
- `engine.dfy`, module `Engine`. It holds `GameState`, `GameError`, `Winner`,
  `NewGame`, `IsAllSame` and `CheckWinner`. `CheckWinner` is built the way the source
  builds it: `Occupants` is the `filter_map` over a line's cells, `LineWinner` is the
  per-line length-and-sameness test, and `FirstWinner` is `filter_map(..).next()`. The
  module also holds `NextPlayer` and `RunTurn`. Its contracts are stated against
  reference predicates (`Holds`, `Complete`, `FirstComplete`, `NoLine`, `Full`).
- `reference.dfy`, module `Reference`. It is a second statement of the board's result
  with the eight lines written out cell by cell. It is proved equal to `CheckWinner`
  on every board.
- `session.dfy`, module `Session`. It covers sequences of turns: the X/O balance
  invariant, and the loop's stopping rule as the function `Start`.
- `scenarios.dfy`, module `Scenarios`. It holds the boards from the source's unit
  tests and the turn scenarios, each with its proved result.

`run_turn` mutates `&mut self` and returns `Result<(), GameError>`. Here it is the
pure function `RunTurn(s, slot)`. It returns the state afterwards together with the
`Outcome`. This way "a rejected turn changes nothing" is an equality the contract
states. The Rust `slot` is a `usize`. The model takes any `int` and applies the same
range check, so negative slots are rejected like any other slot outside 1..9.

The Rust enum variant `Winner::Player(p)` is named `Won(who)` here, so that it does
not clash with the type `Player`.

## Model

| member | source | states |
|---|---|---|
| `Board.Opponent` | rust/src/main.rs:197-204 | the player who moves next is never the player who just moved |
| `Board.OpponentInvolution` | rust/src/main.rs:197-204 | switching players twice gives back the same player |
| `Board.EmptyBoard` | rust/src/main.rs:57-62 | the default board has every one of its nine cells empty |
| `Board.Occupied` | rust/src/main.rs:168-168 | the occupied-cell count never exceeds the board length; it equals the length exactly when every cell is occupied, and it is zero exactly when every cell is empty |
| `Board.OccupiedSplits` | rust/src/main.rs:23-29 | every occupied cell holds X or O, so the occupied count is X's count plus O's count |
| `Board.PlaceCounts` | rust/src/main.rs:184-190 | writing a marker into an empty cell raises that player's count and the occupied count by one, and leaves the other player's count alone |
| `Engine.NewGame` | rust/src/main.rs:57-62 | a new game has no occupied cells, no X or O markers, and X to move |
| `Engine.HolderUnique` | rust/src/main.rs:151-164 | one line cannot be held by two different players |
| `Engine.IsAllSame` | rust/src/main.rs:69-74 | true exactly when every two elements are equal; an empty sequence counts as all the same |
| `Engine.Occupants` | rust/src/main.rs:153-157 | the markers collected from a line are at most as many as its cells; they are exactly as many only when every cell is occupied, and then they are the cells' markers in order |
| `Engine.LineWinner` | rust/src/main.rs:158-163 | a reported player holds all three cells of the line; nothing is reported exactly when no player holds the whole line, so empty cells never count |
| `Engine.FirstWinner` | rust/src/main.rs:151-164 | the scan reports nothing exactly when no remaining line is complete; otherwise it reports the holder of a complete line with no complete line before it |
| `Engine.CheckWinner` | rust/src/main.rs:150-177 | a winner is reported exactly when some line of the table is complete, and it is the holder of the first complete line in table order; a tie is reported exactly when no line is complete and the board is full; no result exactly when no line is complete and a cell is empty |
| `Engine.FirstWinnerIsFirstComplete` | rust/src/main.rs:151-175 | the player the table scan finds holds the first complete line of the table, and no other player holds that line |
| `Engine.WinnerIffLine` | rust/src/main.rs:150-177 | when the opponent holds no line, a player is reported the winner exactly when that player holds some line of the table |
| `Engine.NextPlayer` | rust/src/main.rs:197-204 | handing over the turn leaves the board untouched and changes the player to move |
| `Engine.NextPlayerTwice` | rust/src/main.rs:197-204 | handing over the turn twice gives back the same state |
| `Engine.RunTurn` | rust/src/main.rs:179-195 | a slot outside 1..9 is rejected as invalid with the state unchanged, and the range test comes first; an occupied cell is rejected as taken with the state unchanged, whoever is to move; a turn is accepted exactly when the slot is in range and its cell is empty; on success, that cell holds the old current player, every other cell is unchanged, the turn passes to the opponent, the occupied count grows by one, the mover's count grows by one, and the opponent's count stays the same |
| `Session.NewGameBalanced` | rust/src/main.rs:57-62 | a new game satisfies the alternation invariant: X's count minus O's count is 0 or 1, and X is to move exactly when the counts are equal |
| `Session.RunTurnKeepsBalance` | rust/src/main.rs:179-195 | every turn, accepted or rejected, keeps the alternation invariant |
| `Session.RunTurns` | rust/src/main.rs:110-121 | a sequence of turns never lowers the occupied count, and a sequence that leaves the count unchanged leaves the whole state unchanged |
| `Session.RunTurnsKeepBalance` | rust/src/main.rs:110-121 | any sequence of turns from a balanced state ends in a balanced state |
| `Session.ReachableIsBalanced` | rust/src/main.rs:207-211 | every state reachable from a new game by any sequence of slots satisfies the alternation invariant |
| `Session.Start` | rust/src/main.rs:89-136 | a result the loop reports is the engine's result on the final board; when the loop ends without a result, its final state is exactly the state after running every slot through `run_turn` in order, and that board is still undecided if the starting board was |
| `Session.StartRunsPrefix` | rust/src/main.rs:89-136 | the loop's final state is the state after running the turns of some prefix of the slots, in order |
| `Session.StartIgnoresRest` | rust/src/main.rs:110-135 | the loop stops at the first result: once a sequence of slots has produced a result, appending any further slots changes neither the final state nor the result |
| `Session.OnlyMoverCompletes` | rust/src/main.rs:184-192 | on a board with no complete line, an accepted turn can complete lines only for the player who just moved |
| `Session.StartWinnerIsLastMover` | rust/src/main.rs:110-135 | played from a board with no complete line, the loop only reports as winner the player who made the last move, and the player to move next holds no line |
| `Session.FullBoardEnds` | rust/src/main.rs:166-174 | a full board always yields a result, so the loop stops |
| `Reference.LineWinnerIsThree` | rust/src/main.rs:153-163 | the engine's per-line test equals comparing the line's three cells directly |
| `Reference.FirstWinnerUnrolled` | rust/src/main.rs:151-164 | the table scan equals the eight lines tried in order: rows, then columns, then diagonals |
| `Reference.CheckWinnerIsExplicit` | rust/src/main.rs:150-177 | on every board, the engine's result equals the cell-by-cell statement of the lines and the full-board test |
| `Scenarios.ResultByCells` | rust/src/main.rs:150-177 | a result read off a board's cells is the engine's result for that board |
| `Scenarios.HorizontalWin` | rust/src/main.rs:219-230 | the board with X on the top row and O on cells 4 and 5 gives X as winner |
| `Scenarios.HorizontalBroken` | rust/src/main.rs:232-233 | that board with O written over cell 3 gives no result |
| `Scenarios.VerticalWin` | rust/src/main.rs:237-248 | the board with X down the left column gives X as winner |
| `Scenarios.VerticalBroken` | rust/src/main.rs:250-251 | that board with O written over cell 7 gives no result |
| `Scenarios.DiagonalWin` | rust/src/main.rs:255-266 | the board with X on the 1-5-9 diagonal gives X as winner |
| `Scenarios.FullBoardTie` | rust/src/main.rs:270-281 | the full board X O X / O X O / O X O gives a tie |
| `Scenarios.FirstLineDecides` | rust/src/main.rs:151-164 | when O holds the middle row and X holds the bottom row, the earlier line in the table decides and O wins |
| `Scenarios.RejectedTurns` | rust/src/main.rs:179-188 | on a new game, slot 5 is accepted and passes the turn to O; slot 5 again is rejected as taken and changes nothing; slots 0 and 10 are rejected as invalid and X keeps the turn |

## Left out

- `Game::start` input handling (rust/src/main.rs:84-108): reading stdin, `trim_end`,
  `parse::<usize>` and every `println!`/`eprintln!` message are I/O. `Session.Start`
  takes the already-parsed slots. A line that fails `parse::<usize>` never reaches
  `run_turn`: the loop reports it and re-prompts with no state change, which is the
  same as skipping it (rust/src/main.rs:100-108). Input is trimmed only at the end
  (`trim_end`, rust/src/main.rs:100). A read error returns early.
  At end of input, `read_line` returns an empty line, parsing fails, and the loop
  re-prompts forever. The model instead stops when its slots run out, with no result.
- `Game::display_board` and `display_slot` (rust/src/main.rs:76-81,
  rust/src/main.rs:139-148): console rendering of the board.
- `impl Display for Player` (rust/src/main.rs:31-38): formatting only.
- `main` (rust/src/main.rs:207-212): it only builds a new game and starts the loop.
  The state it starts from is `Engine.NewGame`.
- The `Game` wrapper struct (rust/src/main.rs:65-67): it only holds a `GameState`. The
  model passes the `GameState` directly.
