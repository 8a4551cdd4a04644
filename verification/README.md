# Infinite tic-tac-toe engine, modelled in Dafny

The engine of `infinite-tic-tac-toe` plays tic-tac-toe on an unbounded board.
It keeps no board. Every mark is stored in the row index, and in the other three sparse line indexes unless an earlier family has already won on that move (`Engine.MoveFamily`):

| index | keyed by | position along the line |
|---|---|---|
| `rows` | y | x |
| `cols` | x | y |
| `diagonals` | y − x | x |
| `coDiagonals` | x + y | x |

A player wins on exactly `n` in a row.

The model is functional. `State` is a datatype of four `map<int, map<int, Player>>` indexes plus `winner`, `currentPlayer` and `n`, and every operation is a pure function. The modules follow the source:

- `GameState` (`state.dfy`): players, winner, points, the state and `defaultState`.
- `LineIds` (`line_ids.dfy`): `getDiagonalPoint`, `getCoDiagonalPoint` and the integer keys of the diagonal indexes.
- `RunCounter` (`run_counter.dfy`): `count`.
  - As a function, its two scans terminate on the number of keys still ahead.
  - As a method, its two `while` loops are modelled step for step.
- `Engine` (`engine.dfy`): `move`, stated as one generic per-family check that stops at the first family whose run is exactly `n`. It also holds `compose` of moves, as a left fold `Play` over a sequence of turns.
- `BoardModel` (`board.dfy`): an independent geometric reference.
  - The marks form one `map<Point, Player>` board.
  - A win is a block of exactly `n` marks through the new point in one of four directions.
  - The engine's win test is proved equal to this reference whenever the indexes agree.
- `BoardGame` (`board_game.dfy`): whole move sequences against the reference. While no move before the last completes a line, `Play` ends on the board the moves fill, with the winner the board names. A win then stands as long as the opponent completes nothing.
- `Reducer` (`reducer.dfy`): `isCurrentPointExists` and `reducer`.
- `Scenarios` (`scenarios.dfy`): every move sequence of `src/index.test.ts`, replayed on the model with its expected winner.

Turn order follows the code. The reducer reads `currentPlayer` to pick the mover, but neither the reducer nor `move` ever stores the new player. Every accepted move is therefore made by the same player. The model keeps this behaviour and proves it (`Reducer.ReduceRepeatsPlayer`). A separate alternating variant is proved to alternate (see Findings).

A won game is not closed either: `reducer` (src/index.ts:154-164) never reads `winner`, so a move onto a free point after a win is still accepted and written into the indexes. The model follows the code (`Reducer.MovesAfterWin`); `move` never clears the winner (`Engine.WinPersists`).

## Model

| member | source | states |
|---|---|---|
| GameState.DefaultState | src/index.ts:27-35 | `defaultState` records no mark at any point, has no winner (value 0), gives First (value 1) the turn, and asks for five in a row. |
| GameState.Opposite | src/index.ts:161-162 | The player who moves next differs from `p`, and its value in the `Player` enum (1 or -1) is the negation of `p`'s. |
| LineIds.DiagonalPoint | src/index.ts:37-39 | The identifier point lies on the column x = 0 and on the same "\" diagonal as the point (y − x is kept), so it is (0, y − x). |
| LineIds.CoDiagonalPoint | src/index.ts:41-43 | The identifier point lies on the column x = 0 and on the same "/" diagonal as the point (x + y is kept), so it is (0, x + y). |
| LineIds.KeysOfIdentifierPoints | src/index.ts:37-43 | The integer key of each diagonal index rebuilds its identifier point as `(0, key)`, so keying by the integer loses nothing the identifier point holds. That the "0,d" string is injective is taken as given (see Left out). |
| LineIds.SameDiagonal | src/index.ts:37-39 | Two points get the same diagonal point exactly when one is the other moved by `(k, k)`. |
| LineIds.SameCoDiagonal | src/index.ts:41-43 | Two points get the same anti-diagonal point exactly when one is the other moved by `(k, -k)`. |
| LineIds.DiagonalPointIdempotent | src/index.ts:37-39 | Mapping a diagonal point again gives the same point and the same key. |
| LineIds.CoDiagonalPointIdempotent | src/index.ts:41-43 | Mapping an anti-diagonal point again gives the same point and the same key. |
| LineIds.DiagonalsMeetOnce | src/index.ts:37-43 | Points with the same diagonal key and the same anti-diagonal key are equal, so the two diagonal indexes never confuse two points. |
| LineIds.DiagonalPointExamples | src/index.test.ts:4-11 | (1,1), (4,4) and (-3,-3) map to (0,0); (3,2), (1,0), (-1,-2) and (5,4) map to (0,-1). |
| LineIds.CoDiagonalPointExamples | src/index.test.ts:13-20 | (1,-1), (-1,1) and (2,-2) map to (0,0); (3,2), (6,-1) and (-1,6) map to (0,5). |
| RunCounter.LeftSteps | src/index.ts:64-67 | The left scan counts positions holding `p` and stops at the first one that does not. |
| RunCounter.RightSteps | src/index.ts:69-72 | The right scan counts positions holding `p` and stops at the first one that does not. |
| RunCounter.Count | src/index.ts:49-75 | On a position not holding `p` the result is -1. Otherwise it is the length of a maximal block of `p` through the position. |
| RunCounter.CountIsRunLength | src/index.ts:49-75 | `count` is the length of the unique maximal block through the position, whichever way that block is described. |
| RunCounter.CountReaches | src/index.ts:58-75 | On a held position, the count is `n` exactly when a maximal block of `n` positions passes through it. |
| RunCounter.CountBounds | src/index.ts:58-75 | On a held position the count is at least 1 and at most the number of keys on the line. |
| RunCounter.CountIsolated | src/index.ts:49-75 | A held position whose two neighbours do not hold `p` counts 1. |
| RunCounter.CountAgrees | src/index.ts:58-75 | `count` depends only on which positions hold `p`. |
| RunCounter.CountScan | src/index.ts:58-75 | The two `while` loops return the count, and -1 when the start position does not hold `p`. |
| Engine.Ensure | src/index.ts:87-101 | Line creation adds exactly the line through the new point, holding only the new mark when it was missing, and leaves every existing line as it was. |
| Engine.CreateLines | src/index.ts:78-101 | Each family gains the line through the point and no other; existing lines are kept as they were, and a new line holds only the new mark. `n`, `currentPlayer` and `winner` are unchanged. |
| Engine.Check | src/index.ts:103-147 | The per-family check keeps `n` and `currentPlayer`, sets the winner to `p` or keeps it, and leaves the families before the current one in the visiting order untouched. |
| Engine.CreatedLines | src/index.ts:78-101 | Line creation gives each family its line through the point, and changes no run the checks later measure. |
| Engine.CheckWinner | src/index.ts:105-147 | Checking from a family on makes `p` the winner exactly when a family from there on has a run of exactly `n`; otherwise the old winner is kept. |
| Engine.CheckIndex | src/index.ts:103-147 | Checking from a family on writes the mark into every family it reaches, where no earlier family won, and leaves the others alone. |
| Engine.Move | src/index.ts:77-148 | `move` keeps `n` and `currentPlayer`, sets the winner to `p` or keeps it, and always records `p` at the point in `rows`. |
| Engine.MoveShape | src/index.ts:77-148 | Every family ends up written when `move` reaches it, and otherwise holds only what line creation gave it. |
| Engine.MoveWinner | src/index.ts:105-147 | The winner becomes `p` exactly when some family's run through the point is exactly `n`; otherwise it is carried over and never reset. |
| Engine.MoveFamily | src/index.ts:77-137 | `move` adds the line through the point to each family and changes no other line and no other position. The point holds `p` when the family was reached or its line was new. |
| Engine.MoveRecordsRow | src/index.ts:87-89 | `rows` records every placed point, even on a winning move, and nothing else in it changes. |
| Engine.MoveWritesAll | src/index.ts:114-147 | A move that does not win leaves `p` at the point in all four indexes. |
| Engine.Play | src/index.ts:25 | Composing moves never changes `n` or `currentPlayer`. |
| Engine.PlayWinner | src/index.ts:25 | Over a sequence of moves, `n` and `currentPlayer` stay, and the final winner is the initial one or one of the movers. |
| Engine.WinPersists | src/index.ts:107-147 | Once a winner is set, no later move clears it. |
| BoardModel.BoardOf | src/index.ts:12-16 | The board read from `rows` has a point exactly where `rows` records a mark, with that mark. |
| BoardModel.RunTransfer | src/index.ts:58-75 | A line that reads the board along a direction has a count of `n` exactly when the board has a block of exactly `n` there. |
| BoardModel.WinsIffCompletes | src/index.ts:103-147 | When the indexes agree on the mover's marks, the engine's win test holds exactly when the new mark completes a block of exactly `n` on the board. |
| BoardModel.MoveExtendsBoard | src/index.ts:87-89 | After `move` the board is the old board with the new mark. |
| BoardModel.MoveKeepsConsistent | src/index.ts:87-147 | When every family is reached or creates its line, the indexes still agree on the mover's marks. |
| BoardModel.MoveKeepsOther | src/index.ts:77-148 | Onto a point the other player does not hold, `move` keeps the indexes agreeing on the other player's marks, even on an early return. |
| BoardModel.MoveMatchesBoard | src/index.ts:77-148 | `move` sets the winner exactly when the board's new mark completes a block of exactly `n`. A move that completes nothing keeps the indexes agreeing. |
| BoardModel.BlankIsConsistent | src/index.ts:27-35 | A state with no marks, like `defaultState`, has agreeing indexes and an empty board. |
| BoardGame.PlayFollowsBoard | src/index.ts:77-148 | From agreeing indexes, if no move before the last completes a line, `Play` ends on the filled board, with the winner the board names and the indexes agreeing on the non-mover's marks. |
| BoardGame.QuietBeforeLast | src/index.ts:105-147 | In such a sequence, no move before the last changes the winner. |
| BoardGame.WinStands | src/index.ts:107-147 | After `q` has won, moves in which the opponent completes nothing leave `q` the winner. |
| BoardGame.OpenWin | src/index.ts:105-147 | A sequence whose last move wins on the board for `q` ends with `q` the winner, on the filled board. |
| BoardGame.WinThenShut | src/index.ts:107-147 | A won game the opponent never answers with a line of their own keeps its winner to the end. |
| BoardGame.PlayAppend | src/index.ts:25 | Composing two sequences of moves is playing the second after the first. |
| Reducer.IsCurrentPointExists | src/index.ts:150-152 | The occupancy test holds exactly when the row index records a mark at the point. |
| Reducer.OccupiedIffOnBoard | src/index.ts:150-152 | `isCurrentPointExists` holds exactly when the point is on the board the marks form, so the reducer refuses exactly the points the board already holds. |
| Reducer.Reduce | src/index.ts:154-164 | The reducer never changes `currentPlayer` or `n`. |
| Reducer.ReduceCases | src/index.ts:154-164 | A move onto an occupied point returns the state unchanged. A move onto a free point places the opposite of `currentPlayer` there, and the winner follows `move`'s test. |
| Reducer.ReduceIdempotent | src/index.ts:157-159 | Repeating a move is a no-op. |
| Reducer.MovesAfterWin | src/index.ts:154-164 | After a win, a move onto a free point is still accepted: the state changes, the mark is placed, and the game stays won. |
| Reducer.ReplayKeepsMarks | src/index.ts:157-164 | Over any sequence of actions, a placed mark never changes, and `currentPlayer` stays. |
| Reducer.ReplayUsesOnePlayer | src/index.ts:161-164 | Every point the reducer fills holds the opposite of the starting `currentPlayer`. |
| Reducer.ReduceRepeatsPlayer | src/index.ts:161-164 | Two accepted moves in a row are made by the same player. |
| Reducer.EmptyBoardSecondMovesTwice | src/index.ts:27-35 | From an empty board with First to play, as in `defaultState`, the first two moves onto different points are both Second's. |
| Reducer.ReduceAlternating | src/index.ts:161-164 | The reducer with `currentPlayer` set to the mover keeps `n`. |
| Reducer.AlternatingTurnsAlternate | src/index.ts:161-164 | With the mover recorded, two accepted moves in a row are made by different players. |
| Scenarios.TestStart | src/index.test.ts:28 | `{ ...defaultState, n }` has agreeing indexes, an empty board, no winner and the given `n`. |
| Scenarios.FirstWinsByColsWithTwo | src/index.test.ts:27-36 | The moves end with First the winner, and no earlier move decides the game. |
| Scenarios.FirstWinsByRowsWithTwo | src/index.test.ts:42-51 | The moves end with First the winner, and no earlier move decides the game. |
| Scenarios.FirstWinsByDiagonalWithTwo | src/index.test.ts:57-66 | The moves end with First the winner, and no earlier move decides the game. |
| Scenarios.FirstWinsByCoDiagonalWithTwo | src/index.test.ts:72-81 | The moves end with First the winner, and no earlier move decides the game. |
| Scenarios.FirstWinsByRowsWithThree | src/index.test.ts:90-103 | The moves end with First the winner, and no earlier move decides the game. |
| Scenarios.SecondWinsByColsWithThree | src/index.test.ts:110-124 | The moves end with Second the winner, and no earlier move decides the game. |
| Scenarios.FirstWinsByDiagonalWithThree | src/index.test.ts:131-142 | The moves end with First the winner, and no earlier move decides the game. |
| Scenarios.SecondWinsByCoDiagonalWithThree | src/index.test.ts:149-161 | The moves end with Second the winner, and no earlier move decides the game. |
| Scenarios.FirstWinsByRowsFarOut | src/index.test.ts:171-184 | The moves end with First the winner, and no earlier move decides the game. |
| Scenarios.FirstWinsByRowsNegative | src/index.test.ts:192-205 | First wins on the third move and is still the winner after the four moves that follow. |
| Scenarios.SecondWinsByColsFarOut | src/index.test.ts:213-227 | The moves end with Second the winner, and no earlier move decides the game. |
| Scenarios.SecondWinsByColsNegative | src/index.test.ts:235-249 | The moves end with Second the winner, and no earlier move decides the game. |
| Scenarios.FirstWinsByDiagonalFarOut | src/index.test.ts:259-274 | A gapped diagonal does not win. First wins only when (4, 4) closes the block 3-4-5. |
| Scenarios.SecondWinsByCoDiagonalFarOut | src/index.test.ts:284-300 | A gapped anti-diagonal does not win. Second wins only when (1, 4) closes the block of three. |

## Left out

- Heap aliasing: `move` copies only the outer maps and then writes into inner records it shares with the previous state (src/index.ts:78-82, 104, 115, 126, 137). The model has value semantics, so the previous state's lines are never changed behind its back.
- String keys: `pointToString` and the "0,d" keys of the diagonal indexes are an injective encoding of an integer. The model keys those indexes by the integer (`LineIds.KeysOfIdentifierPoints`).
- JavaScript numbers: coordinates and `n` are unbounded integers. Record key coercion and non-integer coordinates are not modelled.
- The `default` branch of `reducer` (src/index.ts:165-166) cannot be reached with the one-variant `Action` type.
- The default parameter `prevState = defaultState` of `reducer` is not modelled: the state is always passed.
- `compose` is a generic higher-order helper. The model applies moves as a left fold over a sequence of turns (`Engine.Play`).
- The Jest test scaffolding (`describe`, `test.each`, `expect`). Each test becomes a lemma about the model.
- Scenarios.TestStart and the scenario lemmas: the scenarios are stated for any state with agreeing indexes, an empty board, no winner and the test's `n`. `TestStart` shows that `{ ...defaultState, n }` is such a state, so a test's literal start state is not named inside each scenario.

## Findings

| source | as written | input that shows it | evidently intended | confidence | as-written member | corrected member |
|---|---|---|---|---|---|---|
| src/index.ts:161-164 | `reducer` computes `nextPlayer` and moves with it, but never stores it in `currentPlayer` | from `defaultState`, Move (0,0) then Move (1,0): both points hold Second | `currentPlayer` becomes `nextPlayer` after an accepted move, so players alternate | medium, not executed | Reducer.EmptyBoardSecondMovesTwice | Reducer.AlternatingTurnsAlternate |
