# Coin jump: a verified model

`coinjump.py` solves Matt Parker's coin-jumping puzzle. Ten coins stand on a
triangular board of four rows, and one coin is removed. A coin may jump over
a neighbour onto an empty cell, and the coin jumped over is taken off. The
goal is to leave a single coin in as few *turns* as possible. A turn is a run of
jumps made by the same coin, one straight after another. The program searches
every jump sequence by backtracking on a single grid. An accumulator keeps
the cheapest solution. The program tries three starting removals and prints
the winning solution as chains of display numbers.

This Dafny project models that program, in six modules, one per file:

- `Geometry` (`geometry.dfy`): points, the six directions, `move`, the
  triangle test `in_bounds` and the display numbering `convert_point` with
  its inverse.
- `Grid` (`grid.dfy`): the board as a value `Board` (a jagged
  `seq<seq<bool>>`), `filled_points`, the coin count, `new_grid`, jumps and
  their legality, applying and undoing a jump, and solution paths. It also
  holds the class `CoinGrid`, the grid the search writes in place.
- `Turns` (`turns.dfy`): the turn count that `find_solutions` builds up
  jump by jump, and the turn-count law.
- `Moves` (`moves.dfy`): `chain_jumps` as a loop, proved against the reverse
  operation `Unchain`. It also proves that the moves are fully determined by
  the jumps.
- `Solver` (`solver.dfy`):
  - `find_solutions` as a recursive method over the mutable
    grid, the jump list and the accumulator.
  - `Reports`, a reference definition of the search: the exact sequence of
    calls the search makes to the accumulator. `FindSolutions` is proved to
    leave the accumulator in the state that folding those calls over it
    gives, and to restore the grid and the jump list.
  - Lemmas proving that the reports are exactly the solutions, with their
    turn counts.
  - `find_minimum`, whose result is proved to be the least turn count of
    any solution. The stored jumps solve the puzzle at that turn count, and
    their first jump lands on the removed coin.
  - The closing comment's solution, proved to be a five-turn solution.
- `Output` (`output.dfy`): the printed answer. Any well-chained grouping of
  that solution prints as `Remove 2` and `7-2, 1-4, 9-7-2, 6-1-4-6, 10-3`.

The run order of the program is kept. The search tries the occupied cells in
row-major order and the directions in the order of `directions`. The
accumulator sees the solutions in that order, and among equal turn counts it
keeps the first. `Reports` lists the solutions in this same order, so the
model determines which solution is stored, not just its turn count.

## Model

| member | source | states |
|---|---|---|
| Geometry.Move | coinjump.py:17-25 | the result lies exactly `d` away from `p` in each coordinate |
| Geometry.InBounds | coinjump.py:27-29 | the program's three-part test holds exactly when 0 <= x <= y < SIZE; y >= 0 follows |
| Geometry.MiddleInBounds | coinjump.py:76-84 | if a jump's start and landing cell are on the board, so is the cell jumped over, so `grid[mid_y][mid_x]` is in range |
| Geometry.ConvertPoint | coinjump.py:127-134 | every cell on the board gets a number in 1..10 |
| Geometry.PointOf | coinjump.py:127-134 | every number in 1..10 belongs to a cell on the board that ConvertPoint maps back to it |
| Geometry.ConvertPointBijective | coinjump.py:127-134 | PointOf undoes ConvertPoint, and two cells with the same number are the same cell |
| Geometry.OffsetOneToOne | coinjump.py:127-134 | two cells inside the triangle with the same column plus row offset are the same cell |
| Geometry.ConvertRow | coinjump.py:133-134 | a cell's number is one plus its column plus the number of cells in the rows above it |
| Grid.SetCell | coinjump.py:41 | writing one cell keeps the board's shape, gives that cell the new value and leaves every other cell as it was |
| Grid.CountSet | coinjump.py:88-90 | writing one cell changes the coin count by the difference between the new and old values of that cell |
| Grid.CountTrueSet | coinjump.py:88-90 | writing one entry of a row changes that row's coin count by the entry's change |
| Grid.CountFromSet | coinjump.py:88-90 | replacing one row changes the count by the difference of the two rows' counts |
| Grid.RowPoints | coinjump.py:47-50 | one point per coin of the row from column x onwards, each in that row, in range and occupied |
| Grid.RowPointsHas | coinjump.py:47-50 | every occupied column from x onwards is listed |
| Grid.RowPointsOrdered | coinjump.py:47-50 | a row's points come in strictly increasing column order |
| Grid.RowPointsStep | coinjump.py:47-50 | the listing of a row from column x is the cell at x, when it holds a coin, followed by the listing from x + 1 |
| Grid.RowPointsCons | coinjump.py:47-50 | if the listing from column x + 1 has increasing columns, so has the listing from x |
| Grid.ConsLeftOf | coinjump.py:47-50 | a point left of every point of a list with increasing columns keeps the columns increasing when put in front |
| Grid.FilledFrom | coinjump.py:47-50 | one point per coin from row y down, each of them occupied |
| Grid.FilledFromHas | coinjump.py:47-50 | every coin from row y down is listed |
| Grid.FilledFromOrdered | coinjump.py:47-50 | the listing is in row-major order: increasing row, then increasing column |
| Grid.FilledAll | coinjump.py:45-50 | every coin on a valid board is listed |
| Grid.Filled | coinjump.py:45-50 | `filled_points` lists exactly the occupied cells, and as many of them as there are coins |
| Grid.FilledOrdered | coinjump.py:45-50 | the listing is in row-major order and has no repeats |
| Grid.CountTrueNone | coinjump.py:66 | a row with no coin from column x onwards counts zero coins there |
| Grid.CountFromNone | coinjump.py:66 | a board with no coins counts zero from any row |
| Grid.OnlyCoin | coinjump.py:66 | a board whose only coin is at p counts one coin |
| Grid.FilledCounts | coinjump.py:66 | a board with a coin counts at least one |
| Grid.FullRow | coinjump.py:38 | `[True] * len` has length `len` and is true everywhere |
| Grid.FullRows | coinjump.py:38 | the list comprehension gives rows of lengths 1..n, all full |
| Grid.FullBoard | coinjump.py:38 | the full grid has the board's shape and a coin on every cell |
| Grid.CountTrueAll | coinjump.py:38 | a full row counts one coin per entry from x onwards |
| Grid.FullBoardCount | coinjump.py:38 | the full grid holds SIZE * (SIZE + 1) / 2 = 10 coins |
| Grid.NewBoard | coinjump.py:31-43 | `new_grid(missing)` has the board's shape, and a cell holds a coin exactly when it is on the board and is not `missing` |
| Grid.NewBoardCount | coinjump.py:31-43 | a new grid holds 10 - 1 = 9 coins |
| Grid.CoinGrid.constructor | coinjump.py:31-43 | building the rows one by one and then clearing `missing` gives NewBoard(missing) |
| Grid.CoinGrid.Put | coinjump.py:41 | an in-place write `grid[y][x] = v` leaves the grid as SetCell of the old one |
| Grid.JumpOfDirection | coinjump.py:75-85 | a direction that passes the program's test gives a legal jump whose middle is one step along |
| Grid.LegalCells | coinjump.py:83-85 | a legal jump's three cells are on the board, pairwise distinct, start and middle occupied, landing cell empty |
| Grid.ApplyJump | coinjump.py:88-90 | the three writes keep the board's shape, empty start and middle, fill the landing cell, lower the coin count by exactly one, and change no other cell |
| Grid.CoinGrid.MakeJump | coinjump.py:88-90 | the in-place writes leave the grid as ApplyJump of the old one |
| Grid.UndoJump | coinjump.py:99-101 | the restoring writes keep the board's shape |
| Grid.CoinGrid.UnmakeJump | coinjump.py:99-101 | the in-place restore leaves the grid as UndoJump of the old one |
| Grid.UndoApply | coinjump.py:88-101 | the restore undoes a jump exactly: the board is bit-for-bit the one before the jump |
| Grid.LegalNeedsTwoCoins | coinjump.py:63-85 | a board with a legal jump has at least two coins, so a one-coin board has no jumps to try |
| Grid.ApplyAll | coinjump.py:88-96 | a path of legal jumps keeps the board's shape and lowers the coin count by its length |
| Grid.SolutionCons | coinjump.py:88-96 | a legal jump followed by a solution of the board it leaves is a solution |
| Grid.SolutionTail | coinjump.py:88-96 | a non-empty solution starts with a legal jump, and its rest solves the board that jump leaves |
| Grid.SolutionLength | coinjump.py:63-96 | a solution has one jump fewer than the board has coins |
| Grid.FirstJumpEndsAtMissing | coinjump.py:158-159 | the first jump of any path from a new grid lands on the removed coin, the only empty cell |
| Turns.TurnsFrom | coinjump.py:93 | the turns counted never exceed the jumps made |
| Turns.TurnsFromSnoc | coinjump.py:93 | one more jump costs a turn exactly when it does not start where the previous jump ended |
| Turns.TurnCountLaw | coinjump.py:93 | from `last_end = None` the count is one plus the number of indices i > 0 where jump i does not start where jump i - 1 ended |
| Moves.Pairs | coinjump.py:144-149 | a chain of k >= 2 points is the k - 1 jumps between consecutive points, in order |
| Moves.UnchainSnoc | coinjump.py:141-153 | adding a move adds its jumps at the end |
| Moves.UnchainPrefix | coinjump.py:141-153 | the jumps of the first k + 1 moves are those of the first k followed by those of move k |
| Moves.PairsSnoc | coinjump.py:149 | extending a chain by a point adds the jump from its last point to that point |
| Moves.UnchainExtend | coinjump.py:149 | extending the last move by a point adds that one jump at the end |
| Moves.StartMove | coinjump.py:142-145 | starting a new chain on a break keeps the loop's invariant |
| Moves.NewMoveChained | coinjump.py:142-145 | a new chain that does not start where the last one ended keeps the moves well chained |
| Moves.ContinueMove | coinjump.py:146-149 | extending the current chain on a continuation keeps the loop's invariant |
| Moves.ChainJumps | coinjump.py:136-153 | the moves give back the jumps exactly, there is one move per turn, each move has at least two points, each new move begins at a break, and the moves write one point per jump plus one per move |
| Moves.ChainLengths | coinjump.py:141-151 | the moves' lengths sum to the number of jumps plus the number of moves |
| Moves.MoveNumbers | coinjump.py:155-156 | one display number per point of a move, in order |
| Moves.PairsConnected | coinjump.py:146-149 | within a move, each jump starts where the one before it ended |
| Moves.UnchainLast | coinjump.py:151 | the last jump ends at the last point of the last move |
| Moves.WellChainedFront | coinjump.py:136-153 | dropping the last move keeps the moves well chained |
| Moves.RunBreaks | coinjump.py:142-145 | a run of jumps by one coin restarts at a break |
| Moves.RunGrows | coinjump.py:146-149 | a continuation lengthens the current run by one |
| Moves.RunExact | coinjump.py:141-151 | the current run's length is exactly the number of trailing jumps that one coin makes in a row |
| Moves.RunOfMoves | coinjump.py:141-151 | the last move has exactly one point more than the current run has jumps |
| Moves.PairsInjective | coinjump.py:144-149 | two chains with the same jumps are equal |
| Moves.ChainsUnique | coinjump.py:136-153 | at most one well-chained grouping gives back a given jump list, so `chain_jumps`' result is the only one |
| Moves.NoMovesNoJumps | coinjump.py:136-153 | only the empty list of moves gives back no jumps |
| Solver.Offer | coinjump.py:106-112 | an accumulator call never raises the minimum, replaces the record only on a strictly smaller count and then stores exactly the count and the jumps given |
| Solver.FoldBound | coinjump.py:106-114 | after any run of calls the minimum is at most the start value and at most every reported count |
| Solver.FoldAppend | coinjump.py:117-118 | the calls of two searches in a row act as the first search's calls followed by the second's |
| Solver.FoldWitness | coinjump.py:106-114 | after a run of calls the record either is unchanged or is exactly one of the reports |
| Solver.Accumulator.constructor | coinjump.py:114 | the accumulator starts at the sentinel with no jumps stored |
| Solver.Accumulator.Accumulate | coinjump.py:106-112 | one call leaves the accumulator as Offer of its old state, holding a copy of the jumps |
| Solver.JumpList.constructor | coinjump.py:118 | the search starts with an empty jump list |
| Solver.JumpList.Append | coinjump.py:91 | appending adds the jump at the end |
| Solver.JumpList.Pop | coinjump.py:102 | popping returns the last jump and removes exactly it |
| Solver.BranchTaken | coinjump.py:83-96 | a direction that passes the test is a legal jump, and its branch reports what the search reports from the board it leaves, with the turn count raised when the jump starts a new turn |
| Solver.BranchRefused | coinjump.py:83-85 | a direction that fails the test reports nothing |
| Solver.ReportsSound | coinjump.py:52-102 | every report completes the jump list with a solution of the board, and carries its exact turn count |
| Solver.ReportsFromSound | coinjump.py:71-102 | every report of the cells from index i onwards is such a completion |
| Solver.ReportsDirsSound | coinjump.py:75-102 | every report of the directions from k onwards is such a completion |
| Solver.BranchSound | coinjump.py:76-102 | every report of one direction is such a completion |
| Solver.StepCompletes | coinjump.py:88-96 | a completion of the board after a legal jump, extended by that jump, completes the board before it |
| Solver.PrefixStep | coinjump.py:91 | a jump list that starts with the prefix and the new jump splits into those parts |
| Solver.TurnsCons | coinjump.py:93 | the first jump of a path costs a turn unless it starts at `last_end` |
| Solver.DirsContain | coinjump.py:75 | a report of direction k is among the reports of any earlier starting direction |
| Solver.FromContain | coinjump.py:71 | a report from cell i is among the reports from any earlier starting cell |
| Solver.FromUnfold | coinjump.py:71-75 | the reports from cell i are those of its directions followed by those of the later cells |
| Solver.LocateJump | coinjump.py:71-85 | every legal jump is tried: its start is listed and its direction is one of the six |
| Solver.BranchContains | coinjump.py:83-96 | the reports after a legal jump are among that direction's branch |
| Solver.TurnsOfStep | coinjump.py:93 | the turn count passed down plus the rest's turns equals the count from before the jump |
| Solver.StepReported | coinjump.py:71-96 | the reports after a legal jump are among the search's reports |
| Solver.StepInDirs | coinjump.py:75-96 | the reports after a legal jump are among its start's direction reports |
| Solver.ExtendReport | coinjump.py:71-96 | the reports after any legal jump are among the search's reports |
| Solver.SplitFirst | coinjump.py:91 | the prefix, the first jump and the rest form the whole list |
| Solver.ReportsComplete | coinjump.py:52-102 | every solution of the board is reported, with the jump list so far in front and its exact turn count |
| Solver.FindSolutions | coinjump.py:52-102 | the grid and jump list are exactly as on entry, and the accumulator has received exactly the search's reports in order |
| Solver.FoldFromFirst | coinjump.py:63-71 | with other than one coin left the search reports exactly what its loop over the cells reports |
| Solver.FoldOneCoin | coinjump.py:65-68 | with one coin left the search makes a single accumulator call, with the turns and jumps so far |
| Solver.FoldFromEnd | coinjump.py:71 | past the last cell nothing more is reported |
| Solver.TryStart | coinjump.py:71-102 | trying one cell restores the grid and jump list, and hands the accumulator exactly that cell's reports |
| Solver.DirsAdvance | coinjump.py:75 | after direction k the loop has left exactly the later directions' reports |
| Solver.FoldDirsDone | coinjump.py:75 | after the sixth direction nothing more is reported |
| Solver.FromAdvance | coinjump.py:71 | after cell i the loop has left exactly the later cells' reports |
| Solver.TryJump | coinjump.py:76-102 | one direction restores the grid and jump list, and hands the accumulator exactly that branch's reports |
| Solver.AllReportsSound | coinjump.py:117-118 | every report of the driver solves a new grid for one of the starts and carries its turn count |
| Solver.LastReported | coinjump.py:117-118 | the last start's reports are among the driver's reports |
| Solver.FrontReported | coinjump.py:117-118 | the earlier starts' reports are among the driver's reports |
| Solver.InFront | coinjump.py:117 | a start other than the last is among the earlier ones |
| Solver.AllReportsComplete | coinjump.py:117-118 | every solution from every start is reported with its turn count |
| Solver.DriverStep | coinjump.py:117-118 | one more start offers that start's reports on top of the accumulator so far |
| Solver.DriverIsLeast | coinjump.py:104-120 | the driver's minimum is at most the turn count of every solution from every start |
| Solver.BelowSentinel | coinjump.py:114 | every solution takes fewer turns than the sentinel 100, so the first solution found is always stored |
| Solver.DriverReportSolves | coinjump.py:104-120 | each driver report solves a new grid for one start, carries its turn count, and its first jump lands on the removed coin |
| Solver.DriverIsReached | coinjump.py:104-120 | when some start has a solution, the stored jumps solve a new grid for one start at exactly the stored turn count, and they begin on the removed coin |
| Solver.SearchStarts | coinjump.py:104-120 | over any list of removals: the minimum is at most every solution's turns, and when one exists, a solution reaching the minimum is stored whose first jump lands on the removed coin |
| Solver.DriverFinish | coinjump.py:104-120 | the driver's final state has the two properties of SearchStarts |
| Solver.FindMinimum | coinjump.py:104-120 | a solution is stored, it reaches the least turn count of any solution from the three starts, it begins on the removed coin, and that count is at most five |
| Solver.StepCoins | coinjump.py:83-90 | a jump between coin sets of the right shape is legal and leaves the board with the expected coins |
| Solver.CoinStepBy | coinjump.py:76-85 | a jump two steps along a direction, over a coin, onto an empty cell on the board, is such a step |
| Solver.CoinPathSolves | coinjump.py:63-96 | a chain of such steps ending on one coin is a solution of the board |
| Solver.CoinPathDone | coinjump.py:65-67 | a board holding exactly the last coin of a coin path is already a solution |
| Solver.CoinPathTail | coinjump.py:83-96 | the first jump of a coin path is a coin step between its first two coin sets, and the rest of the path is a coin path from the second set |
| Solver.KnownSteps | coinjump.py:162-164 | each jump of the closing comment's solution is such a step |
| Solver.KnownCoinPath | coinjump.py:162-164 | the comment's jumps form such a chain ending on one coin |
| Solver.KnownStart | coinjump.py:162-164 | the board with coin 2 removed holds the chain's first coin set |
| Solver.KnownPath | coinjump.py:162-164 | the comment's jumps solve the board with coin 2 removed |
| Solver.KnownTurns | coinjump.py:162-164 | the comment's solution takes five turns |
| Solver.FiveTurnSolution | coinjump.py:162-164 | some start has a five-turn solution |
| Output.PairsTwo | coinjump.py:144-145 | a move over two points is the one jump between them |
| Output.PairsThree | coinjump.py:144-149 | a move over three points is its two jumps in order |
| Output.PairsFour | coinjump.py:144-149 | a move over four points is its three jumps in order |
| Output.UnchainFive | coinjump.py:141-153 | the jumps of five moves are the jumps of each move in turn |
| Output.KnownUnchain | coinjump.py:162-164 | the comment's five moves are well chained and give back its jumps |
| Output.KnownOutput | coinjump.py:158-164 | any well-chained grouping of those jumps, including `chain_jumps`' result, prints as 7-2, 1-4, 9-7-2, 6-1-4-6, 10-3, and the first jump lands on coin 2 |

## Left out

- Printing (coinjump.py:159-160) and the module-level call at line 123 are
  not modelled. `format_move` is modelled only up to the list of display
  numbers (`MoveNumbers`). Its `str` and `'-'.join` formatting is left out.
- FindMinimum: does not prove that the minimum equals the printed
  solution's five turns. It proves the minimum is at most five and at most
  every solution's turn count. Proving "exactly five" would need the whole
  search tree evaluated, which is not a contract. The program's own closing
  comment shows a solution of five moves, and these are five turns under
  the program's turn count.
- The program tries only the three removals of coinjump.py:116-117.
  Nothing in it states or checks that they stand for every other removal
  up to symmetry, and the model does not either.
- The grid is a list of row lists that the program writes in place. It is
  modelled as a `CoinGrid` object whose field `cells` holds the Board value,
  and each write reassigns that field. Sharing rows between grids, or a grid
  with other names, is not modelled. The program never does either.
- `acc` keeps its state in attributes of a nested function. It is modelled
  as the `Accumulator` object that the search is handed. The program's
  `acc.jumps` does not exist until the first store, which is modelled as
  `None`. `FindMinimum` proves that a solution is always stored, so the
  program's `return acc.min_turns, acc.jumps` never meets a missing
  attribute.
- The copy `jumps[:]` is a value in the model, since sequences are values.
  Later pops of the search's list cannot reach the stored copy.
- In `chain_jumps` the name `chain` aliases the last element of `result`.
  The model writes the last element of `result` directly.
- Python's negative indexing is not modelled. `MiddleInBounds` shows that
  the grid is only read on the board. `FindMinimum` proves that the stored
  jump list is not empty, so `jumps[0][1]` at line 159 is in range.
- `num_turns + (start != last_end)` adds a boolean to an integer. It is
  modelled as adding 1 or 0.
- The loop of `find_minimum` over its three coins is modelled in two layers.
  `SearchStarts` runs the loop over any list of in-bounds removals.
  `FindMinimum` runs it on the program's three.
- The two nested loops of `find_solutions` are split into the methods
  `TryStart` (the loop over directions) and `TryJump` (one pass of it), with
  `FindSolutions` holding the loop over cells. They still try the same
  jumps, in the same order.
