# Puzzle and game states: a Dafny model

This project models the concrete states of three small games from a Java
repository of puzzle and two-player game examples, and the console parser of
moves for one of them:

- **The three jugs puzzle** (`ThreeJugsState`). There are jugs of 3, 5 and 8
  litres. At the start the two smaller jugs are full. The goal is 4 litres in
  each of the two larger jugs. A move pours jug `from` into jug `to`, and the
  amount is `min(contents[from], capacity[to] - contents[to])`. The model is a
  class over an `int` array updated in place, with a pure specification
  `Poured`. It proves: water is conserved; every jug stays within its
  capacity; a pour between different jugs empties the source or fills the
  target; a pour changes the state exactly when it is legal and the two jugs
  differ. It also proves that the legal-move set is exactly the legal moves
  of the 3 × 3 domain, that it is legal to pour from a jug exactly when some
  other jug can take water, and that seven legal pours reach `[0, 4, 4]`.
- **The dummy coin-sliding game** (`DummyState`). The board is 5 × 5 with a
  coin on each corner. Players take turns moving a coin to an empty 8-adjacent
  square. Whoever moves a coin to the centre wins. The model is a class over a
  two-dimensional `bool` array, abstracted by the set of occupied squares.
  It proves: the king-move test is Chebyshev distance 1; the neighbour scan
  finds an empty neighbour exactly when one exists; a move clears the source
  and fills the target, so a legal move relocates exactly one coin and keeps
  the number of coins; the status names the player who made the last move.
- **The subtraction game** (`NimState`). Players take turns removing 1 to
  `limit` objects from a pile, and whoever takes the last object wins. The
  model is a class with the pile and the player as mutable fields and the
  limit as a constant. It proves: a legal move shrinks the pile without making
  it negative; no sequence of legal moves is longer than the initial pile; the
  game is over exactly when removing one object is no longer legal; the status
  names whoever took the last object.
- **The move parser** of the dummy game's console (`ConsoleGame.parseMove`).
  It trims the line, requires the form `\d+\s+\d+` and reads two ints. The
  model is a pair of pure functions. It proves: a line is rejected as
  malformed exactly when its trimmed form does not match the pattern; an
  accepted line yields the values of its two digit runs, in order, when both
  fit in an int, and fails with `InputMismatch` otherwise; padding is
  ignored; results are never negative; a square typed as `row col` reads back
  as that square.

The players and statuses (`Player`, `Status`) belong to a part of the
repository that is not part of this model. They are modelled as a two-value
datatype with `Opponent` and a three-value datatype.

Three behaviours of the code are worth knowing:

- States are mutated in place. `clone` gives the fresh array to the original
  and leaves the old array with the copy. `ThreeJugsState.Clone` models
  exactly that.
- The `makeMove` methods do not check legality. The model's `MakeMove`
  methods accept any move within the array bounds and state what happens in
  every case.
- The class comment of `ThreeJugsState` speaks of pouring into "another" jug.
  The code's `isLegalMove` does not require `from != to`, so a self-pour is
  legal whenever that jug is neither empty nor full, and `getLegalMoves`
  returns it. `PouredChangesIffLegal` proves such a move leaves the state
  unchanged.

Files: `game.dfy` (module `Game`), `jugs.dfy` (`ThreeJugs`), `dummy.dfy`
(`Dummy`), `nim.dfy` (`Nim`), `move_parser.dfy` (`DummyConsoleGame`).

## Model

| member | source | states |
|---|---|---|
| Game.Player.Opponent | src/main/java/games/nim/NimState.java:55 | the opponent of a player is the other player |
| Game.OpponentTwice | src/main/java/games/dummy/DummyState.java:99 | turns alternate: two turn changes give back the same player |
| Game.WinFor | src/main/java/games/nim/NimState.java:82 | a win status is never IN_PROGRESS and is PLAYER_1_WINS exactly for player 1 |
| Game.StatusOf | src/main/java/games/nim/NimState.java:78-83 | IN_PROGRESS exactly while the game is not over; otherwise a win for the opponent of the player to move, that is the player who moved last |
| ThreeJugs.AllMovesInDomain | src/main/java/puzzles/jugs/ThreeJugsState.java:22-31 | the move set holds exactly the pairs (i, j) with i and j in 0..2 |
| ThreeJugs.InitMoves | src/main/java/puzzles/jugs/ThreeJugsState.java:24-31 | the nested loops of the static initialiser produce exactly the nine moves of the domain |
| ThreeJugs.PouredConservesWater | src/main/java/puzzles/jugs/ThreeJugsState.java:76-78 | a pour keeps the total amount of water |
| ThreeJugs.PouredStaysWithinCapacity | src/main/java/puzzles/jugs/ThreeJugsState.java:76-78 | from contents within capacity, any pour (legal or not) leaves every jug between empty and full, and moves a non-negative amount |
| ThreeJugs.PouredTouchesOnlyItsJugs | src/main/java/puzzles/jugs/ThreeJugsState.java:77-78 | a jug that is neither source nor target keeps its content |
| ThreeJugs.PouredEmptiesOrFills | src/main/java/puzzles/jugs/ThreeJugsState.java:76-78 | between two different jugs, the source loses and the target gains min(source, free space), leaving the source empty or the target full |
| ThreeJugs.PouredChangesIffLegal | src/main/java/puzzles/jugs/ThreeJugsState.java:63-78 | a pour changes the contents if and only if the jugs differ, the source is non-empty and the target is not full; a self-pour or an illegal pour is a no-op |
| ThreeJugs.ThreeJugsState.constructor | src/main/java/puzzles/jugs/ThreeJugsState.java:44-46 | the initial contents are [3, 5, 0], within capacity, 8 litres in all |
| ThreeJugs.ThreeJugsState.Sharing | src/main/java/puzzles/jugs/ThreeJugsState.java:97-99 | the shallow copy made by `super.clone()` shares the contents array |
| ThreeJugs.ThreeJugsState.IsSolved | src/main/java/puzzles/jugs/ThreeJugsState.java:52-54 | solved if and only if the contents are exactly [0, 4, 4] |
| ThreeJugs.ThreeJugsState.IsLegalMove | src/main/java/puzzles/jugs/ThreeJugsState.java:63-66 | legal if and only if the source is non-empty and the target is below its capacity |
| ThreeJugs.ThreeJugsState.IsLegalToMoveFrom | src/main/java/puzzles/jugs/ThreeJugsState.java:115-117 | legal to move from a jug if and only if it is non-empty |
| ThreeJugs.ThreeJugsState.LegalMoveIsLegalFrom | src/main/java/puzzles/jugs/ThreeJugsState.java:63-66 | every legal move starts from a jug from which it is legal to move |
| ThreeJugs.ThreeJugsState.LegalFromIffSomeTarget | src/main/java/puzzles/jugs/ThreeJugsState.java:107-117 | in every valid state, a jug is legal to move from if and only if some other jug can legally receive from it |
| ThreeJugs.ThreeJugsState.MakeMove | src/main/java/puzzles/jugs/ThreeJugsState.java:75-79 | the new contents are the pour of the old contents, and the state stays within capacity with all the water |
| ThreeJugs.ThreeJugsState.GetLegalMoves | src/main/java/puzzles/jugs/ThreeJugsState.java:85-93 | the result is exactly the set of moves of the 3 × 3 domain that are legal |
| ThreeJugs.ThreeJugsState.Clone | src/main/java/puzzles/jugs/ThreeJugsState.java:96-105 | the copy keeps the old array; the original gets a fresh array with equal contents; both stay valid |
| ThreeJugs.SolvedInSevenMoves | src/main/java/puzzles/jugs/ThreeJugsState.java:9-15 | seven legal pours lead from the initial contents [3, 5, 0] to the goal [0, 4, 4] |
| Nim.LegalRemovalShrinksPile | src/main/java/games/nim/NimState.java:43-45 | a legal removal leaves a pile that is smaller and not negative |
| Nim.LegalRemovalRange | src/main/java/games/nim/NimState.java:43-45 | the legal removals are exactly 1 to min(limit, pile) |
| Nim.RemovingOneIsLegal | src/main/java/games/nim/NimState.java:44 | while objects remain, removing one object is legal |
| Nim.LegalPlayIsBounded | src/main/java/games/nim/NimState.java:53-56 | any sequence of legal moves is no longer than the initial pile and leaves a non-negative pile, so the game terminates |
| Nim.NimState.constructor | src/main/java/games/nim/NimState.java:28-35 | given positive arguments, the state holds them and player 1 moves first |
| Nim.NimState.Create | src/main/java/games/nim/NimState.java:28-35 | fails if and only if the pile or the limit is below 1; otherwise a fresh valid state with player 1 to move |
| Nim.NimState.IsLegalMove | src/main/java/games/nim/NimState.java:43-45 | legal if and only if 1 ≤ n ≤ min(limit, pile); a legal move shrinks the pile without making it negative |
| Nim.NimState.MakeMove | src/main/java/games/nim/NimState.java:53-56 | the pile shrinks by exactly n, the turn passes, the limit is unchanged, a legal move keeps the state valid, and emptying the pile makes the mover the winner |
| Nim.NimState.GetNextPlayer | src/main/java/games/nim/NimState.java:62-64 | the player to move; once the game is over, the status is a win for the other player and never for this one |
| Nim.NimState.IsGameOver | src/main/java/games/nim/NimState.java:70-72 | in a valid state, the game is over if and only if removing one object is not legal |
| Nim.NimState.GetStatus | src/main/java/games/nim/NimState.java:78-83 | IN_PROGRESS exactly while objects remain; otherwise a win for the player who took the last object |
| Dummy.IsOnBoardAt | src/main/java/games/dummy/DummyState.java:120-122 | a (row, col) pair is on the board if and only if it is at most two rows and two columns from the centre |
| Dummy.IsOnBoard | src/main/java/games/dummy/DummyState.java:116-118 | a position is on the board if and only if it is at most two rows and two columns from the centre |
| Dummy.IsKingMove | src/main/java/games/dummy/DummyState.java:127-131 | a king move if and only if the squares differ and their Chebyshev distance is 1 |
| Dummy.KingDistance | src/main/java/games/dummy/DummyState.java:128-130 | for non-negative dx and dy, dx + dy = 1 or dx · dy = 1 if and only if max(dx, dy) = 1 |
| Dummy.MovedKeepsCoinCount | src/main/java/games/dummy/DummyState.java:96-100 | moving a coin to an empty square keeps the number of coins |
| Dummy.CornerCount | src/main/java/games/dummy/DummyState.java:31 | there are four corner squares, so four coins |
| Dummy.DummyState.constructor | src/main/java/games/dummy/DummyState.java:29-33 | the coins are exactly on the four corners, and player 1 moves first |
| Dummy.DummyState.GetNextPlayer | src/main/java/games/dummy/DummyState.java:38-40 | the player to move; once the game is over, the status is a win for the other player and never for this one |
| Dummy.DummyState.IsGameOver | src/main/java/games/dummy/DummyState.java:46-48 | the game is over if and only if the centre square holds a coin |
| Dummy.DummyState.GetStatus | src/main/java/games/dummy/DummyState.java:54-59 | IN_PROGRESS exactly while the centre is empty; otherwise a win for the player who moved last |
| Dummy.DummyState.IsEmpty | src/main/java/games/dummy/DummyState.java:123-125 | an on-board square is empty if and only if it holds no coin |
| Dummy.DummyState.HasEmptyNeighbor | src/main/java/games/dummy/DummyState.java:102-114 | the scan returns true if and only if some on-board square a king move away is empty |
| Dummy.DummyState.IsLegalToMoveFrom | src/main/java/games/dummy/DummyState.java:68-70 | legal to move from a square if and only if it is on the board, holds a coin and has an empty neighbour |
| Dummy.DummyState.IsLegalMove | src/main/java/games/dummy/DummyState.java:80-86 | legal if and only if the source holds a coin, the target is an empty on-board square, and they are at Chebyshev distance 1; so source and target differ |
| Dummy.DummyState.LegalMoveStartsLegally | src/main/java/games/dummy/DummyState.java:68-86 | the source of every legal move is a square from which it is legal to move |
| Dummy.DummyState.MakeMove | src/main/java/games/dummy/DummyState.java:96-100 | the coin on the source goes to the target and every other square is unchanged; the turn passes; a legal move keeps the number of coins; a move onto the centre wins for the mover |
| DummyConsoleGame.TrimStart | src/main/java/games/dummy/ConsoleGame.java:28 | the result is a suffix that does not start with a trimmable character, and everything dropped is trimmable |
| DummyConsoleGame.TrimEnd | src/main/java/games/dummy/ConsoleGame.java:28 | the result is a prefix that does not end with a trimmable character, and everything dropped is trimmable |
| DummyConsoleGame.Trim | src/main/java/games/dummy/ConsoleGame.java:28 | the trimmed line is no longer than the line and neither starts nor ends with a character at or below U+0020 |
| DummyConsoleGame.TrimDropsOnlyTrimmable | src/main/java/games/dummy/ConsoleGame.java:28 | the trimmed line is a contiguous part of the line, and every character dropped before or after it is at or below U+0020 |
| DummyConsoleGame.CountWhile | src/main/java/games/dummy/ConsoleGame.java:29 | the length of the longest prefix whose characters all satisfy the test |
| DummyConsoleGame.ParseMove | src/main/java/games/dummy/ConsoleGame.java:27-34 | an accepted line yields a square with both coordinates between 0 and 2^31 - 1 |
| DummyConsoleGame.ParseTrimmed | src/main/java/games/dummy/ConsoleGame.java:29-33 | on the trimmed line, a result is accepted only with both coordinates between 0 and 2^31 - 1 |
| DummyConsoleGame.SplitIsUnique | src/main/java/games/dummy/ConsoleGame.java:29 | a line of the form `\d+\s+\d+` splits into digits, spaces and digits in only one way |
| DummyConsoleGame.ParseMoveRejectsIffNoMatch | src/main/java/games/dummy/ConsoleGame.java:28-31 | a line is rejected as malformed if and only if its trimmed form does not match `\d+\s+\d+` |
| DummyConsoleGame.ParseTrimmedRejectsIffNoMatch | src/main/java/games/dummy/ConsoleGame.java:29-31 | a trimmed line is rejected as malformed if and only if it does not match `\d+\s+\d+` |
| DummyConsoleGame.ParseTrimmedReadsBothRuns | src/main/java/games/dummy/ConsoleGame.java:32-33 | on a trimmed line, a match whose numbers fit in an int yields the position (first number, second number) |
| DummyConsoleGame.ParseTrimmedOverflows | src/main/java/games/dummy/ConsoleGame.java:32-33 | on a trimmed line, a match with a number above 2^31 - 1 fails with `InputMismatch` |
| DummyConsoleGame.ParseMoveOverflows | src/main/java/games/dummy/ConsoleGame.java:32-33 | a matching line with a number above 2^31 - 1 fails with `InputMismatch`, as `nextInt` throws |
| DummyConsoleGame.ParseMoveReadsBothRuns | src/main/java/games/dummy/ConsoleGame.java:32-33 | a matching line whose numbers fit in an int yields the position (first number, second number) |
| DummyConsoleGame.DecimalValue | src/main/java/games/dummy/ConsoleGame.java:33 | the value read from a run of n decimal digits is below 10^n |
| DummyConsoleGame.DigitChar | src/main/java/games/dummy/ConsoleGame.java:29 | the character of a decimal digit is matched by `\d` and has that digit's value |
| DummyConsoleGame.Decimal | src/main/java/games/dummy/ConsoleGame.java:22 | the decimal form of a number is a non-empty run of digits |
| DummyConsoleGame.DecimalRoundTrip | src/main/java/games/dummy/ConsoleGame.java:33 | reading the decimal form of a number gives that number back |
| DummyConsoleGame.ParseFormattedMove | src/main/java/games/dummy/ConsoleGame.java:18-34 | the line "row col" typed for any square with coordinates in the int range reads back as that square |
| DummyConsoleGame.TrimStartSkipsPrefix | src/main/java/games/dummy/ConsoleGame.java:28 | trimmable characters in front of a line do not change its trimmed start |
| DummyConsoleGame.TrimEndSkipsSuffix | src/main/java/games/dummy/ConsoleGame.java:28 | trimmable characters after a line do not change its trimmed end |
| DummyConsoleGame.TrimAcrossSuffix | src/main/java/games/dummy/ConsoleGame.java:28 | trimmable characters after a line do not change its trimmed form |
| DummyConsoleGame.ParseMoveIgnoresPadding | src/main/java/games/dummy/ConsoleGame.java:28 | padding a line with trimmable characters on either side does not change how it is read |

## Left out

- The breadth-first solver (`puzzle.solver.BreadthFirstSearch`, `solveAndPrintSolution`) is not part of this model. Its code is not among the modelled files. `ThreeJugs.SolvedInSevenMoves` only shows that the goal is reachable.
- The state interfaces (`TwoPhaseMoveState`, `BasicState`) and the console drivers (`TwoPhaseMoveGame`, `BasicGame`) are not part of this model. `Player` and `Status` are assumed to be a two-value type with `opponent()` and a three-value type.
- The `main` methods, every `toString`, and the nim console game are left out. They are console wiring and formatting.
- The order in which a `HashSet` is iterated is not modelled. `GetLegalMoves` picks moves from a mathematical set in any order, and its result is a set.
- ThreeJugs.ThreeJugsState.GetLegalMoves: iterates `AllMoves()`, not a `MOVES` field. `InitMoves` proves that the static initialiser builds exactly that set.
- `VOLUMES` is a public, mutable Java array. It is modelled as the constant sequence `[3, 5, 8]`, so changes to it by other code are not modelled.
- Indices out of range throw `ArrayIndexOutOfBoundsException` in the Java. The model makes these preconditions instead: jug numbers in 0..2 (`InDomain`), squares on the board for `DummyState.MakeMove` and `IsEmpty`.
- Dummy.DummyState.MakeMove: requires both squares on the board, so it does not model the partial update of the Java when `from` is on the board and `to` is not: there `from` is cleared first and only then the write to `to` throws, leaving the coin removed and the player unchanged.
- The `CloneNotSupportedException` branch of `clone` cannot be taken, because the class is cloneable. It is not modelled.
- The Java `boolean[][]` board is modelled as a `bool` two-dimensional array. Rows cannot be shared with other code, as in the Java, where the rows are private and never handed out.
- Nim.NimState.MakeMove: does not model 32-bit wrap-around of `numberOfObjects - n`. The model uses unbounded integers, so it differs from the Java only when an illegal `n` makes the subtraction overflow.
- Dummy.IsKingMove: does not model 32-bit overflow in the coordinate differences or in `Math.abs`. The Java only calls it with squares on the board, where no overflow can occur.
- `Scanner.nextInt` is modelled as reading a decimal digit run. A run above 2^31 - 1 gives the error `InputMismatch`, as `nextInt` would throw. Locale-specific number formats are not modelled, because the pattern check admits only ASCII digits and white space.
