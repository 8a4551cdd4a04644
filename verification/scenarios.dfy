/** The move sequences of src/index.test.ts, replayed on the model. Each
    scenario starts from a state whose board is empty and whose indexes
    agree, with no winner and the test's `n`; `TestStart` shows the tests'
    starting state is one. The board game decides every move. A mark
    with no mark of its player around it completes no line (`Isolated`);
    for every other turn the runs of marks through the new mark are named
    explicitly in coordinates. Games that open with the same turns share
    the lemmas about those turns. */
module Scenarios {
  import opened GameState
  import opened Engine
  import opened BoardModel
  import opened BoardGame

  /** The state every test starts from: `{ ...defaultState, n }`. */
  lemma TestStart(n: int)
    ensures Consistent(WithN(n)) && BoardOf(WithN(n)) == map[]
    ensures WithN(n).winner == NoWinner && WithN(n).n == n
  {
    BlankIsConsistent(WithN(n));
  }


  /** The turns of lines 27-36. */
  const ColsWithTwoGame: seq<Turn> :=
    [Turn(Point(0, 0), First), Turn(Point(1, 0), Second), Turn(Point(0, 1), First)]

  /** The lines each turn of `ColsWithTwoGame` completes. */
  lemma ColsWithTwoGameLines()
    ensures !CompletesLine(map[Point(0, 0) := First], Point(0, 0), First, 2)
    ensures !CompletesLine(map[Point(0, 0) := First, Point(1, 0) := Second], Point(1, 0), Second, 2)
    ensures CompletesLine(map[Point(0, 0) := First, Point(1, 0) := Second, Point(0, 1) := First], Point(0, 1), First, 2)
  {
    ColsWithTwoGameTurn0();
    ColsWithTwoGameTurn1();
    ColsWithTwoGameTurn2();
  }

  /** Turn 0 of `ColsWithTwoGame`: Point(0, 0) completes no line. */
  lemma ColsWithTwoGameTurn0()
    ensures !CompletesLine(map[Point(0, 0) := First], Point(0, 0), First, 2)
  {
    Isolated(map[Point(0, 0) := First], Point(0, 0), First, 2);
  }

  /** Turn 1 of `ColsWithTwoGame`: Point(1, 0) completes no line. */
  lemma ColsWithTwoGameTurn1()
    ensures !CompletesLine(map[Point(0, 0) := First, Point(1, 0) := Second], Point(1, 0), Second, 2)
  {
    Isolated(map[Point(0, 0) := First, Point(1, 0) := Second], Point(1, 0), Second, 2);
  }

  /** Turn 2 of `ColsWithTwoGame`: Point(0, 1) completes a line. */
  lemma ColsWithTwoGameTurn2()
    ensures CompletesLine(map[Point(0, 0) := First, Point(1, 0) := Second, Point(0, 1) := First], Point(0, 1), First, 2)
  {
    WalledCompletes(map[Point(0, 0) := First, Point(1, 0) := Second, Point(0, 1) := First], 0, 1, 0, 1, First, -1, [Point(0, 0), Point(0, 1)]);
  }

  /** On the board every turn goes onto a free point and none before the last completes a line. */
  lemma ColsWithTwoGameOpen()
    ensures OpenUntilLast(map[], 2, ColsWithTwoGame)
  {
    ColsWithTwoGameTurn0();
    ColsWithTwoGameTurn1();
    var t0 := Turn(Point(0, 0), First);
    var t1 := Turn(Point(1, 0), Second);
    var t2 := Turn(Point(0, 1), First);
    var b0: Board := map[];
    var b1 := b0[t0.at := t0.player];
    var b2 := b1[t1.at := t1.player];
    var b3 := b2[t2.at := t2.player];
    OpenStep(b2, 2, t2, []);
    OpenStep(b1, 2, t1, [t2]);
    OpenStep(b0, 2, t0, [t1, t2]);
    assert ColsWithTwoGame == [t0, t1, t2];
  }

  /** On the board the last turn wins for First. */
  lemma ColsWithTwoGameOutcome()
    ensures Outcome(map[], NoWinner, 2, ColsWithTwoGame) == Won(First)
  {
    ColsWithTwoGameLines();
    var t0 := Turn(Point(0, 0), First);
    var t1 := Turn(Point(1, 0), Second);
    var t2 := Turn(Point(0, 1), First);
    var b0: Board := map[];
    var b1 := b0[t0.at := t0.player];
    var b2 := b1[t1.at := t1.player];
    var b3 := b2[t2.at := t2.player];
    OutcomeStep(b0, NoWinner, 2, t0, [t1, t2]);
    OutcomeStep(b1, NoWinner, 2, t1, [t2]);
    OutcomeStep(b2, NoWinner, 2, t2, []);
    assert ColsWithTwoGame == [t0, t1, t2];
  }

  /** Lines 27-36: With n = 2, First completes the column x = 0. No earlier turn decides the game. */
  lemma FirstWinsByColsWithTwo(s: State)
    requires Consistent(s) && BoardOf(s) == map[]
    requires s.winner == NoWinner && s.n == 2
    ensures Play(s, ColsWithTwoGame[..2]).winner == NoWinner
    ensures Play(s, ColsWithTwoGame).winner == Won(First)
  {
    ColsWithTwoGameOpen();
    ColsWithTwoGameOutcome();
    PlayFollowsBoard(s, ColsWithTwoGame);
    QuietBeforeLast(s, ColsWithTwoGame);
  }

  /** The turns of lines 42-51. */
  const RowsWithTwoGame: seq<Turn> :=
    [Turn(Point(0, 0), First), Turn(Point(0, 1), Second), Turn(Point(1, 0), First)]

  /** The lines each turn of `RowsWithTwoGame` completes. */
  lemma RowsWithTwoGameLines()
    ensures !CompletesLine(map[Point(0, 0) := First], Point(0, 0), First, 2)
    ensures !CompletesLine(map[Point(0, 0) := First, Point(0, 1) := Second], Point(0, 1), Second, 2)
    ensures CompletesLine(map[Point(0, 0) := First, Point(0, 1) := Second, Point(1, 0) := First], Point(1, 0), First, 2)
  {
    ColsWithTwoGameTurn0();
    RowsWithTwoGameTurn1();
    RowsWithTwoGameTurn2();
  }

  /** Turn 1 of `RowsWithTwoGame`: Point(0, 1) completes no line. */
  lemma RowsWithTwoGameTurn1()
    ensures !CompletesLine(map[Point(0, 0) := First, Point(0, 1) := Second], Point(0, 1), Second, 2)
  {
    Isolated(map[Point(0, 0) := First, Point(0, 1) := Second], Point(0, 1), Second, 2);
  }

  /** Turn 2 of `RowsWithTwoGame`: Point(1, 0) completes a line. */
  lemma RowsWithTwoGameTurn2()
    ensures CompletesLine(map[Point(0, 0) := First, Point(0, 1) := Second, Point(1, 0) := First], Point(1, 0), First, 2)
  {
    WalledCompletes(map[Point(0, 0) := First, Point(0, 1) := Second, Point(1, 0) := First], 1, 0, 1, 0, First, -1, [Point(0, 0), Point(1, 0)]);
  }

  /** On the board every turn goes onto a free point and none before the last completes a line. */
  lemma RowsWithTwoGameOpen()
    ensures OpenUntilLast(map[], 2, RowsWithTwoGame)
  {
    ColsWithTwoGameTurn0();
    RowsWithTwoGameTurn1();
    var t0 := Turn(Point(0, 0), First);
    var t1 := Turn(Point(0, 1), Second);
    var t2 := Turn(Point(1, 0), First);
    var b0: Board := map[];
    var b1 := b0[t0.at := t0.player];
    var b2 := b1[t1.at := t1.player];
    var b3 := b2[t2.at := t2.player];
    OpenStep(b2, 2, t2, []);
    OpenStep(b1, 2, t1, [t2]);
    OpenStep(b0, 2, t0, [t1, t2]);
    assert RowsWithTwoGame == [t0, t1, t2];
  }

  /** On the board the last turn wins for First. */
  lemma RowsWithTwoGameOutcome()
    ensures Outcome(map[], NoWinner, 2, RowsWithTwoGame) == Won(First)
  {
    RowsWithTwoGameLines();
    var t0 := Turn(Point(0, 0), First);
    var t1 := Turn(Point(0, 1), Second);
    var t2 := Turn(Point(1, 0), First);
    var b0: Board := map[];
    var b1 := b0[t0.at := t0.player];
    var b2 := b1[t1.at := t1.player];
    var b3 := b2[t2.at := t2.player];
    OutcomeStep(b0, NoWinner, 2, t0, [t1, t2]);
    OutcomeStep(b1, NoWinner, 2, t1, [t2]);
    OutcomeStep(b2, NoWinner, 2, t2, []);
    assert RowsWithTwoGame == [t0, t1, t2];
  }

  /** Lines 42-51: With n = 2, First completes the row y = 0. No earlier turn decides the game. */
  lemma FirstWinsByRowsWithTwo(s: State)
    requires Consistent(s) && BoardOf(s) == map[]
    requires s.winner == NoWinner && s.n == 2
    ensures Play(s, RowsWithTwoGame[..2]).winner == NoWinner
    ensures Play(s, RowsWithTwoGame).winner == Won(First)
  {
    RowsWithTwoGameOpen();
    RowsWithTwoGameOutcome();
    PlayFollowsBoard(s, RowsWithTwoGame);
    QuietBeforeLast(s, RowsWithTwoGame);
  }

  /** The turns of lines 57-66. */
  const DiagonalWithTwoGame: seq<Turn> :=
    [Turn(Point(0, 0), First), Turn(Point(0, 1), Second), Turn(Point(1, 1), First)]

  /** The lines each turn of `DiagonalWithTwoGame` completes. */
  lemma DiagonalWithTwoGameLines()
    ensures !CompletesLine(map[Point(0, 0) := First], Point(0, 0), First, 2)
    ensures !CompletesLine(map[Point(0, 0) := First, Point(0, 1) := Second], Point(0, 1), Second, 2)
    ensures CompletesLine(map[Point(0, 0) := First, Point(0, 1) := Second, Point(1, 1) := First], Point(1, 1), First, 2)
  {
    ColsWithTwoGameTurn0();
    RowsWithTwoGameTurn1();
    DiagonalWithTwoGameTurn2();
  }

  /** Turn 2 of `DiagonalWithTwoGame`: Point(1, 1) completes a line. */
  lemma DiagonalWithTwoGameTurn2()
    ensures CompletesLine(map[Point(0, 0) := First, Point(0, 1) := Second, Point(1, 1) := First], Point(1, 1), First, 2)
  {
    WalledCompletes(map[Point(0, 0) := First, Point(0, 1) := Second, Point(1, 1) := First], 1, 1, 1, 1, First, -1, [Point(0, 0), Point(1, 1)]);
  }

  /** On the board every turn goes onto a free point and none before the last completes a line. */
  lemma DiagonalWithTwoGameOpen()
    ensures OpenUntilLast(map[], 2, DiagonalWithTwoGame)
  {
    ColsWithTwoGameTurn0();
    RowsWithTwoGameTurn1();
    var t0 := Turn(Point(0, 0), First);
    var t1 := Turn(Point(0, 1), Second);
    var t2 := Turn(Point(1, 1), First);
    var b0: Board := map[];
    var b1 := b0[t0.at := t0.player];
    var b2 := b1[t1.at := t1.player];
    var b3 := b2[t2.at := t2.player];
    OpenStep(b2, 2, t2, []);
    OpenStep(b1, 2, t1, [t2]);
    OpenStep(b0, 2, t0, [t1, t2]);
    assert DiagonalWithTwoGame == [t0, t1, t2];
  }

  /** On the board the last turn wins for First. */
  lemma DiagonalWithTwoGameOutcome()
    ensures Outcome(map[], NoWinner, 2, DiagonalWithTwoGame) == Won(First)
  {
    DiagonalWithTwoGameLines();
    var t0 := Turn(Point(0, 0), First);
    var t1 := Turn(Point(0, 1), Second);
    var t2 := Turn(Point(1, 1), First);
    var b0: Board := map[];
    var b1 := b0[t0.at := t0.player];
    var b2 := b1[t1.at := t1.player];
    var b3 := b2[t2.at := t2.player];
    OutcomeStep(b0, NoWinner, 2, t0, [t1, t2]);
    OutcomeStep(b1, NoWinner, 2, t1, [t2]);
    OutcomeStep(b2, NoWinner, 2, t2, []);
    assert DiagonalWithTwoGame == [t0, t1, t2];
  }

  /** Lines 57-66: With n = 2, First completes the diagonal through (0, 0) and (1, 1). No earlier turn decides the game. */
  lemma FirstWinsByDiagonalWithTwo(s: State)
    requires Consistent(s) && BoardOf(s) == map[]
    requires s.winner == NoWinner && s.n == 2
    ensures Play(s, DiagonalWithTwoGame[..2]).winner == NoWinner
    ensures Play(s, DiagonalWithTwoGame).winner == Won(First)
  {
    DiagonalWithTwoGameOpen();
    DiagonalWithTwoGameOutcome();
    PlayFollowsBoard(s, DiagonalWithTwoGame);
    QuietBeforeLast(s, DiagonalWithTwoGame);
  }

  /** The turns of lines 72-81. */
  const CoDiagonalWithTwoGame: seq<Turn> :=
    [Turn(Point(1, 0), First), Turn(Point(0, 0), Second), Turn(Point(0, 1), First)]

  /** The lines each turn of `CoDiagonalWithTwoGame` completes. */
  lemma CoDiagonalWithTwoGameLines()
    ensures !CompletesLine(map[Point(1, 0) := First], Point(1, 0), First, 2)
    ensures !CompletesLine(map[Point(1, 0) := First, Point(0, 0) := Second], Point(0, 0), Second, 2)
    ensures CompletesLine(map[Point(1, 0) := First, Point(0, 0) := Second, Point(0, 1) := First], Point(0, 1), First, 2)
  {
    CoDiagonalWithTwoGameTurn0();
    CoDiagonalWithTwoGameTurn1();
    CoDiagonalWithTwoGameTurn2();
  }

  /** Turn 0 of `CoDiagonalWithTwoGame`: Point(1, 0) completes no line. */
  lemma CoDiagonalWithTwoGameTurn0()
    ensures !CompletesLine(map[Point(1, 0) := First], Point(1, 0), First, 2)
  {
    Isolated(map[Point(1, 0) := First], Point(1, 0), First, 2);
  }

  /** Turn 1 of `CoDiagonalWithTwoGame`: Point(0, 0) completes no line. */
  lemma CoDiagonalWithTwoGameTurn1()
    ensures !CompletesLine(map[Point(1, 0) := First, Point(0, 0) := Second], Point(0, 0), Second, 2)
  {
    Isolated(map[Point(1, 0) := First, Point(0, 0) := Second], Point(0, 0), Second, 2);
  }

  /** Turn 2 of `CoDiagonalWithTwoGame`: Point(0, 1) completes a line. */
  lemma CoDiagonalWithTwoGameTurn2()
    ensures CompletesLine(map[Point(1, 0) := First, Point(0, 0) := Second, Point(0, 1) := First], Point(0, 1), First, 2)
  {
    WalledCompletes(map[Point(1, 0) := First, Point(0, 0) := Second, Point(0, 1) := First], 0, 1, 1, -1, First, 0, [Point(0, 1), Point(1, 0)]);
  }

  /** On the board every turn goes onto a free point and none before the last completes a line. */
  lemma CoDiagonalWithTwoGameOpen()
    ensures OpenUntilLast(map[], 2, CoDiagonalWithTwoGame)
  {
    CoDiagonalWithTwoGameTurn0();
    CoDiagonalWithTwoGameTurn1();
    var t0 := Turn(Point(1, 0), First);
    var t1 := Turn(Point(0, 0), Second);
    var t2 := Turn(Point(0, 1), First);
    var b0: Board := map[];
    var b1 := b0[t0.at := t0.player];
    var b2 := b1[t1.at := t1.player];
    var b3 := b2[t2.at := t2.player];
    OpenStep(b2, 2, t2, []);
    OpenStep(b1, 2, t1, [t2]);
    OpenStep(b0, 2, t0, [t1, t2]);
    assert CoDiagonalWithTwoGame == [t0, t1, t2];
  }

  /** On the board the last turn wins for First. */
  lemma CoDiagonalWithTwoGameOutcome()
    ensures Outcome(map[], NoWinner, 2, CoDiagonalWithTwoGame) == Won(First)
  {
    CoDiagonalWithTwoGameLines();
    var t0 := Turn(Point(1, 0), First);
    var t1 := Turn(Point(0, 0), Second);
    var t2 := Turn(Point(0, 1), First);
    var b0: Board := map[];
    var b1 := b0[t0.at := t0.player];
    var b2 := b1[t1.at := t1.player];
    var b3 := b2[t2.at := t2.player];
    OutcomeStep(b0, NoWinner, 2, t0, [t1, t2]);
    OutcomeStep(b1, NoWinner, 2, t1, [t2]);
    OutcomeStep(b2, NoWinner, 2, t2, []);
    assert CoDiagonalWithTwoGame == [t0, t1, t2];
  }

  /** Lines 72-81: With n = 2, First completes the anti-diagonal through (1, 0) and (0, 1). No earlier turn decides the game. */
  lemma FirstWinsByCoDiagonalWithTwo(s: State)
    requires Consistent(s) && BoardOf(s) == map[]
    requires s.winner == NoWinner && s.n == 2
    ensures Play(s, CoDiagonalWithTwoGame[..2]).winner == NoWinner
    ensures Play(s, CoDiagonalWithTwoGame).winner == Won(First)
  {
    CoDiagonalWithTwoGameOpen();
    CoDiagonalWithTwoGameOutcome();
    PlayFollowsBoard(s, CoDiagonalWithTwoGame);
    QuietBeforeLast(s, CoDiagonalWithTwoGame);
  }

  /** The turns of lines 90-103. */
  const RowsWithThreeGame: seq<Turn> :=
    [Turn(Point(0, 0), First), Turn(Point(1, 1), Second), Turn(Point(1, 0), First), Turn(Point(2, 0), Second), Turn(Point(0, 2), First), Turn(Point(2, 1), Second), Turn(Point(0, 1), First)]

  /** The lines each turn of `RowsWithThreeGame` completes. */
  lemma RowsWithThreeGameLines()
    ensures !CompletesLine(map[Point(0, 0) := First], Point(0, 0), First, 3)
    ensures !CompletesLine(map[Point(0, 0) := First, Point(1, 1) := Second], Point(1, 1), Second, 3)
    ensures !CompletesLine(map[Point(0, 0) := First, Point(1, 1) := Second, Point(1, 0) := First], Point(1, 0), First, 3)
    ensures !CompletesLine(map[Point(0, 0) := First, Point(1, 1) := Second, Point(1, 0) := First, Point(2, 0) := Second], Point(2, 0), Second, 3)
    ensures !CompletesLine(map[Point(0, 0) := First, Point(1, 1) := Second, Point(1, 0) := First, Point(2, 0) := Second, Point(0, 2) := First], Point(0, 2), First, 3)
    ensures !CompletesLine(map[Point(0, 0) := First, Point(1, 1) := Second, Point(1, 0) := First, Point(2, 0) := Second, Point(0, 2) := First, Point(2, 1) := Second], Point(2, 1), Second, 3)
    ensures CompletesLine(map[Point(0, 0) := First, Point(1, 1) := Second, Point(1, 0) := First, Point(2, 0) := Second, Point(0, 2) := First, Point(2, 1) := Second, Point(0, 1) := First], Point(0, 1), First, 3)
  {
    RowsWithThreeGameTurn0();
    RowsWithThreeGameTurn1();
    RowsWithThreeGameTurn2();
    RowsWithThreeGameTurn3();
    RowsWithThreeGameTurn4();
    RowsWithThreeGameTurn5();
    RowsWithThreeGameTurn6();
  }

  /** Turn 0 of `RowsWithThreeGame`: Point(0, 0) completes no line. */
  lemma RowsWithThreeGameTurn0()
    ensures !CompletesLine(map[Point(0, 0) := First], Point(0, 0), First, 3)
  {
    Isolated(map[Point(0, 0) := First], Point(0, 0), First, 3);
  }

  /** Turn 1 of `RowsWithThreeGame`: Point(1, 1) completes no line. */
  lemma RowsWithThreeGameTurn1()
    ensures !CompletesLine(map[Point(0, 0) := First, Point(1, 1) := Second], Point(1, 1), Second, 3)
  {
    Isolated(map[Point(0, 0) := First, Point(1, 1) := Second], Point(1, 1), Second, 3);
  }

  /** The runs of marks through turn 2 of `RowsWithThreeGame`, along the row and the column. */
  lemma RowsWithThreeGameStraightRuns2()
    ensures Walled(map[Point(0, 0) := First, Point(1, 1) := Second, Point(1, 0) := First], 1, 0, 1, 0, First, -1, [Point(0, 0), Point(1, 0)])
    ensures Walled(map[Point(0, 0) := First, Point(1, 1) := Second, Point(1, 0) := First], 1, 0, 0, 1, First, 0, [Point(1, 0)])
  {
  }

  /** The runs of marks through turn 2 of `RowsWithThreeGame`, along the two diagonals. */
  lemma RowsWithThreeGameSlantedRuns2()
    ensures Walled(map[Point(0, 0) := First, Point(1, 1) := Second, Point(1, 0) := First], 1, 0, 1, 1, First, 0, [Point(1, 0)])
    ensures Walled(map[Point(0, 0) := First, Point(1, 1) := Second, Point(1, 0) := First], 1, 0, 1, -1, First, 0, [Point(1, 0)])
  {
  }

  /** Turn 2 of `RowsWithThreeGame`: Point(1, 0) completes no line. */
  lemma RowsWithThreeGameTurn2()
    ensures !CompletesLine(map[Point(0, 0) := First, Point(1, 1) := Second, Point(1, 0) := First], Point(1, 0), First, 3)
  {
    RowsWithThreeGameStraightRuns2();
    RowsWithThreeGameSlantedRuns2();
    WalledSpans(map[Point(0, 0) := First, Point(1, 1) := Second, Point(1, 0) := First], 1, 0, First, 3,
      -1, [Point(0, 0), Point(1, 0)], 0, [Point(1, 0)], 0, [Point(1, 0)], 0, [Point(1, 0)]);
  }

  /** The runs of marks through turn 3 of `RowsWithThreeGame`, along the row and the column. */
  lemma RowsWithThreeGameStraightRuns3()
    ensures Walled(map[Point(0, 0) := First, Point(1, 1) := Second, Point(1, 0) := First, Point(2, 0) := Second], 2, 0, 1, 0, Second, 0, [Point(2, 0)])
    ensures Walled(map[Point(0, 0) := First, Point(1, 1) := Second, Point(1, 0) := First, Point(2, 0) := Second], 2, 0, 0, 1, Second, 0, [Point(2, 0)])
  {
  }

  /** The runs of marks through turn 3 of `RowsWithThreeGame`, along the two diagonals. */
  lemma RowsWithThreeGameSlantedRuns3()
    ensures Walled(map[Point(0, 0) := First, Point(1, 1) := Second, Point(1, 0) := First, Point(2, 0) := Second], 2, 0, 1, 1, Second, 0, [Point(2, 0)])
    ensures Walled(map[Point(0, 0) := First, Point(1, 1) := Second, Point(1, 0) := First, Point(2, 0) := Second], 2, 0, 1, -1, Second, -1, [Point(1, 1), Point(2, 0)])
  {
  }

  /** Turn 3 of `RowsWithThreeGame`: Point(2, 0) completes no line. */
  lemma RowsWithThreeGameTurn3()
    ensures !CompletesLine(map[Point(0, 0) := First, Point(1, 1) := Second, Point(1, 0) := First, Point(2, 0) := Second], Point(2, 0), Second, 3)
  {
    RowsWithThreeGameStraightRuns3();
    RowsWithThreeGameSlantedRuns3();
    WalledSpans(map[Point(0, 0) := First, Point(1, 1) := Second, Point(1, 0) := First, Point(2, 0) := Second], 2, 0, Second, 3,
      0, [Point(2, 0)], 0, [Point(2, 0)], 0, [Point(2, 0)], -1, [Point(1, 1), Point(2, 0)]);
  }

  /** Turn 4 of `RowsWithThreeGame`: Point(0, 2) completes no line. */
  lemma RowsWithThreeGameTurn4()
    ensures !CompletesLine(map[Point(0, 0) := First, Point(1, 1) := Second, Point(1, 0) := First, Point(2, 0) := Second, Point(0, 2) := First], Point(0, 2), First, 3)
  {
    Isolated(map[Point(0, 0) := First, Point(1, 1) := Second, Point(1, 0) := First, Point(2, 0) := Second, Point(0, 2) := First], Point(0, 2), First, 3);
  }

  /** The runs of marks through turn 5 of `RowsWithThreeGame`, along the row and the column. */
  lemma RowsWithThreeGameStraightRuns5()
    ensures Walled(map[Point(0, 0) := First, Point(1, 1) := Second, Point(1, 0) := First, Point(2, 0) := Second, Point(0, 2) := First, Point(2, 1) := Second], 2, 1, 1, 0, Second, -1, [Point(1, 1), Point(2, 1)])
    ensures Walled(map[Point(0, 0) := First, Point(1, 1) := Second, Point(1, 0) := First, Point(2, 0) := Second, Point(0, 2) := First, Point(2, 1) := Second], 2, 1, 0, 1, Second, -1, [Point(2, 0), Point(2, 1)])
  {
  }

  /** The runs of marks through turn 5 of `RowsWithThreeGame`, along the two diagonals. */
  lemma RowsWithThreeGameSlantedRuns5()
    ensures Walled(map[Point(0, 0) := First, Point(1, 1) := Second, Point(1, 0) := First, Point(2, 0) := Second, Point(0, 2) := First, Point(2, 1) := Second], 2, 1, 1, 1, Second, 0, [Point(2, 1)])
    ensures Walled(map[Point(0, 0) := First, Point(1, 1) := Second, Point(1, 0) := First, Point(2, 0) := Second, Point(0, 2) := First, Point(2, 1) := Second], 2, 1, 1, -1, Second, 0, [Point(2, 1)])
  {
  }

  /** Turn 5 of `RowsWithThreeGame`: Point(2, 1) completes no line. */
  lemma RowsWithThreeGameTurn5()
    ensures !CompletesLine(map[Point(0, 0) := First, Point(1, 1) := Second, Point(1, 0) := First, Point(2, 0) := Second, Point(0, 2) := First, Point(2, 1) := Second], Point(2, 1), Second, 3)
  {
    RowsWithThreeGameStraightRuns5();
    RowsWithThreeGameSlantedRuns5();
    WalledSpans(map[Point(0, 0) := First, Point(1, 1) := Second, Point(1, 0) := First, Point(2, 0) := Second, Point(0, 2) := First, Point(2, 1) := Second], 2, 1, Second, 3,
      -1, [Point(1, 1), Point(2, 1)], -1, [Point(2, 0), Point(2, 1)], 0, [Point(2, 1)], 0, [Point(2, 1)]);
  }

  /** Turn 6 of `RowsWithThreeGame`: Point(0, 1) completes a line. */
  lemma RowsWithThreeGameTurn6()
    ensures CompletesLine(map[Point(0, 0) := First, Point(1, 1) := Second, Point(1, 0) := First, Point(2, 0) := Second, Point(0, 2) := First, Point(2, 1) := Second, Point(0, 1) := First], Point(0, 1), First, 3)
  {
    WalledCompletes(map[Point(0, 0) := First, Point(1, 1) := Second, Point(1, 0) := First, Point(2, 0) := Second, Point(0, 2) := First, Point(2, 1) := Second, Point(0, 1) := First], 0, 1, 0, 1, First, -1, [Point(0, 0), Point(0, 1), Point(0, 2)]);
  }

  /** On the board the turns from turn 3 on go onto free points and none before the last completes a line. */
  lemma RowsWithThreeGameOpenFrom3()
    ensures OpenUntilLast(map[Point(0, 0) := First, Point(1, 1) := Second, Point(1, 0) := First], 3, [Turn(Point(2, 0), Second), Turn(Point(0, 2), First), Turn(Point(2, 1), Second), Turn(Point(0, 1), First)])
  {
    RowsWithThreeGameTurn3();
    RowsWithThreeGameTurn4();
    RowsWithThreeGameTurn5();
    var t0 := Turn(Point(0, 0), First);
    var t1 := Turn(Point(1, 1), Second);
    var t2 := Turn(Point(1, 0), First);
    var t3 := Turn(Point(2, 0), Second);
    var t4 := Turn(Point(0, 2), First);
    var t5 := Turn(Point(2, 1), Second);
    var t6 := Turn(Point(0, 1), First);
    var b0: Board := map[];
    var b1 := b0[t0.at := t0.player];
    var b2 := b1[t1.at := t1.player];
    var b3 := b2[t2.at := t2.player];
    var b4 := b3[t3.at := t3.player];
    var b5 := b4[t4.at := t4.player];
    var b6 := b5[t5.at := t5.player];
    var b7 := b6[t6.at := t6.player];
    OpenStep(b6, 3, t6, []);
    OpenStep(b5, 3, t5, [t6]);
    OpenStep(b4, 3, t4, [t5, t6]);
    OpenStep(b3, 3, t3, [t4, t5, t6]);
  }

  /** On the board every turn goes onto a free point and none before the last completes a line. */
  lemma RowsWithThreeGameOpen()
    ensures OpenUntilLast(map[], 3, RowsWithThreeGame)
  {
    RowsWithThreeGameTurn0();
    RowsWithThreeGameTurn1();
    RowsWithThreeGameTurn2();
    var t0 := Turn(Point(0, 0), First);
    var t1 := Turn(Point(1, 1), Second);
    var t2 := Turn(Point(1, 0), First);
    var t3 := Turn(Point(2, 0), Second);
    var t4 := Turn(Point(0, 2), First);
    var t5 := Turn(Point(2, 1), Second);
    var t6 := Turn(Point(0, 1), First);
    var b0: Board := map[];
    var b1 := b0[t0.at := t0.player];
    var b2 := b1[t1.at := t1.player];
    var b3 := b2[t2.at := t2.player];
    var b4 := b3[t3.at := t3.player];
    var b5 := b4[t4.at := t4.player];
    var b6 := b5[t5.at := t5.player];
    var b7 := b6[t6.at := t6.player];
    RowsWithThreeGameOpenFrom3();
    OpenStep(b2, 3, t2, []);
    OpenStep(b1, 3, t1, [t2]);
    OpenStep(b0, 3, t0, [t1, t2]);
    assert RowsWithThreeGame == [t0, t1, t2, t3, t4, t5, t6];
  }

  /** On the board the last turn wins for First. */
  lemma RowsWithThreeGameOutcome()
    ensures Outcome(map[], NoWinner, 3, RowsWithThreeGame) == Won(First)
  {
    RowsWithThreeGameLines();
    var t0 := Turn(Point(0, 0), First);
    var t1 := Turn(Point(1, 1), Second);
    var t2 := Turn(Point(1, 0), First);
    var t3 := Turn(Point(2, 0), Second);
    var t4 := Turn(Point(0, 2), First);
    var t5 := Turn(Point(2, 1), Second);
    var t6 := Turn(Point(0, 1), First);
    var b0: Board := map[];
    var b1 := b0[t0.at := t0.player];
    var b2 := b1[t1.at := t1.player];
    var b3 := b2[t2.at := t2.player];
    var b4 := b3[t3.at := t3.player];
    var b5 := b4[t4.at := t4.player];
    var b6 := b5[t5.at := t5.player];
    var b7 := b6[t6.at := t6.player];
    OutcomeStep(b0, NoWinner, 3, t0, [t1, t2, t3, t4, t5, t6]);
    OutcomeStep(b1, NoWinner, 3, t1, [t2, t3, t4, t5, t6]);
    OutcomeStep(b2, NoWinner, 3, t2, [t3, t4, t5, t6]);
    OutcomeStep(b3, NoWinner, 3, t3, [t4, t5, t6]);
    OutcomeStep(b4, NoWinner, 3, t4, [t5, t6]);
    OutcomeStep(b5, NoWinner, 3, t5, [t6]);
    OutcomeStep(b6, NoWinner, 3, t6, []);
    assert RowsWithThreeGame == [t0, t1, t2, t3, t4, t5, t6];
  }

  /** Lines 90-103: With n = 3, First's last mark completes the column x = 0 (the test is titled "by rows"). No earlier turn decides the game. */
  lemma FirstWinsByRowsWithThree(s: State)
    requires Consistent(s) && BoardOf(s) == map[]
    requires s.winner == NoWinner && s.n == 3
    ensures Play(s, RowsWithThreeGame[..6]).winner == NoWinner
    ensures Play(s, RowsWithThreeGame).winner == Won(First)
  {
    RowsWithThreeGameOpen();
    RowsWithThreeGameOutcome();
    PlayFollowsBoard(s, RowsWithThreeGame);
    QuietBeforeLast(s, RowsWithThreeGame);
  }

  /** The turns of lines 110-124. */
  const ColsWithThreeGame: seq<Turn> :=
    [Turn(Point(0, 0), First), Turn(Point(1, 0), Second), Turn(Point(2, 0), First), Turn(Point(0, 1), Second), Turn(Point(0, 2), First), Turn(Point(1, 1), Second), Turn(Point(1, 2), First), Turn(Point(2, 1), Second)]

  /** The lines each turn of `ColsWithThreeGame` completes. */
  lemma ColsWithThreeGameLines()
    ensures !CompletesLine(map[Point(0, 0) := First], Point(0, 0), First, 3)
    ensures !CompletesLine(map[Point(0, 0) := First, Point(1, 0) := Second], Point(1, 0), Second, 3)
    ensures !CompletesLine(map[Point(0, 0) := First, Point(1, 0) := Second, Point(2, 0) := First], Point(2, 0), First, 3)
    ensures !CompletesLine(map[Point(0, 0) := First, Point(1, 0) := Second, Point(2, 0) := First, Point(0, 1) := Second], Point(0, 1), Second, 3)
    ensures !CompletesLine(map[Point(0, 0) := First, Point(1, 0) := Second, Point(2, 0) := First, Point(0, 1) := Second, Point(0, 2) := First], Point(0, 2), First, 3)
    ensures !CompletesLine(map[Point(0, 0) := First, Point(1, 0) := Second, Point(2, 0) := First, Point(0, 1) := Second, Point(0, 2) := First, Point(1, 1) := Second], Point(1, 1), Second, 3)
    ensures !CompletesLine(map[Point(0, 0) := First, Point(1, 0) := Second, Point(2, 0) := First, Point(0, 1) := Second, Point(0, 2) := First, Point(1, 1) := Second, Point(1, 2) := First], Point(1, 2), First, 3)
    ensures CompletesLine(map[Point(0, 0) := First, Point(1, 0) := Second, Point(2, 0) := First, Point(0, 1) := Second, Point(0, 2) := First, Point(1, 1) := Second, Point(1, 2) := First, Point(2, 1) := Second], Point(2, 1), Second, 3)
  {
    RowsWithThreeGameTurn0();
    ColsWithThreeGameTurn1();
    ColsWithThreeGameTurn2();
    ColsWithThreeGameTurn3();
    ColsWithThreeGameTurn4();
    ColsWithThreeGameTurn5();
    ColsWithThreeGameTurn6();
    ColsWithThreeGameTurn7();
  }

  /** Turn 1 of `ColsWithThreeGame`: Point(1, 0) completes no line. */
  lemma ColsWithThreeGameTurn1()
    ensures !CompletesLine(map[Point(0, 0) := First, Point(1, 0) := Second], Point(1, 0), Second, 3)
  {
    Isolated(map[Point(0, 0) := First, Point(1, 0) := Second], Point(1, 0), Second, 3);
  }

  /** Turn 2 of `ColsWithThreeGame`: Point(2, 0) completes no line. */
  lemma ColsWithThreeGameTurn2()
    ensures !CompletesLine(map[Point(0, 0) := First, Point(1, 0) := Second, Point(2, 0) := First], Point(2, 0), First, 3)
  {
    Isolated(map[Point(0, 0) := First, Point(1, 0) := Second, Point(2, 0) := First], Point(2, 0), First, 3);
  }

  /** The runs of marks through turn 3 of `ColsWithThreeGame`, along the row and the column. */
  lemma ColsWithThreeGameStraightRuns3()
    ensures Walled(map[Point(0, 0) := First, Point(1, 0) := Second, Point(2, 0) := First, Point(0, 1) := Second], 0, 1, 1, 0, Second, 0, [Point(0, 1)])
    ensures Walled(map[Point(0, 0) := First, Point(1, 0) := Second, Point(2, 0) := First, Point(0, 1) := Second], 0, 1, 0, 1, Second, 0, [Point(0, 1)])
  {
  }

  /** The runs of marks through turn 3 of `ColsWithThreeGame`, along the two diagonals. */
  lemma ColsWithThreeGameSlantedRuns3()
    ensures Walled(map[Point(0, 0) := First, Point(1, 0) := Second, Point(2, 0) := First, Point(0, 1) := Second], 0, 1, 1, 1, Second, 0, [Point(0, 1)])
    ensures Walled(map[Point(0, 0) := First, Point(1, 0) := Second, Point(2, 0) := First, Point(0, 1) := Second], 0, 1, 1, -1, Second, 0, [Point(0, 1), Point(1, 0)])
  {
  }

  /** Turn 3 of `ColsWithThreeGame`: Point(0, 1) completes no line. */
  lemma ColsWithThreeGameTurn3()
    ensures !CompletesLine(map[Point(0, 0) := First, Point(1, 0) := Second, Point(2, 0) := First, Point(0, 1) := Second], Point(0, 1), Second, 3)
  {
    ColsWithThreeGameStraightRuns3();
    ColsWithThreeGameSlantedRuns3();
    WalledSpans(map[Point(0, 0) := First, Point(1, 0) := Second, Point(2, 0) := First, Point(0, 1) := Second], 0, 1, Second, 3,
      0, [Point(0, 1)], 0, [Point(0, 1)], 0, [Point(0, 1)], 0, [Point(0, 1), Point(1, 0)]);
  }

  /** Turn 4 of `ColsWithThreeGame`: Point(0, 2) completes no line. */
  lemma ColsWithThreeGameTurn4()
    ensures !CompletesLine(map[Point(0, 0) := First, Point(1, 0) := Second, Point(2, 0) := First, Point(0, 1) := Second, Point(0, 2) := First], Point(0, 2), First, 3)
  {
    Isolated(map[Point(0, 0) := First, Point(1, 0) := Second, Point(2, 0) := First, Point(0, 1) := Second, Point(0, 2) := First], Point(0, 2), First, 3);
  }

  /** The runs of marks through turn 5 of `ColsWithThreeGame`, along the row and the column. */
  lemma ColsWithThreeGameStraightRuns5()
    ensures Walled(map[Point(0, 0) := First, Point(1, 0) := Second, Point(2, 0) := First, Point(0, 1) := Second, Point(0, 2) := First, Point(1, 1) := Second], 1, 1, 1, 0, Second, -1, [Point(0, 1), Point(1, 1)])
    ensures Walled(map[Point(0, 0) := First, Point(1, 0) := Second, Point(2, 0) := First, Point(0, 1) := Second, Point(0, 2) := First, Point(1, 1) := Second], 1, 1, 0, 1, Second, -1, [Point(1, 0), Point(1, 1)])
  {
  }

  /** The runs of marks through turn 5 of `ColsWithThreeGame`, along the two diagonals. */
  lemma ColsWithThreeGameSlantedRuns5()
    ensures Walled(map[Point(0, 0) := First, Point(1, 0) := Second, Point(2, 0) := First, Point(0, 1) := Second, Point(0, 2) := First, Point(1, 1) := Second], 1, 1, 1, 1, Second, 0, [Point(1, 1)])
    ensures Walled(map[Point(0, 0) := First, Point(1, 0) := Second, Point(2, 0) := First, Point(0, 1) := Second, Point(0, 2) := First, Point(1, 1) := Second], 1, 1, 1, -1, Second, 0, [Point(1, 1)])
  {
  }

  /** Turn 5 of `ColsWithThreeGame`: Point(1, 1) completes no line. */
  lemma ColsWithThreeGameTurn5()
    ensures !CompletesLine(map[Point(0, 0) := First, Point(1, 0) := Second, Point(2, 0) := First, Point(0, 1) := Second, Point(0, 2) := First, Point(1, 1) := Second], Point(1, 1), Second, 3)
  {
    ColsWithThreeGameStraightRuns5();
    ColsWithThreeGameSlantedRuns5();
    WalledSpans(map[Point(0, 0) := First, Point(1, 0) := Second, Point(2, 0) := First, Point(0, 1) := Second, Point(0, 2) := First, Point(1, 1) := Second], 1, 1, Second, 3,
      -1, [Point(0, 1), Point(1, 1)], -1, [Point(1, 0), Point(1, 1)], 0, [Point(1, 1)], 0, [Point(1, 1)]);
  }

  /** The runs of marks through turn 6 of `ColsWithThreeGame`, along the row and the column. */
  lemma ColsWithThreeGameStraightRuns6()
    ensures Walled(map[Point(0, 0) := First, Point(1, 0) := Second, Point(2, 0) := First, Point(0, 1) := Second, Point(0, 2) := First, Point(1, 1) := Second, Point(1, 2) := First], 1, 2, 1, 0, First, -1, [Point(0, 2), Point(1, 2)])
    ensures Walled(map[Point(0, 0) := First, Point(1, 0) := Second, Point(2, 0) := First, Point(0, 1) := Second, Point(0, 2) := First, Point(1, 1) := Second, Point(1, 2) := First], 1, 2, 0, 1, First, 0, [Point(1, 2)])
  {
  }

  /** The runs of marks through turn 6 of `ColsWithThreeGame`, along the two diagonals. */
  lemma ColsWithThreeGameSlantedRuns6()
    ensures Walled(map[Point(0, 0) := First, Point(1, 0) := Second, Point(2, 0) := First, Point(0, 1) := Second, Point(0, 2) := First, Point(1, 1) := Second, Point(1, 2) := First], 1, 2, 1, 1, First, 0, [Point(1, 2)])
    ensures Walled(map[Point(0, 0) := First, Point(1, 0) := Second, Point(2, 0) := First, Point(0, 1) := Second, Point(0, 2) := First, Point(1, 1) := Second, Point(1, 2) := First], 1, 2, 1, -1, First, 0, [Point(1, 2)])
  {
  }

  /** Turn 6 of `ColsWithThreeGame`: Point(1, 2) completes no line. */
  lemma ColsWithThreeGameTurn6()
    ensures !CompletesLine(map[Point(0, 0) := First, Point(1, 0) := Second, Point(2, 0) := First, Point(0, 1) := Second, Point(0, 2) := First, Point(1, 1) := Second, Point(1, 2) := First], Point(1, 2), First, 3)
  {
    ColsWithThreeGameStraightRuns6();
    ColsWithThreeGameSlantedRuns6();
    WalledSpans(map[Point(0, 0) := First, Point(1, 0) := Second, Point(2, 0) := First, Point(0, 1) := Second, Point(0, 2) := First, Point(1, 1) := Second, Point(1, 2) := First], 1, 2, First, 3,
      -1, [Point(0, 2), Point(1, 2)], 0, [Point(1, 2)], 0, [Point(1, 2)], 0, [Point(1, 2)]);
  }

  /** Turn 7 of `ColsWithThreeGame`: Point(2, 1) completes a line. */
  lemma ColsWithThreeGameTurn7()
    ensures CompletesLine(map[Point(0, 0) := First, Point(1, 0) := Second, Point(2, 0) := First, Point(0, 1) := Second, Point(0, 2) := First, Point(1, 1) := Second, Point(1, 2) := First, Point(2, 1) := Second], Point(2, 1), Second, 3)
  {
    WalledCompletes(map[Point(0, 0) := First, Point(1, 0) := Second, Point(2, 0) := First, Point(0, 1) := Second, Point(0, 2) := First, Point(1, 1) := Second, Point(1, 2) := First, Point(2, 1) := Second], 2, 1, 1, 0, Second, -2, [Point(0, 1), Point(1, 1), Point(2, 1)]);
  }

  /** On the board the turns from turn 4 on go onto free points and none before the last completes a line. */
  lemma ColsWithThreeGameOpenFrom4()
    ensures OpenUntilLast(map[Point(0, 0) := First, Point(1, 0) := Second, Point(2, 0) := First, Point(0, 1) := Second], 3, [Turn(Point(0, 2), First), Turn(Point(1, 1), Second), Turn(Point(1, 2), First), Turn(Point(2, 1), Second)])
  {
    ColsWithThreeGameTurn4();
    ColsWithThreeGameTurn5();
    ColsWithThreeGameTurn6();
    var t0 := Turn(Point(0, 0), First);
    var t1 := Turn(Point(1, 0), Second);
    var t2 := Turn(Point(2, 0), First);
    var t3 := Turn(Point(0, 1), Second);
    var t4 := Turn(Point(0, 2), First);
    var t5 := Turn(Point(1, 1), Second);
    var t6 := Turn(Point(1, 2), First);
    var t7 := Turn(Point(2, 1), Second);
    var b0: Board := map[];
    var b1 := b0[t0.at := t0.player];
    var b2 := b1[t1.at := t1.player];
    var b3 := b2[t2.at := t2.player];
    var b4 := b3[t3.at := t3.player];
    var b5 := b4[t4.at := t4.player];
    var b6 := b5[t5.at := t5.player];
    var b7 := b6[t6.at := t6.player];
    var b8 := b7[t7.at := t7.player];
    OpenStep(b7, 3, t7, []);
    OpenStep(b6, 3, t6, [t7]);
    OpenStep(b5, 3, t5, [t6, t7]);
    OpenStep(b4, 3, t4, [t5, t6, t7]);
  }

  /** On the board every turn goes onto a free point and none before the last completes a line. */
  lemma ColsWithThreeGameOpen()
    ensures OpenUntilLast(map[], 3, ColsWithThreeGame)
  {
    RowsWithThreeGameTurn0();
    ColsWithThreeGameTurn1();
    ColsWithThreeGameTurn2();
    ColsWithThreeGameTurn3();
    var t0 := Turn(Point(0, 0), First);
    var t1 := Turn(Point(1, 0), Second);
    var t2 := Turn(Point(2, 0), First);
    var t3 := Turn(Point(0, 1), Second);
    var t4 := Turn(Point(0, 2), First);
    var t5 := Turn(Point(1, 1), Second);
    var t6 := Turn(Point(1, 2), First);
    var t7 := Turn(Point(2, 1), Second);
    var b0: Board := map[];
    var b1 := b0[t0.at := t0.player];
    var b2 := b1[t1.at := t1.player];
    var b3 := b2[t2.at := t2.player];
    var b4 := b3[t3.at := t3.player];
    var b5 := b4[t4.at := t4.player];
    var b6 := b5[t5.at := t5.player];
    var b7 := b6[t6.at := t6.player];
    var b8 := b7[t7.at := t7.player];
    ColsWithThreeGameOpenFrom4();
    OpenStep(b3, 3, t3, []);
    OpenStep(b2, 3, t2, [t3]);
    OpenStep(b1, 3, t1, [t2, t3]);
    OpenStep(b0, 3, t0, [t1, t2, t3]);
    assert ColsWithThreeGame == [t0, t1, t2, t3, t4, t5, t6, t7];
  }

  /** On the board the last turn wins for Second. */
  lemma ColsWithThreeGameOutcome()
    ensures Outcome(map[], NoWinner, 3, ColsWithThreeGame) == Won(Second)
  {
    ColsWithThreeGameLines();
    var t0 := Turn(Point(0, 0), First);
    var t1 := Turn(Point(1, 0), Second);
    var t2 := Turn(Point(2, 0), First);
    var t3 := Turn(Point(0, 1), Second);
    var t4 := Turn(Point(0, 2), First);
    var t5 := Turn(Point(1, 1), Second);
    var t6 := Turn(Point(1, 2), First);
    var t7 := Turn(Point(2, 1), Second);
    var b0: Board := map[];
    var b1 := b0[t0.at := t0.player];
    var b2 := b1[t1.at := t1.player];
    var b3 := b2[t2.at := t2.player];
    var b4 := b3[t3.at := t3.player];
    var b5 := b4[t4.at := t4.player];
    var b6 := b5[t5.at := t5.player];
    var b7 := b6[t6.at := t6.player];
    var b8 := b7[t7.at := t7.player];
    OutcomeStep(b0, NoWinner, 3, t0, [t1, t2, t3, t4, t5, t6, t7]);
    OutcomeStep(b1, NoWinner, 3, t1, [t2, t3, t4, t5, t6, t7]);
    OutcomeStep(b2, NoWinner, 3, t2, [t3, t4, t5, t6, t7]);
    OutcomeStep(b3, NoWinner, 3, t3, [t4, t5, t6, t7]);
    OutcomeStep(b4, NoWinner, 3, t4, [t5, t6, t7]);
    OutcomeStep(b5, NoWinner, 3, t5, [t6, t7]);
    OutcomeStep(b6, NoWinner, 3, t6, [t7]);
    OutcomeStep(b7, NoWinner, 3, t7, []);
    assert ColsWithThreeGame == [t0, t1, t2, t3, t4, t5, t6, t7];
  }

  /** Lines 110-124: With n = 3, Second's last mark completes the row y = 1 (the test is titled "by cols"). No earlier turn decides the game. */
  lemma SecondWinsByColsWithThree(s: State)
    requires Consistent(s) && BoardOf(s) == map[]
    requires s.winner == NoWinner && s.n == 3
    ensures Play(s, ColsWithThreeGame[..7]).winner == NoWinner
    ensures Play(s, ColsWithThreeGame).winner == Won(Second)
  {
    ColsWithThreeGameOpen();
    ColsWithThreeGameOutcome();
    PlayFollowsBoard(s, ColsWithThreeGame);
    QuietBeforeLast(s, ColsWithThreeGame);
  }

  /** The turns of lines 131-142. */
  const DiagonalWithThreeGame: seq<Turn> :=
    [Turn(Point(0, 0), First), Turn(Point(1, 0), Second), Turn(Point(1, 1), First), Turn(Point(1, 2), Second), Turn(Point(2, 2), First)]

  /** The lines each turn of `DiagonalWithThreeGame` completes. */
  lemma DiagonalWithThreeGameLines()
    ensures !CompletesLine(map[Point(0, 0) := First], Point(0, 0), First, 3)
    ensures !CompletesLine(map[Point(0, 0) := First, Point(1, 0) := Second], Point(1, 0), Second, 3)
    ensures !CompletesLine(map[Point(0, 0) := First, Point(1, 0) := Second, Point(1, 1) := First], Point(1, 1), First, 3)
    ensures !CompletesLine(map[Point(0, 0) := First, Point(1, 0) := Second, Point(1, 1) := First, Point(1, 2) := Second], Point(1, 2), Second, 3)
    ensures CompletesLine(map[Point(0, 0) := First, Point(1, 0) := Second, Point(1, 1) := First, Point(1, 2) := Second, Point(2, 2) := First], Point(2, 2), First, 3)
  {
    RowsWithThreeGameTurn0();
    ColsWithThreeGameTurn1();
    DiagonalWithThreeGameTurn2();
    DiagonalWithThreeGameTurn3();
    DiagonalWithThreeGameTurn4();
  }

  /** The runs of marks through turn 2 of `DiagonalWithThreeGame`, along the row and the column. */
  lemma DiagonalWithThreeGameStraightRuns2()
    ensures Walled(map[Point(0, 0) := First, Point(1, 0) := Second, Point(1, 1) := First], 1, 1, 1, 0, First, 0, [Point(1, 1)])
    ensures Walled(map[Point(0, 0) := First, Point(1, 0) := Second, Point(1, 1) := First], 1, 1, 0, 1, First, 0, [Point(1, 1)])
  {
  }

  /** The runs of marks through turn 2 of `DiagonalWithThreeGame`, along the two diagonals. */
  lemma DiagonalWithThreeGameSlantedRuns2()
    ensures Walled(map[Point(0, 0) := First, Point(1, 0) := Second, Point(1, 1) := First], 1, 1, 1, 1, First, -1, [Point(0, 0), Point(1, 1)])
    ensures Walled(map[Point(0, 0) := First, Point(1, 0) := Second, Point(1, 1) := First], 1, 1, 1, -1, First, 0, [Point(1, 1)])
  {
  }

  /** Turn 2 of `DiagonalWithThreeGame`: Point(1, 1) completes no line. */
  lemma DiagonalWithThreeGameTurn2()
    ensures !CompletesLine(map[Point(0, 0) := First, Point(1, 0) := Second, Point(1, 1) := First], Point(1, 1), First, 3)
  {
    DiagonalWithThreeGameStraightRuns2();
    DiagonalWithThreeGameSlantedRuns2();
    WalledSpans(map[Point(0, 0) := First, Point(1, 0) := Second, Point(1, 1) := First], 1, 1, First, 3,
      0, [Point(1, 1)], 0, [Point(1, 1)], -1, [Point(0, 0), Point(1, 1)], 0, [Point(1, 1)]);
  }

  /** Turn 3 of `DiagonalWithThreeGame`: Point(1, 2) completes no line. */
  lemma DiagonalWithThreeGameTurn3()
    ensures !CompletesLine(map[Point(0, 0) := First, Point(1, 0) := Second, Point(1, 1) := First, Point(1, 2) := Second], Point(1, 2), Second, 3)
  {
    Isolated(map[Point(0, 0) := First, Point(1, 0) := Second, Point(1, 1) := First, Point(1, 2) := Second], Point(1, 2), Second, 3);
  }

  /** Turn 4 of `DiagonalWithThreeGame`: Point(2, 2) completes a line. */
  lemma DiagonalWithThreeGameTurn4()
    ensures CompletesLine(map[Point(0, 0) := First, Point(1, 0) := Second, Point(1, 1) := First, Point(1, 2) := Second, Point(2, 2) := First], Point(2, 2), First, 3)
  {
    WalledCompletes(map[Point(0, 0) := First, Point(1, 0) := Second, Point(1, 1) := First, Point(1, 2) := Second, Point(2, 2) := First], 2, 2, 1, 1, First, -2, [Point(0, 0), Point(1, 1), Point(2, 2)]);
  }

  /** On the board every turn goes onto a free point and none before the last completes a line. */
  lemma DiagonalWithThreeGameOpen()
    ensures OpenUntilLast(map[], 3, DiagonalWithThreeGame)
  {
    RowsWithThreeGameTurn0();
    ColsWithThreeGameTurn1();
    DiagonalWithThreeGameTurn2();
    DiagonalWithThreeGameTurn3();
    var t0 := Turn(Point(0, 0), First);
    var t1 := Turn(Point(1, 0), Second);
    var t2 := Turn(Point(1, 1), First);
    var t3 := Turn(Point(1, 2), Second);
    var t4 := Turn(Point(2, 2), First);
    var b0: Board := map[];
    var b1 := b0[t0.at := t0.player];
    var b2 := b1[t1.at := t1.player];
    var b3 := b2[t2.at := t2.player];
    var b4 := b3[t3.at := t3.player];
    var b5 := b4[t4.at := t4.player];
    OpenStep(b4, 3, t4, []);
    OpenStep(b3, 3, t3, [t4]);
    OpenStep(b2, 3, t2, [t3, t4]);
    OpenStep(b1, 3, t1, [t2, t3, t4]);
    OpenStep(b0, 3, t0, [t1, t2, t3, t4]);
    assert DiagonalWithThreeGame == [t0, t1, t2, t3, t4];
  }

  /** On the board the last turn wins for First. */
  lemma DiagonalWithThreeGameOutcome()
    ensures Outcome(map[], NoWinner, 3, DiagonalWithThreeGame) == Won(First)
  {
    DiagonalWithThreeGameLines();
    var t0 := Turn(Point(0, 0), First);
    var t1 := Turn(Point(1, 0), Second);
    var t2 := Turn(Point(1, 1), First);
    var t3 := Turn(Point(1, 2), Second);
    var t4 := Turn(Point(2, 2), First);
    var b0: Board := map[];
    var b1 := b0[t0.at := t0.player];
    var b2 := b1[t1.at := t1.player];
    var b3 := b2[t2.at := t2.player];
    var b4 := b3[t3.at := t3.player];
    var b5 := b4[t4.at := t4.player];
    OutcomeStep(b0, NoWinner, 3, t0, [t1, t2, t3, t4]);
    OutcomeStep(b1, NoWinner, 3, t1, [t2, t3, t4]);
    OutcomeStep(b2, NoWinner, 3, t2, [t3, t4]);
    OutcomeStep(b3, NoWinner, 3, t3, [t4]);
    OutcomeStep(b4, NoWinner, 3, t4, []);
    assert DiagonalWithThreeGame == [t0, t1, t2, t3, t4];
  }

  /** Lines 131-142: With n = 3, First completes the diagonal (0, 0), (1, 1), (2, 2). No earlier turn decides the game. */
  lemma FirstWinsByDiagonalWithThree(s: State)
    requires Consistent(s) && BoardOf(s) == map[]
    requires s.winner == NoWinner && s.n == 3
    ensures Play(s, DiagonalWithThreeGame[..4]).winner == NoWinner
    ensures Play(s, DiagonalWithThreeGame).winner == Won(First)
  {
    DiagonalWithThreeGameOpen();
    DiagonalWithThreeGameOutcome();
    PlayFollowsBoard(s, DiagonalWithThreeGame);
    QuietBeforeLast(s, DiagonalWithThreeGame);
  }

  /** The turns of lines 149-161. */
  const CoDiagonalWithThreeGame: seq<Turn> :=
    [Turn(Point(0, 0), First), Turn(Point(-1, -1), Second), Turn(Point(-2, -2), First), Turn(Point(0, -2), Second), Turn(Point(-1, -2), First), Turn(Point(-2, 0), Second)]

  /** The lines each turn of `CoDiagonalWithThreeGame` completes. */
  lemma CoDiagonalWithThreeGameLines()
    ensures !CompletesLine(map[Point(0, 0) := First], Point(0, 0), First, 3)
    ensures !CompletesLine(map[Point(0, 0) := First, Point(-1, -1) := Second], Point(-1, -1), Second, 3)
    ensures !CompletesLine(map[Point(0, 0) := First, Point(-1, -1) := Second, Point(-2, -2) := First], Point(-2, -2), First, 3)
    ensures !CompletesLine(map[Point(0, 0) := First, Point(-1, -1) := Second, Point(-2, -2) := First, Point(0, -2) := Second], Point(0, -2), Second, 3)
    ensures !CompletesLine(map[Point(0, 0) := First, Point(-1, -1) := Second, Point(-2, -2) := First, Point(0, -2) := Second, Point(-1, -2) := First], Point(-1, -2), First, 3)
    ensures CompletesLine(map[Point(0, 0) := First, Point(-1, -1) := Second, Point(-2, -2) := First, Point(0, -2) := Second, Point(-1, -2) := First, Point(-2, 0) := Second], Point(-2, 0), Second, 3)
  {
    RowsWithThreeGameTurn0();
    CoDiagonalWithThreeGameTurn1();
    CoDiagonalWithThreeGameTurn2();
    CoDiagonalWithThreeGameTurn3();
    CoDiagonalWithThreeGameTurn4();
    CoDiagonalWithThreeGameTurn5();
  }

  /** Turn 1 of `CoDiagonalWithThreeGame`: Point(-1, -1) completes no line. */
  lemma CoDiagonalWithThreeGameTurn1()
    ensures !CompletesLine(map[Point(0, 0) := First, Point(-1, -1) := Second], Point(-1, -1), Second, 3)
  {
    Isolated(map[Point(0, 0) := First, Point(-1, -1) := Second], Point(-1, -1), Second, 3);
  }

  /** Turn 2 of `CoDiagonalWithThreeGame`: Point(-2, -2) completes no line. */
  lemma CoDiagonalWithThreeGameTurn2()
    ensures !CompletesLine(map[Point(0, 0) := First, Point(-1, -1) := Second, Point(-2, -2) := First], Point(-2, -2), First, 3)
  {
    Isolated(map[Point(0, 0) := First, Point(-1, -1) := Second, Point(-2, -2) := First], Point(-2, -2), First, 3);
  }

  /** The runs of marks through turn 3 of `CoDiagonalWithThreeGame`, along the row and the column. */
  lemma CoDiagonalWithThreeGameStraightRuns3()
    ensures Walled(map[Point(0, 0) := First, Point(-1, -1) := Second, Point(-2, -2) := First, Point(0, -2) := Second], 0, -2, 1, 0, Second, 0, [Point(0, -2)])
    ensures Walled(map[Point(0, 0) := First, Point(-1, -1) := Second, Point(-2, -2) := First, Point(0, -2) := Second], 0, -2, 0, 1, Second, 0, [Point(0, -2)])
  {
  }

  /** The runs of marks through turn 3 of `CoDiagonalWithThreeGame`, along the two diagonals. */
  lemma CoDiagonalWithThreeGameSlantedRuns3()
    ensures Walled(map[Point(0, 0) := First, Point(-1, -1) := Second, Point(-2, -2) := First, Point(0, -2) := Second], 0, -2, 1, 1, Second, 0, [Point(0, -2)])
    ensures Walled(map[Point(0, 0) := First, Point(-1, -1) := Second, Point(-2, -2) := First, Point(0, -2) := Second], 0, -2, 1, -1, Second, -1, [Point(-1, -1), Point(0, -2)])
  {
  }

  /** Turn 3 of `CoDiagonalWithThreeGame`: Point(0, -2) completes no line. */
  lemma CoDiagonalWithThreeGameTurn3()
    ensures !CompletesLine(map[Point(0, 0) := First, Point(-1, -1) := Second, Point(-2, -2) := First, Point(0, -2) := Second], Point(0, -2), Second, 3)
  {
    CoDiagonalWithThreeGameStraightRuns3();
    CoDiagonalWithThreeGameSlantedRuns3();
    WalledSpans(map[Point(0, 0) := First, Point(-1, -1) := Second, Point(-2, -2) := First, Point(0, -2) := Second], 0, -2, Second, 3,
      0, [Point(0, -2)], 0, [Point(0, -2)], 0, [Point(0, -2)], -1, [Point(-1, -1), Point(0, -2)]);
  }

  /** The runs of marks through turn 4 of `CoDiagonalWithThreeGame`, along the row and the column. */
  lemma CoDiagonalWithThreeGameStraightRuns4()
    ensures Walled(map[Point(0, 0) := First, Point(-1, -1) := Second, Point(-2, -2) := First, Point(0, -2) := Second, Point(-1, -2) := First], -1, -2, 1, 0, First, -1, [Point(-2, -2), Point(-1, -2)])
    ensures Walled(map[Point(0, 0) := First, Point(-1, -1) := Second, Point(-2, -2) := First, Point(0, -2) := Second, Point(-1, -2) := First], -1, -2, 0, 1, First, 0, [Point(-1, -2)])
  {
  }

  /** The runs of marks through turn 4 of `CoDiagonalWithThreeGame`, along the two diagonals. */
  lemma CoDiagonalWithThreeGameSlantedRuns4()
    ensures Walled(map[Point(0, 0) := First, Point(-1, -1) := Second, Point(-2, -2) := First, Point(0, -2) := Second, Point(-1, -2) := First], -1, -2, 1, 1, First, 0, [Point(-1, -2)])
    ensures Walled(map[Point(0, 0) := First, Point(-1, -1) := Second, Point(-2, -2) := First, Point(0, -2) := Second, Point(-1, -2) := First], -1, -2, 1, -1, First, 0, [Point(-1, -2)])
  {
  }

  /** Turn 4 of `CoDiagonalWithThreeGame`: Point(-1, -2) completes no line. */
  lemma CoDiagonalWithThreeGameTurn4()
    ensures !CompletesLine(map[Point(0, 0) := First, Point(-1, -1) := Second, Point(-2, -2) := First, Point(0, -2) := Second, Point(-1, -2) := First], Point(-1, -2), First, 3)
  {
    CoDiagonalWithThreeGameStraightRuns4();
    CoDiagonalWithThreeGameSlantedRuns4();
    WalledSpans(map[Point(0, 0) := First, Point(-1, -1) := Second, Point(-2, -2) := First, Point(0, -2) := Second, Point(-1, -2) := First], -1, -2, First, 3,
      -1, [Point(-2, -2), Point(-1, -2)], 0, [Point(-1, -2)], 0, [Point(-1, -2)], 0, [Point(-1, -2)]);
  }

  /** Turn 5 of `CoDiagonalWithThreeGame`: Point(-2, 0) completes a line. */
  lemma CoDiagonalWithThreeGameTurn5()
    ensures CompletesLine(map[Point(0, 0) := First, Point(-1, -1) := Second, Point(-2, -2) := First, Point(0, -2) := Second, Point(-1, -2) := First, Point(-2, 0) := Second], Point(-2, 0), Second, 3)
  {
    WalledCompletes(map[Point(0, 0) := First, Point(-1, -1) := Second, Point(-2, -2) := First, Point(0, -2) := Second, Point(-1, -2) := First, Point(-2, 0) := Second], -2, 0, 1, -1, Second, 0, [Point(-2, 0), Point(-1, -1), Point(0, -2)]);
  }

  /** On the board every turn goes onto a free point and none before the last completes a line. */
  lemma CoDiagonalWithThreeGameOpen()
    ensures OpenUntilLast(map[], 3, CoDiagonalWithThreeGame)
  {
    RowsWithThreeGameTurn0();
    CoDiagonalWithThreeGameTurn1();
    CoDiagonalWithThreeGameTurn2();
    CoDiagonalWithThreeGameTurn3();
    CoDiagonalWithThreeGameTurn4();
    var t0 := Turn(Point(0, 0), First);
    var t1 := Turn(Point(-1, -1), Second);
    var t2 := Turn(Point(-2, -2), First);
    var t3 := Turn(Point(0, -2), Second);
    var t4 := Turn(Point(-1, -2), First);
    var t5 := Turn(Point(-2, 0), Second);
    var b0: Board := map[];
    var b1 := b0[t0.at := t0.player];
    var b2 := b1[t1.at := t1.player];
    var b3 := b2[t2.at := t2.player];
    var b4 := b3[t3.at := t3.player];
    var b5 := b4[t4.at := t4.player];
    var b6 := b5[t5.at := t5.player];
    OpenStep(b5, 3, t5, []);
    OpenStep(b4, 3, t4, [t5]);
    OpenStep(b3, 3, t3, [t4, t5]);
    OpenStep(b2, 3, t2, [t3, t4, t5]);
    OpenStep(b1, 3, t1, [t2, t3, t4, t5]);
    OpenStep(b0, 3, t0, [t1, t2, t3, t4, t5]);
    assert CoDiagonalWithThreeGame == [t0, t1, t2, t3, t4, t5];
  }

  /** On the board the last turn wins for Second. */
  lemma CoDiagonalWithThreeGameOutcome()
    ensures Outcome(map[], NoWinner, 3, CoDiagonalWithThreeGame) == Won(Second)
  {
    CoDiagonalWithThreeGameLines();
    var t0 := Turn(Point(0, 0), First);
    var t1 := Turn(Point(-1, -1), Second);
    var t2 := Turn(Point(-2, -2), First);
    var t3 := Turn(Point(0, -2), Second);
    var t4 := Turn(Point(-1, -2), First);
    var t5 := Turn(Point(-2, 0), Second);
    var b0: Board := map[];
    var b1 := b0[t0.at := t0.player];
    var b2 := b1[t1.at := t1.player];
    var b3 := b2[t2.at := t2.player];
    var b4 := b3[t3.at := t3.player];
    var b5 := b4[t4.at := t4.player];
    var b6 := b5[t5.at := t5.player];
    OutcomeStep(b0, NoWinner, 3, t0, [t1, t2, t3, t4, t5]);
    OutcomeStep(b1, NoWinner, 3, t1, [t2, t3, t4, t5]);
    OutcomeStep(b2, NoWinner, 3, t2, [t3, t4, t5]);
    OutcomeStep(b3, NoWinner, 3, t3, [t4, t5]);
    OutcomeStep(b4, NoWinner, 3, t4, [t5]);
    OutcomeStep(b5, NoWinner, 3, t5, []);
    assert CoDiagonalWithThreeGame == [t0, t1, t2, t3, t4, t5];
  }

  /** Lines 149-161: With n = 3, Second completes the anti-diagonal (0, -2), (-1, -1), (-2, 0). No earlier turn decides the game. */
  lemma SecondWinsByCoDiagonalWithThree(s: State)
    requires Consistent(s) && BoardOf(s) == map[]
    requires s.winner == NoWinner && s.n == 3
    ensures Play(s, CoDiagonalWithThreeGame[..5]).winner == NoWinner
    ensures Play(s, CoDiagonalWithThreeGame).winner == Won(Second)
  {
    CoDiagonalWithThreeGameOpen();
    CoDiagonalWithThreeGameOutcome();
    PlayFollowsBoard(s, CoDiagonalWithThreeGame);
    QuietBeforeLast(s, CoDiagonalWithThreeGame);
  }

  /** The turns of lines 171-184. */
  const RowsFarOutGame: seq<Turn> :=
    [Turn(Point(0, 0), First), Turn(Point(1, 0), Second), Turn(Point(2, 0), First), Turn(Point(1, 2), Second), Turn(Point(2, 2), First), Turn(Point(3, 3), Second), Turn(Point(3, 2), First)]

  /** The lines each turn of `RowsFarOutGame` completes. */
  lemma RowsFarOutGameLines()
    ensures !CompletesLine(map[Point(0, 0) := First], Point(0, 0), First, 2)
    ensures !CompletesLine(map[Point(0, 0) := First, Point(1, 0) := Second], Point(1, 0), Second, 2)
    ensures !CompletesLine(map[Point(0, 0) := First, Point(1, 0) := Second, Point(2, 0) := First], Point(2, 0), First, 2)
    ensures !CompletesLine(map[Point(0, 0) := First, Point(1, 0) := Second, Point(2, 0) := First, Point(1, 2) := Second], Point(1, 2), Second, 2)
    ensures !CompletesLine(map[Point(0, 0) := First, Point(1, 0) := Second, Point(2, 0) := First, Point(1, 2) := Second, Point(2, 2) := First], Point(2, 2), First, 2)
    ensures !CompletesLine(map[Point(0, 0) := First, Point(1, 0) := Second, Point(2, 0) := First, Point(1, 2) := Second, Point(2, 2) := First, Point(3, 3) := Second], Point(3, 3), Second, 2)
    ensures CompletesLine(map[Point(0, 0) := First, Point(1, 0) := Second, Point(2, 0) := First, Point(1, 2) := Second, Point(2, 2) := First, Point(3, 3) := Second, Point(3, 2) := First], Point(3, 2), First, 2)
  {
    ColsWithTwoGameTurn0();
    ColsWithTwoGameTurn1();
    RowsFarOutGameTurn2();
    RowsFarOutGameTurn3();
    RowsFarOutGameTurn4();
    RowsFarOutGameTurn5();
    RowsFarOutGameTurn6();
  }

  /** Turn 2 of `RowsFarOutGame`: Point(2, 0) completes no line. */
  lemma RowsFarOutGameTurn2()
    ensures !CompletesLine(map[Point(0, 0) := First, Point(1, 0) := Second, Point(2, 0) := First], Point(2, 0), First, 2)
  {
    Isolated(map[Point(0, 0) := First, Point(1, 0) := Second, Point(2, 0) := First], Point(2, 0), First, 2);
  }

  /** Turn 3 of `RowsFarOutGame`: Point(1, 2) completes no line. */
  lemma RowsFarOutGameTurn3()
    ensures !CompletesLine(map[Point(0, 0) := First, Point(1, 0) := Second, Point(2, 0) := First, Point(1, 2) := Second], Point(1, 2), Second, 2)
  {
    Isolated(map[Point(0, 0) := First, Point(1, 0) := Second, Point(2, 0) := First, Point(1, 2) := Second], Point(1, 2), Second, 2);
  }

  /** Turn 4 of `RowsFarOutGame`: Point(2, 2) completes no line. */
  lemma RowsFarOutGameTurn4()
    ensures !CompletesLine(map[Point(0, 0) := First, Point(1, 0) := Second, Point(2, 0) := First, Point(1, 2) := Second, Point(2, 2) := First], Point(2, 2), First, 2)
  {
    Isolated(map[Point(0, 0) := First, Point(1, 0) := Second, Point(2, 0) := First, Point(1, 2) := Second, Point(2, 2) := First], Point(2, 2), First, 2);
  }

  /** Turn 5 of `RowsFarOutGame`: Point(3, 3) completes no line. */
  lemma RowsFarOutGameTurn5()
    ensures !CompletesLine(map[Point(0, 0) := First, Point(1, 0) := Second, Point(2, 0) := First, Point(1, 2) := Second, Point(2, 2) := First, Point(3, 3) := Second], Point(3, 3), Second, 2)
  {
    Isolated(map[Point(0, 0) := First, Point(1, 0) := Second, Point(2, 0) := First, Point(1, 2) := Second, Point(2, 2) := First, Point(3, 3) := Second], Point(3, 3), Second, 2);
  }

  /** Turn 6 of `RowsFarOutGame`: Point(3, 2) completes a line. */
  lemma RowsFarOutGameTurn6()
    ensures CompletesLine(map[Point(0, 0) := First, Point(1, 0) := Second, Point(2, 0) := First, Point(1, 2) := Second, Point(2, 2) := First, Point(3, 3) := Second, Point(3, 2) := First], Point(3, 2), First, 2)
  {
    WalledCompletes(map[Point(0, 0) := First, Point(1, 0) := Second, Point(2, 0) := First, Point(1, 2) := Second, Point(2, 2) := First, Point(3, 3) := Second, Point(3, 2) := First], 3, 2, 1, 0, First, -1, [Point(2, 2), Point(3, 2)]);
  }

  /** On the board the turns from turn 3 on go onto free points and none before the last completes a line. */
  lemma RowsFarOutGameOpenFrom3()
    ensures OpenUntilLast(map[Point(0, 0) := First, Point(1, 0) := Second, Point(2, 0) := First], 2, [Turn(Point(1, 2), Second), Turn(Point(2, 2), First), Turn(Point(3, 3), Second), Turn(Point(3, 2), First)])
  {
    RowsFarOutGameTurn3();
    RowsFarOutGameTurn4();
    RowsFarOutGameTurn5();
    var t0 := Turn(Point(0, 0), First);
    var t1 := Turn(Point(1, 0), Second);
    var t2 := Turn(Point(2, 0), First);
    var t3 := Turn(Point(1, 2), Second);
    var t4 := Turn(Point(2, 2), First);
    var t5 := Turn(Point(3, 3), Second);
    var t6 := Turn(Point(3, 2), First);
    var b0: Board := map[];
    var b1 := b0[t0.at := t0.player];
    var b2 := b1[t1.at := t1.player];
    var b3 := b2[t2.at := t2.player];
    var b4 := b3[t3.at := t3.player];
    var b5 := b4[t4.at := t4.player];
    var b6 := b5[t5.at := t5.player];
    var b7 := b6[t6.at := t6.player];
    OpenStep(b6, 2, t6, []);
    OpenStep(b5, 2, t5, [t6]);
    OpenStep(b4, 2, t4, [t5, t6]);
    OpenStep(b3, 2, t3, [t4, t5, t6]);
  }

  /** On the board every turn goes onto a free point and none before the last completes a line. */
  lemma RowsFarOutGameOpen()
    ensures OpenUntilLast(map[], 2, RowsFarOutGame)
  {
    ColsWithTwoGameTurn0();
    ColsWithTwoGameTurn1();
    RowsFarOutGameTurn2();
    var t0 := Turn(Point(0, 0), First);
    var t1 := Turn(Point(1, 0), Second);
    var t2 := Turn(Point(2, 0), First);
    var t3 := Turn(Point(1, 2), Second);
    var t4 := Turn(Point(2, 2), First);
    var t5 := Turn(Point(3, 3), Second);
    var t6 := Turn(Point(3, 2), First);
    var b0: Board := map[];
    var b1 := b0[t0.at := t0.player];
    var b2 := b1[t1.at := t1.player];
    var b3 := b2[t2.at := t2.player];
    var b4 := b3[t3.at := t3.player];
    var b5 := b4[t4.at := t4.player];
    var b6 := b5[t5.at := t5.player];
    var b7 := b6[t6.at := t6.player];
    RowsFarOutGameOpenFrom3();
    OpenStep(b2, 2, t2, []);
    OpenStep(b1, 2, t1, [t2]);
    OpenStep(b0, 2, t0, [t1, t2]);
    assert RowsFarOutGame == [t0, t1, t2, t3, t4, t5, t6];
  }

  /** On the board the last turn wins for First. */
  lemma RowsFarOutGameOutcome()
    ensures Outcome(map[], NoWinner, 2, RowsFarOutGame) == Won(First)
  {
    RowsFarOutGameLines();
    var t0 := Turn(Point(0, 0), First);
    var t1 := Turn(Point(1, 0), Second);
    var t2 := Turn(Point(2, 0), First);
    var t3 := Turn(Point(1, 2), Second);
    var t4 := Turn(Point(2, 2), First);
    var t5 := Turn(Point(3, 3), Second);
    var t6 := Turn(Point(3, 2), First);
    var b0: Board := map[];
    var b1 := b0[t0.at := t0.player];
    var b2 := b1[t1.at := t1.player];
    var b3 := b2[t2.at := t2.player];
    var b4 := b3[t3.at := t3.player];
    var b5 := b4[t4.at := t4.player];
    var b6 := b5[t5.at := t5.player];
    var b7 := b6[t6.at := t6.player];
    OutcomeStep(b0, NoWinner, 2, t0, [t1, t2, t3, t4, t5, t6]);
    OutcomeStep(b1, NoWinner, 2, t1, [t2, t3, t4, t5, t6]);
    OutcomeStep(b2, NoWinner, 2, t2, [t3, t4, t5, t6]);
    OutcomeStep(b3, NoWinner, 2, t3, [t4, t5, t6]);
    OutcomeStep(b4, NoWinner, 2, t4, [t5, t6]);
    OutcomeStep(b5, NoWinner, 2, t5, [t6]);
    OutcomeStep(b6, NoWinner, 2, t6, []);
    assert RowsFarOutGame == [t0, t1, t2, t3, t4, t5, t6];
  }

  /** Lines 171-184: On the open board with n = 2, First completes (2, 2), (3, 2) of the row y = 2. No earlier turn decides the game. */
  lemma FirstWinsByRowsFarOut(s: State)
    requires Consistent(s) && BoardOf(s) == map[]
    requires s.winner == NoWinner && s.n == 2
    ensures Play(s, RowsFarOutGame[..6]).winner == NoWinner
    ensures Play(s, RowsFarOutGame).winner == Won(First)
  {
    RowsFarOutGameOpen();
    RowsFarOutGameOutcome();
    PlayFollowsBoard(s, RowsFarOutGame);
    QuietBeforeLast(s, RowsFarOutGame);
  }

  /** The turns of lines 192-205. */
  const RowsNegativeGame: seq<Turn> :=
    [Turn(Point(0, 0), First), Turn(Point(-1, 0), Second), Turn(Point(1, 0), First), Turn(Point(1, 1), Second), Turn(Point(-2, -2), First), Turn(Point(-1, -2), Second), Turn(Point(0, -2), First)]

  /** The lines each turn of `RowsNegativeGame` completes. */
  lemma RowsNegativeGameLines()
    ensures !CompletesLine(map[Point(0, 0) := First], Point(0, 0), First, 2)
    ensures !CompletesLine(map[Point(0, 0) := First, Point(-1, 0) := Second], Point(-1, 0), Second, 2)
    ensures CompletesLine(map[Point(0, 0) := First, Point(-1, 0) := Second, Point(1, 0) := First], Point(1, 0), First, 2)
    ensures !CompletesLine(map[Point(0, 0) := First, Point(-1, 0) := Second, Point(1, 0) := First, Point(1, 1) := Second], Point(1, 1), Second, 2)
    ensures !CompletesLine(map[Point(0, 0) := First, Point(-1, 0) := Second, Point(1, 0) := First, Point(1, 1) := Second, Point(-2, -2) := First], Point(-2, -2), First, 2)
    ensures !CompletesLine(map[Point(0, 0) := First, Point(-1, 0) := Second, Point(1, 0) := First, Point(1, 1) := Second, Point(-2, -2) := First, Point(-1, -2) := Second], Point(-1, -2), Second, 2)
    ensures !CompletesLine(map[Point(0, 0) := First, Point(-1, 0) := Second, Point(1, 0) := First, Point(1, 1) := Second, Point(-2, -2) := First, Point(-1, -2) := Second, Point(0, -2) := First], Point(0, -2), First, 2)
  {
    ColsWithTwoGameTurn0();
    RowsNegativeGameTurn1();
    RowsNegativeGameTurn2();
    RowsNegativeGameTurn3();
    RowsNegativeGameTurn4();
    RowsNegativeGameTurn5();
    RowsNegativeGameTurn6();
  }

  /** Turn 1 of `RowsNegativeGame`: Point(-1, 0) completes no line. */
  lemma RowsNegativeGameTurn1()
    ensures !CompletesLine(map[Point(0, 0) := First, Point(-1, 0) := Second], Point(-1, 0), Second, 2)
  {
    Isolated(map[Point(0, 0) := First, Point(-1, 0) := Second], Point(-1, 0), Second, 2);
  }

  /** Turn 2 of `RowsNegativeGame`: Point(1, 0) completes a line. */
  lemma RowsNegativeGameTurn2()
    ensures CompletesLine(map[Point(0, 0) := First, Point(-1, 0) := Second, Point(1, 0) := First], Point(1, 0), First, 2)
  {
    WalledCompletes(map[Point(0, 0) := First, Point(-1, 0) := Second, Point(1, 0) := First], 1, 0, 1, 0, First, -1, [Point(0, 0), Point(1, 0)]);
  }

  /** Turn 3 of `RowsNegativeGame`: Point(1, 1) completes no line. */
  lemma RowsNegativeGameTurn3()
    ensures !CompletesLine(map[Point(0, 0) := First, Point(-1, 0) := Second, Point(1, 0) := First, Point(1, 1) := Second], Point(1, 1), Second, 2)
  {
    Isolated(map[Point(0, 0) := First, Point(-1, 0) := Second, Point(1, 0) := First, Point(1, 1) := Second], Point(1, 1), Second, 2);
  }

  /** Turn 4 of `RowsNegativeGame`: Point(-2, -2) completes no line. */
  lemma RowsNegativeGameTurn4()
    ensures !CompletesLine(map[Point(0, 0) := First, Point(-1, 0) := Second, Point(1, 0) := First, Point(1, 1) := Second, Point(-2, -2) := First], Point(-2, -2), First, 2)
  {
    Isolated(map[Point(0, 0) := First, Point(-1, 0) := Second, Point(1, 0) := First, Point(1, 1) := Second, Point(-2, -2) := First], Point(-2, -2), First, 2);
  }

  /** Turn 5 of `RowsNegativeGame`: Point(-1, -2) completes no line. */
  lemma RowsNegativeGameTurn5()
    ensures !CompletesLine(map[Point(0, 0) := First, Point(-1, 0) := Second, Point(1, 0) := First, Point(1, 1) := Second, Point(-2, -2) := First, Point(-1, -2) := Second], Point(-1, -2), Second, 2)
  {
    Isolated(map[Point(0, 0) := First, Point(-1, 0) := Second, Point(1, 0) := First, Point(1, 1) := Second, Point(-2, -2) := First, Point(-1, -2) := Second], Point(-1, -2), Second, 2);
  }

  /** Turn 6 of `RowsNegativeGame`: Point(0, -2) completes no line. */
  lemma RowsNegativeGameTurn6()
    ensures !CompletesLine(map[Point(0, 0) := First, Point(-1, 0) := Second, Point(1, 0) := First, Point(1, 1) := Second, Point(-2, -2) := First, Point(-1, -2) := Second, Point(0, -2) := First], Point(0, -2), First, 2)
  {
    Isolated(map[Point(0, 0) := First, Point(-1, 0) := Second, Point(1, 0) := First, Point(1, 1) := Second, Point(-2, -2) := First, Point(-1, -2) := Second, Point(0, -2) := First], Point(0, -2), First, 2);
  }

  /** On the board the first three turns go onto free points and only the third completes a line. */
  lemma RowsNegativeGameOpen()
    ensures OpenUntilLast(map[], 2, RowsNegativeGame[..3])
  {
    ColsWithTwoGameTurn0();
    RowsNegativeGameTurn1();
    var t0 := Turn(Point(0, 0), First);
    var t1 := Turn(Point(-1, 0), Second);
    var t2 := Turn(Point(1, 0), First);
    var t3 := Turn(Point(1, 1), Second);
    var t4 := Turn(Point(-2, -2), First);
    var t5 := Turn(Point(-1, -2), Second);
    var t6 := Turn(Point(0, -2), First);
    var b0: Board := map[];
    var b1 := b0[t0.at := t0.player];
    var b2 := b1[t1.at := t1.player];
    var b3 := b2[t2.at := t2.player];
    var b4 := b3[t3.at := t3.player];
    var b5 := b4[t4.at := t4.player];
    var b6 := b5[t5.at := t5.player];
    var b7 := b6[t6.at := t6.player];
    OpenStep(b2, 2, t2, []);
    OpenStep(b1, 2, t1, [t2]);
    OpenStep(b0, 2, t0, [t1, t2]);
    assert RowsNegativeGame[..3] == [t0, t1, t2];
  }

  /** On the board the third turn wins for First. */
  lemma RowsNegativeGameOutcome()
    ensures Outcome(map[], NoWinner, 2, RowsNegativeGame[..3]) == Won(First)
  {
    ColsWithTwoGameTurn0();
    RowsNegativeGameTurn1();
    RowsNegativeGameTurn2();
    var t0 := Turn(Point(0, 0), First);
    var t1 := Turn(Point(-1, 0), Second);
    var t2 := Turn(Point(1, 0), First);
    var t3 := Turn(Point(1, 1), Second);
    var t4 := Turn(Point(-2, -2), First);
    var t5 := Turn(Point(-1, -2), Second);
    var t6 := Turn(Point(0, -2), First);
    var b0: Board := map[];
    var b1 := b0[t0.at := t0.player];
    var b2 := b1[t1.at := t1.player];
    var b3 := b2[t2.at := t2.player];
    var b4 := b3[t3.at := t3.player];
    var b5 := b4[t4.at := t4.player];
    var b6 := b5[t5.at := t5.player];
    var b7 := b6[t6.at := t6.player];
    OutcomeStep(b0, NoWinner, 2, t0, [t1, t2]);
    OutcomeStep(b1, NoWinner, 2, t1, [t2]);
    OutcomeStep(b2, NoWinner, 2, t2, []);
    assert RowsNegativeGame[..3] == [t0, t1, t2];
  }

  /** The board after the first three turns. */
  lemma RowsNegativeGameFill()
    ensures Fill(map[], RowsNegativeGame[..3]) == map[Point(0, 0) := First, Point(-1, 0) := Second, Point(1, 0) := First]
  {
    var t0 := Turn(Point(0, 0), First);
    var t1 := Turn(Point(-1, 0), Second);
    var t2 := Turn(Point(1, 0), First);
    var t3 := Turn(Point(1, 1), Second);
    var t4 := Turn(Point(-2, -2), First);
    var t5 := Turn(Point(-1, -2), Second);
    var t6 := Turn(Point(0, -2), First);
    var b0: Board := map[];
    var b1 := b0[t0.at := t0.player];
    var b2 := b1[t1.at := t1.player];
    var b3 := b2[t2.at := t2.player];
    var b4 := b3[t3.at := t3.player];
    var b5 := b4[t4.at := t4.player];
    var b6 := b5[t5.at := t5.player];
    var b7 := b6[t6.at := t6.player];
    FillStep(b0, t0, [t1, t2]);
    FillStep(b1, t1, [t2]);
    FillStep(b2, t2, []);
    assert RowsNegativeGame[..3] == [t0, t1, t2];
  }

  /** On the board after the third turn, the four turns after it go onto free points and Second completes nothing. */
  lemma RowsNegativeGameShut()
    ensures OpponentShut(map[Point(0, 0) := First, Point(-1, 0) := Second, Point(1, 0) := First], First, 2, RowsNegativeGame[3..])
  {
    RowsNegativeGameTurn3();
    RowsNegativeGameTurn5();
    var t0 := Turn(Point(0, 0), First);
    var t1 := Turn(Point(-1, 0), Second);
    var t2 := Turn(Point(1, 0), First);
    var t3 := Turn(Point(1, 1), Second);
    var t4 := Turn(Point(-2, -2), First);
    var t5 := Turn(Point(-1, -2), Second);
    var t6 := Turn(Point(0, -2), First);
    var b0: Board := map[];
    var b1 := b0[t0.at := t0.player];
    var b2 := b1[t1.at := t1.player];
    var b3 := b2[t2.at := t2.player];
    var b4 := b3[t3.at := t3.player];
    var b5 := b4[t4.at := t4.player];
    var b6 := b5[t5.at := t5.player];
    var b7 := b6[t6.at := t6.player];
    ShutStep(b6, First, 2, t6, []);
    ShutStep(b5, First, 2, t5, [t6]);
    ShutStep(b4, First, 2, t4, [t5, t6]);
    ShutStep(b3, First, 2, t3, [t4, t5, t6]);
    assert RowsNegativeGame[3..] == [t3, t4, t5, t6];
  }

  /** Lines 192-205: with n = 2, First's third turn (1, 0) completes the
      row y = 0 at once, and the four turns after it leave First the winner. */
  lemma FirstWinsByRowsNegative(s: State)
    requires Consistent(s) && BoardOf(s) == map[]
    requires s.winner == NoWinner && s.n == 2
    ensures Play(s, RowsNegativeGame[..3]).winner == Won(First)
    ensures Play(s, RowsNegativeGame).winner == Won(First)
  {
    RowsNegativeGameOpen();
    RowsNegativeGameOutcome();
    RowsNegativeGameFill();
    RowsNegativeGameShut();
    WinThenShut(s, First, RowsNegativeGame, 3);
  }

  /** The turns of lines 213-227. */
  const ColsFarOutGame: seq<Turn> :=
    [Turn(Point(0, 0), First), Turn(Point(1, 0), Second), Turn(Point(2, 0), First), Turn(Point(1, 2), Second), Turn(Point(0, 2), First), Turn(Point(3, 2), Second), Turn(Point(2, 2), First), Turn(Point(3, 3), Second)]

  /** The lines each turn of `ColsFarOutGame` completes. */
  lemma ColsFarOutGameLines()
    ensures !CompletesLine(map[Point(0, 0) := First], Point(0, 0), First, 2)
    ensures !CompletesLine(map[Point(0, 0) := First, Point(1, 0) := Second], Point(1, 0), Second, 2)
    ensures !CompletesLine(map[Point(0, 0) := First, Point(1, 0) := Second, Point(2, 0) := First], Point(2, 0), First, 2)
    ensures !CompletesLine(map[Point(0, 0) := First, Point(1, 0) := Second, Point(2, 0) := First, Point(1, 2) := Second], Point(1, 2), Second, 2)
    ensures !CompletesLine(map[Point(0, 0) := First, Point(1, 0) := Second, Point(2, 0) := First, Point(1, 2) := Second, Point(0, 2) := First], Point(0, 2), First, 2)
    ensures !CompletesLine(map[Point(0, 0) := First, Point(1, 0) := Second, Point(2, 0) := First, Point(1, 2) := Second, Point(0, 2) := First, Point(3, 2) := Second], Point(3, 2), Second, 2)
    ensures !CompletesLine(map[Point(0, 0) := First, Point(1, 0) := Second, Point(2, 0) := First, Point(1, 2) := Second, Point(0, 2) := First, Point(3, 2) := Second, Point(2, 2) := First], Point(2, 2), First, 2)
    ensures CompletesLine(map[Point(0, 0) := First, Point(1, 0) := Second, Point(2, 0) := First, Point(1, 2) := Second, Point(0, 2) := First, Point(3, 2) := Second, Point(2, 2) := First, Point(3, 3) := Second], Point(3, 3), Second, 2)
  {
    ColsWithTwoGameTurn0();
    ColsWithTwoGameTurn1();
    RowsFarOutGameTurn2();
    RowsFarOutGameTurn3();
    ColsFarOutGameTurn4();
    ColsFarOutGameTurn5();
    ColsFarOutGameTurn6();
    ColsFarOutGameTurn7();
  }

  /** Turn 4 of `ColsFarOutGame`: Point(0, 2) completes no line. */
  lemma ColsFarOutGameTurn4()
    ensures !CompletesLine(map[Point(0, 0) := First, Point(1, 0) := Second, Point(2, 0) := First, Point(1, 2) := Second, Point(0, 2) := First], Point(0, 2), First, 2)
  {
    Isolated(map[Point(0, 0) := First, Point(1, 0) := Second, Point(2, 0) := First, Point(1, 2) := Second, Point(0, 2) := First], Point(0, 2), First, 2);
  }

  /** Turn 5 of `ColsFarOutGame`: Point(3, 2) completes no line. */
  lemma ColsFarOutGameTurn5()
    ensures !CompletesLine(map[Point(0, 0) := First, Point(1, 0) := Second, Point(2, 0) := First, Point(1, 2) := Second, Point(0, 2) := First, Point(3, 2) := Second], Point(3, 2), Second, 2)
  {
    Isolated(map[Point(0, 0) := First, Point(1, 0) := Second, Point(2, 0) := First, Point(1, 2) := Second, Point(0, 2) := First, Point(3, 2) := Second], Point(3, 2), Second, 2);
  }

  /** Turn 6 of `ColsFarOutGame`: Point(2, 2) completes no line. */
  lemma ColsFarOutGameTurn6()
    ensures !CompletesLine(map[Point(0, 0) := First, Point(1, 0) := Second, Point(2, 0) := First, Point(1, 2) := Second, Point(0, 2) := First, Point(3, 2) := Second, Point(2, 2) := First], Point(2, 2), First, 2)
  {
    Isolated(map[Point(0, 0) := First, Point(1, 0) := Second, Point(2, 0) := First, Point(1, 2) := Second, Point(0, 2) := First, Point(3, 2) := Second, Point(2, 2) := First], Point(2, 2), First, 2);
  }

  /** Turn 7 of `ColsFarOutGame`: Point(3, 3) completes a line. */
  lemma ColsFarOutGameTurn7()
    ensures CompletesLine(map[Point(0, 0) := First, Point(1, 0) := Second, Point(2, 0) := First, Point(1, 2) := Second, Point(0, 2) := First, Point(3, 2) := Second, Point(2, 2) := First, Point(3, 3) := Second], Point(3, 3), Second, 2)
  {
    WalledCompletes(map[Point(0, 0) := First, Point(1, 0) := Second, Point(2, 0) := First, Point(1, 2) := Second, Point(0, 2) := First, Point(3, 2) := Second, Point(2, 2) := First, Point(3, 3) := Second], 3, 3, 0, 1, Second, -1, [Point(3, 2), Point(3, 3)]);
  }

  /** On the board the turns from turn 4 on go onto free points and none before the last completes a line. */
  lemma ColsFarOutGameOpenFrom4()
    ensures OpenUntilLast(map[Point(0, 0) := First, Point(1, 0) := Second, Point(2, 0) := First, Point(1, 2) := Second], 2, [Turn(Point(0, 2), First), Turn(Point(3, 2), Second), Turn(Point(2, 2), First), Turn(Point(3, 3), Second)])
  {
    ColsFarOutGameTurn4();
    ColsFarOutGameTurn5();
    ColsFarOutGameTurn6();
    var t0 := Turn(Point(0, 0), First);
    var t1 := Turn(Point(1, 0), Second);
    var t2 := Turn(Point(2, 0), First);
    var t3 := Turn(Point(1, 2), Second);
    var t4 := Turn(Point(0, 2), First);
    var t5 := Turn(Point(3, 2), Second);
    var t6 := Turn(Point(2, 2), First);
    var t7 := Turn(Point(3, 3), Second);
    var b0: Board := map[];
    var b1 := b0[t0.at := t0.player];
    var b2 := b1[t1.at := t1.player];
    var b3 := b2[t2.at := t2.player];
    var b4 := b3[t3.at := t3.player];
    var b5 := b4[t4.at := t4.player];
    var b6 := b5[t5.at := t5.player];
    var b7 := b6[t6.at := t6.player];
    var b8 := b7[t7.at := t7.player];
    OpenStep(b7, 2, t7, []);
    OpenStep(b6, 2, t6, [t7]);
    OpenStep(b5, 2, t5, [t6, t7]);
    OpenStep(b4, 2, t4, [t5, t6, t7]);
  }

  /** On the board every turn goes onto a free point and none before the last completes a line. */
  lemma ColsFarOutGameOpen()
    ensures OpenUntilLast(map[], 2, ColsFarOutGame)
  {
    ColsWithTwoGameTurn0();
    ColsWithTwoGameTurn1();
    RowsFarOutGameTurn2();
    RowsFarOutGameTurn3();
    var t0 := Turn(Point(0, 0), First);
    var t1 := Turn(Point(1, 0), Second);
    var t2 := Turn(Point(2, 0), First);
    var t3 := Turn(Point(1, 2), Second);
    var t4 := Turn(Point(0, 2), First);
    var t5 := Turn(Point(3, 2), Second);
    var t6 := Turn(Point(2, 2), First);
    var t7 := Turn(Point(3, 3), Second);
    var b0: Board := map[];
    var b1 := b0[t0.at := t0.player];
    var b2 := b1[t1.at := t1.player];
    var b3 := b2[t2.at := t2.player];
    var b4 := b3[t3.at := t3.player];
    var b5 := b4[t4.at := t4.player];
    var b6 := b5[t5.at := t5.player];
    var b7 := b6[t6.at := t6.player];
    var b8 := b7[t7.at := t7.player];
    ColsFarOutGameOpenFrom4();
    OpenStep(b3, 2, t3, []);
    OpenStep(b2, 2, t2, [t3]);
    OpenStep(b1, 2, t1, [t2, t3]);
    OpenStep(b0, 2, t0, [t1, t2, t3]);
    assert ColsFarOutGame == [t0, t1, t2, t3, t4, t5, t6, t7];
  }

  /** On the board the last turn wins for Second. */
  lemma ColsFarOutGameOutcome()
    ensures Outcome(map[], NoWinner, 2, ColsFarOutGame) == Won(Second)
  {
    ColsFarOutGameLines();
    var t0 := Turn(Point(0, 0), First);
    var t1 := Turn(Point(1, 0), Second);
    var t2 := Turn(Point(2, 0), First);
    var t3 := Turn(Point(1, 2), Second);
    var t4 := Turn(Point(0, 2), First);
    var t5 := Turn(Point(3, 2), Second);
    var t6 := Turn(Point(2, 2), First);
    var t7 := Turn(Point(3, 3), Second);
    var b0: Board := map[];
    var b1 := b0[t0.at := t0.player];
    var b2 := b1[t1.at := t1.player];
    var b3 := b2[t2.at := t2.player];
    var b4 := b3[t3.at := t3.player];
    var b5 := b4[t4.at := t4.player];
    var b6 := b5[t5.at := t5.player];
    var b7 := b6[t6.at := t6.player];
    var b8 := b7[t7.at := t7.player];
    OutcomeStep(b0, NoWinner, 2, t0, [t1, t2, t3, t4, t5, t6, t7]);
    OutcomeStep(b1, NoWinner, 2, t1, [t2, t3, t4, t5, t6, t7]);
    OutcomeStep(b2, NoWinner, 2, t2, [t3, t4, t5, t6, t7]);
    OutcomeStep(b3, NoWinner, 2, t3, [t4, t5, t6, t7]);
    OutcomeStep(b4, NoWinner, 2, t4, [t5, t6, t7]);
    OutcomeStep(b5, NoWinner, 2, t5, [t6, t7]);
    OutcomeStep(b6, NoWinner, 2, t6, [t7]);
    OutcomeStep(b7, NoWinner, 2, t7, []);
    assert ColsFarOutGame == [t0, t1, t2, t3, t4, t5, t6, t7];
  }

  /** Lines 213-227: On the open board with n = 2, Second completes (3, 2), (3, 3) of the column x = 3. No earlier turn decides the game. */
  lemma SecondWinsByColsFarOut(s: State)
    requires Consistent(s) && BoardOf(s) == map[]
    requires s.winner == NoWinner && s.n == 2
    ensures Play(s, ColsFarOutGame[..7]).winner == NoWinner
    ensures Play(s, ColsFarOutGame).winner == Won(Second)
  {
    ColsFarOutGameOpen();
    ColsFarOutGameOutcome();
    PlayFollowsBoard(s, ColsFarOutGame);
    QuietBeforeLast(s, ColsFarOutGame);
  }

  /** The turns of lines 235-249. */
  const ColsNegativeGame: seq<Turn> :=
    [Turn(Point(0, 0), First), Turn(Point(-1, 0), Second), Turn(Point(-2, 0), First), Turn(Point(1, 0), Second), Turn(Point(-2, -2), First), Turn(Point(-1, -2), Second), Turn(Point(0, -2), First), Turn(Point(1, 1), Second)]

  /** The lines each turn of `ColsNegativeGame` completes. */
  lemma ColsNegativeGameLines()
    ensures !CompletesLine(map[Point(0, 0) := First], Point(0, 0), First, 2)
    ensures !CompletesLine(map[Point(0, 0) := First, Point(-1, 0) := Second], Point(-1, 0), Second, 2)
    ensures !CompletesLine(map[Point(0, 0) := First, Point(-1, 0) := Second, Point(-2, 0) := First], Point(-2, 0), First, 2)
    ensures !CompletesLine(map[Point(0, 0) := First, Point(-1, 0) := Second, Point(-2, 0) := First, Point(1, 0) := Second], Point(1, 0), Second, 2)
    ensures !CompletesLine(map[Point(0, 0) := First, Point(-1, 0) := Second, Point(-2, 0) := First, Point(1, 0) := Second, Point(-2, -2) := First], Point(-2, -2), First, 2)
    ensures !CompletesLine(map[Point(0, 0) := First, Point(-1, 0) := Second, Point(-2, 0) := First, Point(1, 0) := Second, Point(-2, -2) := First, Point(-1, -2) := Second], Point(-1, -2), Second, 2)
    ensures !CompletesLine(map[Point(0, 0) := First, Point(-1, 0) := Second, Point(-2, 0) := First, Point(1, 0) := Second, Point(-2, -2) := First, Point(-1, -2) := Second, Point(0, -2) := First], Point(0, -2), First, 2)
    ensures CompletesLine(map[Point(0, 0) := First, Point(-1, 0) := Second, Point(-2, 0) := First, Point(1, 0) := Second, Point(-2, -2) := First, Point(-1, -2) := Second, Point(0, -2) := First, Point(1, 1) := Second], Point(1, 1), Second, 2)
  {
    ColsWithTwoGameTurn0();
    RowsNegativeGameTurn1();
    ColsNegativeGameTurn2();
    ColsNegativeGameTurn3();
    ColsNegativeGameTurn4();
    ColsNegativeGameTurn5();
    ColsNegativeGameTurn6();
    ColsNegativeGameTurn7();
  }

  /** Turn 2 of `ColsNegativeGame`: Point(-2, 0) completes no line. */
  lemma ColsNegativeGameTurn2()
    ensures !CompletesLine(map[Point(0, 0) := First, Point(-1, 0) := Second, Point(-2, 0) := First], Point(-2, 0), First, 2)
  {
    Isolated(map[Point(0, 0) := First, Point(-1, 0) := Second, Point(-2, 0) := First], Point(-2, 0), First, 2);
  }

  /** Turn 3 of `ColsNegativeGame`: Point(1, 0) completes no line. */
  lemma ColsNegativeGameTurn3()
    ensures !CompletesLine(map[Point(0, 0) := First, Point(-1, 0) := Second, Point(-2, 0) := First, Point(1, 0) := Second], Point(1, 0), Second, 2)
  {
    Isolated(map[Point(0, 0) := First, Point(-1, 0) := Second, Point(-2, 0) := First, Point(1, 0) := Second], Point(1, 0), Second, 2);
  }

  /** Turn 4 of `ColsNegativeGame`: Point(-2, -2) completes no line. */
  lemma ColsNegativeGameTurn4()
    ensures !CompletesLine(map[Point(0, 0) := First, Point(-1, 0) := Second, Point(-2, 0) := First, Point(1, 0) := Second, Point(-2, -2) := First], Point(-2, -2), First, 2)
  {
    Isolated(map[Point(0, 0) := First, Point(-1, 0) := Second, Point(-2, 0) := First, Point(1, 0) := Second, Point(-2, -2) := First], Point(-2, -2), First, 2);
  }

  /** Turn 5 of `ColsNegativeGame`: Point(-1, -2) completes no line. */
  lemma ColsNegativeGameTurn5()
    ensures !CompletesLine(map[Point(0, 0) := First, Point(-1, 0) := Second, Point(-2, 0) := First, Point(1, 0) := Second, Point(-2, -2) := First, Point(-1, -2) := Second], Point(-1, -2), Second, 2)
  {
    Isolated(map[Point(0, 0) := First, Point(-1, 0) := Second, Point(-2, 0) := First, Point(1, 0) := Second, Point(-2, -2) := First, Point(-1, -2) := Second], Point(-1, -2), Second, 2);
  }

  /** Turn 6 of `ColsNegativeGame`: Point(0, -2) completes no line. */
  lemma ColsNegativeGameTurn6()
    ensures !CompletesLine(map[Point(0, 0) := First, Point(-1, 0) := Second, Point(-2, 0) := First, Point(1, 0) := Second, Point(-2, -2) := First, Point(-1, -2) := Second, Point(0, -2) := First], Point(0, -2), First, 2)
  {
    Isolated(map[Point(0, 0) := First, Point(-1, 0) := Second, Point(-2, 0) := First, Point(1, 0) := Second, Point(-2, -2) := First, Point(-1, -2) := Second, Point(0, -2) := First], Point(0, -2), First, 2);
  }

  /** Turn 7 of `ColsNegativeGame`: Point(1, 1) completes a line. */
  lemma ColsNegativeGameTurn7()
    ensures CompletesLine(map[Point(0, 0) := First, Point(-1, 0) := Second, Point(-2, 0) := First, Point(1, 0) := Second, Point(-2, -2) := First, Point(-1, -2) := Second, Point(0, -2) := First, Point(1, 1) := Second], Point(1, 1), Second, 2)
  {
    WalledCompletes(map[Point(0, 0) := First, Point(-1, 0) := Second, Point(-2, 0) := First, Point(1, 0) := Second, Point(-2, -2) := First, Point(-1, -2) := Second, Point(0, -2) := First, Point(1, 1) := Second], 1, 1, 0, 1, Second, -1, [Point(1, 0), Point(1, 1)]);
  }

  /** On the board the turns from turn 4 on go onto free points and none before the last completes a line. */
  lemma ColsNegativeGameOpenFrom4()
    ensures OpenUntilLast(map[Point(0, 0) := First, Point(-1, 0) := Second, Point(-2, 0) := First, Point(1, 0) := Second], 2, [Turn(Point(-2, -2), First), Turn(Point(-1, -2), Second), Turn(Point(0, -2), First), Turn(Point(1, 1), Second)])
  {
    ColsNegativeGameTurn4();
    ColsNegativeGameTurn5();
    ColsNegativeGameTurn6();
    var t0 := Turn(Point(0, 0), First);
    var t1 := Turn(Point(-1, 0), Second);
    var t2 := Turn(Point(-2, 0), First);
    var t3 := Turn(Point(1, 0), Second);
    var t4 := Turn(Point(-2, -2), First);
    var t5 := Turn(Point(-1, -2), Second);
    var t6 := Turn(Point(0, -2), First);
    var t7 := Turn(Point(1, 1), Second);
    var b0: Board := map[];
    var b1 := b0[t0.at := t0.player];
    var b2 := b1[t1.at := t1.player];
    var b3 := b2[t2.at := t2.player];
    var b4 := b3[t3.at := t3.player];
    var b5 := b4[t4.at := t4.player];
    var b6 := b5[t5.at := t5.player];
    var b7 := b6[t6.at := t6.player];
    var b8 := b7[t7.at := t7.player];
    OpenStep(b7, 2, t7, []);
    OpenStep(b6, 2, t6, [t7]);
    OpenStep(b5, 2, t5, [t6, t7]);
    OpenStep(b4, 2, t4, [t5, t6, t7]);
  }

  /** On the board every turn goes onto a free point and none before the last completes a line. */
  lemma ColsNegativeGameOpen()
    ensures OpenUntilLast(map[], 2, ColsNegativeGame)
  {
    ColsWithTwoGameTurn0();
    RowsNegativeGameTurn1();
    ColsNegativeGameTurn2();
    ColsNegativeGameTurn3();
    var t0 := Turn(Point(0, 0), First);
    var t1 := Turn(Point(-1, 0), Second);
    var t2 := Turn(Point(-2, 0), First);
    var t3 := Turn(Point(1, 0), Second);
    var t4 := Turn(Point(-2, -2), First);
    var t5 := Turn(Point(-1, -2), Second);
    var t6 := Turn(Point(0, -2), First);
    var t7 := Turn(Point(1, 1), Second);
    var b0: Board := map[];
    var b1 := b0[t0.at := t0.player];
    var b2 := b1[t1.at := t1.player];
    var b3 := b2[t2.at := t2.player];
    var b4 := b3[t3.at := t3.player];
    var b5 := b4[t4.at := t4.player];
    var b6 := b5[t5.at := t5.player];
    var b7 := b6[t6.at := t6.player];
    var b8 := b7[t7.at := t7.player];
    ColsNegativeGameOpenFrom4();
    OpenStep(b3, 2, t3, []);
    OpenStep(b2, 2, t2, [t3]);
    OpenStep(b1, 2, t1, [t2, t3]);
    OpenStep(b0, 2, t0, [t1, t2, t3]);
    assert ColsNegativeGame == [t0, t1, t2, t3, t4, t5, t6, t7];
  }

  /** On the board the last turn wins for Second. */
  lemma ColsNegativeGameOutcome()
    ensures Outcome(map[], NoWinner, 2, ColsNegativeGame) == Won(Second)
  {
    ColsNegativeGameLines();
    var t0 := Turn(Point(0, 0), First);
    var t1 := Turn(Point(-1, 0), Second);
    var t2 := Turn(Point(-2, 0), First);
    var t3 := Turn(Point(1, 0), Second);
    var t4 := Turn(Point(-2, -2), First);
    var t5 := Turn(Point(-1, -2), Second);
    var t6 := Turn(Point(0, -2), First);
    var t7 := Turn(Point(1, 1), Second);
    var b0: Board := map[];
    var b1 := b0[t0.at := t0.player];
    var b2 := b1[t1.at := t1.player];
    var b3 := b2[t2.at := t2.player];
    var b4 := b3[t3.at := t3.player];
    var b5 := b4[t4.at := t4.player];
    var b6 := b5[t5.at := t5.player];
    var b7 := b6[t6.at := t6.player];
    var b8 := b7[t7.at := t7.player];
    OutcomeStep(b0, NoWinner, 2, t0, [t1, t2, t3, t4, t5, t6, t7]);
    OutcomeStep(b1, NoWinner, 2, t1, [t2, t3, t4, t5, t6, t7]);
    OutcomeStep(b2, NoWinner, 2, t2, [t3, t4, t5, t6, t7]);
    OutcomeStep(b3, NoWinner, 2, t3, [t4, t5, t6, t7]);
    OutcomeStep(b4, NoWinner, 2, t4, [t5, t6, t7]);
    OutcomeStep(b5, NoWinner, 2, t5, [t6, t7]);
    OutcomeStep(b6, NoWinner, 2, t6, [t7]);
    OutcomeStep(b7, NoWinner, 2, t7, []);
    assert ColsNegativeGame == [t0, t1, t2, t3, t4, t5, t6, t7];
  }

  /** Lines 235-249: With negative coordinates and n = 2, Second completes (1, 0), (1, 1) of the column x = 1. No earlier turn decides the game. */
  lemma SecondWinsByColsNegative(s: State)
    requires Consistent(s) && BoardOf(s) == map[]
    requires s.winner == NoWinner && s.n == 2
    ensures Play(s, ColsNegativeGame[..7]).winner == NoWinner
    ensures Play(s, ColsNegativeGame).winner == Won(Second)
  {
    ColsNegativeGameOpen();
    ColsNegativeGameOutcome();
    PlayFollowsBoard(s, ColsNegativeGame);
    QuietBeforeLast(s, ColsNegativeGame);
  }

  /** The turns of lines 259-274. */
  const DiagonalFarOutGame: seq<Turn> :=
    [Turn(Point(0, 0), First), Turn(Point(1, 0), Second), Turn(Point(1, 1), First), Turn(Point(1, 2), Second), Turn(Point(3, 3), First), Turn(Point(3, 0), Second), Turn(Point(5, 5), First), Turn(Point(4, 0), Second), Turn(Point(4, 4), First)]

  /** The lines each turn of `DiagonalFarOutGame` completes. */
  lemma DiagonalFarOutGameLines()
    ensures !CompletesLine(map[Point(0, 0) := First], Point(0, 0), First, 3)
    ensures !CompletesLine(map[Point(0, 0) := First, Point(1, 0) := Second], Point(1, 0), Second, 3)
    ensures !CompletesLine(map[Point(0, 0) := First, Point(1, 0) := Second, Point(1, 1) := First], Point(1, 1), First, 3)
    ensures !CompletesLine(map[Point(0, 0) := First, Point(1, 0) := Second, Point(1, 1) := First, Point(1, 2) := Second], Point(1, 2), Second, 3)
    ensures !CompletesLine(map[Point(0, 0) := First, Point(1, 0) := Second, Point(1, 1) := First, Point(1, 2) := Second, Point(3, 3) := First], Point(3, 3), First, 3)
    ensures !CompletesLine(map[Point(0, 0) := First, Point(1, 0) := Second, Point(1, 1) := First, Point(1, 2) := Second, Point(3, 3) := First, Point(3, 0) := Second], Point(3, 0), Second, 3)
    ensures !CompletesLine(map[Point(0, 0) := First, Point(1, 0) := Second, Point(1, 1) := First, Point(1, 2) := Second, Point(3, 3) := First, Point(3, 0) := Second, Point(5, 5) := First], Point(5, 5), First, 3)
    ensures !CompletesLine(map[Point(0, 0) := First, Point(1, 0) := Second, Point(1, 1) := First, Point(1, 2) := Second, Point(3, 3) := First, Point(3, 0) := Second, Point(5, 5) := First, Point(4, 0) := Second], Point(4, 0), Second, 3)
    ensures CompletesLine(map[Point(0, 0) := First, Point(1, 0) := Second, Point(1, 1) := First, Point(1, 2) := Second, Point(3, 3) := First, Point(3, 0) := Second, Point(5, 5) := First, Point(4, 0) := Second, Point(4, 4) := First], Point(4, 4), First, 3)
  {
    RowsWithThreeGameTurn0();
    ColsWithThreeGameTurn1();
    DiagonalWithThreeGameTurn2();
    DiagonalWithThreeGameTurn3();
    DiagonalFarOutGameTurn4();
    DiagonalFarOutGameTurn5();
    DiagonalFarOutGameTurn6();
    DiagonalFarOutGameTurn7();
    DiagonalFarOutGameTurn8();
  }

  /** Turn 4 of `DiagonalFarOutGame`: Point(3, 3) completes no line. */
  lemma DiagonalFarOutGameTurn4()
    ensures !CompletesLine(map[Point(0, 0) := First, Point(1, 0) := Second, Point(1, 1) := First, Point(1, 2) := Second, Point(3, 3) := First], Point(3, 3), First, 3)
  {
    Isolated(map[Point(0, 0) := First, Point(1, 0) := Second, Point(1, 1) := First, Point(1, 2) := Second, Point(3, 3) := First], Point(3, 3), First, 3);
  }

  /** Turn 5 of `DiagonalFarOutGame`: Point(3, 0) completes no line. */
  lemma DiagonalFarOutGameTurn5()
    ensures !CompletesLine(map[Point(0, 0) := First, Point(1, 0) := Second, Point(1, 1) := First, Point(1, 2) := Second, Point(3, 3) := First, Point(3, 0) := Second], Point(3, 0), Second, 3)
  {
    Isolated(map[Point(0, 0) := First, Point(1, 0) := Second, Point(1, 1) := First, Point(1, 2) := Second, Point(3, 3) := First, Point(3, 0) := Second], Point(3, 0), Second, 3);
  }

  /** Turn 6 of `DiagonalFarOutGame`: Point(5, 5) completes no line. */
  lemma DiagonalFarOutGameTurn6()
    ensures !CompletesLine(map[Point(0, 0) := First, Point(1, 0) := Second, Point(1, 1) := First, Point(1, 2) := Second, Point(3, 3) := First, Point(3, 0) := Second, Point(5, 5) := First], Point(5, 5), First, 3)
  {
    Isolated(map[Point(0, 0) := First, Point(1, 0) := Second, Point(1, 1) := First, Point(1, 2) := Second, Point(3, 3) := First, Point(3, 0) := Second, Point(5, 5) := First], Point(5, 5), First, 3);
  }

  /** The runs of marks through turn 7 of `DiagonalFarOutGame`, along the row and the column. */
  lemma DiagonalFarOutGameStraightRuns7()
    ensures Walled(map[Point(0, 0) := First, Point(1, 0) := Second, Point(1, 1) := First, Point(1, 2) := Second, Point(3, 3) := First, Point(3, 0) := Second, Point(5, 5) := First, Point(4, 0) := Second], 4, 0, 1, 0, Second, -1, [Point(3, 0), Point(4, 0)])
    ensures Walled(map[Point(0, 0) := First, Point(1, 0) := Second, Point(1, 1) := First, Point(1, 2) := Second, Point(3, 3) := First, Point(3, 0) := Second, Point(5, 5) := First, Point(4, 0) := Second], 4, 0, 0, 1, Second, 0, [Point(4, 0)])
  {
  }

  /** The runs of marks through turn 7 of `DiagonalFarOutGame`, along the two diagonals. */
  lemma DiagonalFarOutGameSlantedRuns7()
    ensures Walled(map[Point(0, 0) := First, Point(1, 0) := Second, Point(1, 1) := First, Point(1, 2) := Second, Point(3, 3) := First, Point(3, 0) := Second, Point(5, 5) := First, Point(4, 0) := Second], 4, 0, 1, 1, Second, 0, [Point(4, 0)])
    ensures Walled(map[Point(0, 0) := First, Point(1, 0) := Second, Point(1, 1) := First, Point(1, 2) := Second, Point(3, 3) := First, Point(3, 0) := Second, Point(5, 5) := First, Point(4, 0) := Second], 4, 0, 1, -1, Second, 0, [Point(4, 0)])
  {
  }

  /** Turn 7 of `DiagonalFarOutGame`: Point(4, 0) completes no line. */
  lemma DiagonalFarOutGameTurn7()
    ensures !CompletesLine(map[Point(0, 0) := First, Point(1, 0) := Second, Point(1, 1) := First, Point(1, 2) := Second, Point(3, 3) := First, Point(3, 0) := Second, Point(5, 5) := First, Point(4, 0) := Second], Point(4, 0), Second, 3)
  {
    DiagonalFarOutGameStraightRuns7();
    DiagonalFarOutGameSlantedRuns7();
    WalledSpans(map[Point(0, 0) := First, Point(1, 0) := Second, Point(1, 1) := First, Point(1, 2) := Second, Point(3, 3) := First, Point(3, 0) := Second, Point(5, 5) := First, Point(4, 0) := Second], 4, 0, Second, 3,
      -1, [Point(3, 0), Point(4, 0)], 0, [Point(4, 0)], 0, [Point(4, 0)], 0, [Point(4, 0)]);
  }

  /** Turn 8 of `DiagonalFarOutGame`: Point(4, 4) completes a line. */
  lemma DiagonalFarOutGameTurn8()
    ensures CompletesLine(map[Point(0, 0) := First, Point(1, 0) := Second, Point(1, 1) := First, Point(1, 2) := Second, Point(3, 3) := First, Point(3, 0) := Second, Point(5, 5) := First, Point(4, 0) := Second, Point(4, 4) := First], Point(4, 4), First, 3)
  {
    WalledCompletes(map[Point(0, 0) := First, Point(1, 0) := Second, Point(1, 1) := First, Point(1, 2) := Second, Point(3, 3) := First, Point(3, 0) := Second, Point(5, 5) := First, Point(4, 0) := Second, Point(4, 4) := First], 4, 4, 1, 1, First, -1, [Point(3, 3), Point(4, 4), Point(5, 5)]);
  }

  /** On the board the turns from turn 4 on go onto free points and none before the last completes a line. */
  lemma DiagonalFarOutGameOpenFrom4()
    ensures OpenUntilLast(map[Point(0, 0) := First, Point(1, 0) := Second, Point(1, 1) := First, Point(1, 2) := Second], 3, [Turn(Point(3, 3), First), Turn(Point(3, 0), Second), Turn(Point(5, 5), First), Turn(Point(4, 0), Second), Turn(Point(4, 4), First)])
  {
    DiagonalFarOutGameTurn4();
    DiagonalFarOutGameTurn5();
    DiagonalFarOutGameTurn6();
    DiagonalFarOutGameTurn7();
    var t0 := Turn(Point(0, 0), First);
    var t1 := Turn(Point(1, 0), Second);
    var t2 := Turn(Point(1, 1), First);
    var t3 := Turn(Point(1, 2), Second);
    var t4 := Turn(Point(3, 3), First);
    var t5 := Turn(Point(3, 0), Second);
    var t6 := Turn(Point(5, 5), First);
    var t7 := Turn(Point(4, 0), Second);
    var t8 := Turn(Point(4, 4), First);
    var b0: Board := map[];
    var b1 := b0[t0.at := t0.player];
    var b2 := b1[t1.at := t1.player];
    var b3 := b2[t2.at := t2.player];
    var b4 := b3[t3.at := t3.player];
    var b5 := b4[t4.at := t4.player];
    var b6 := b5[t5.at := t5.player];
    var b7 := b6[t6.at := t6.player];
    var b8 := b7[t7.at := t7.player];
    var b9 := b8[t8.at := t8.player];
    OpenStep(b8, 3, t8, []);
    OpenStep(b7, 3, t7, [t8]);
    OpenStep(b6, 3, t6, [t7, t8]);
    OpenStep(b5, 3, t5, [t6, t7, t8]);
    OpenStep(b4, 3, t4, [t5, t6, t7, t8]);
  }

  /** On the board every turn goes onto a free point and none before the last completes a line. */
  lemma DiagonalFarOutGameOpen()
    ensures OpenUntilLast(map[], 3, DiagonalFarOutGame)
  {
    RowsWithThreeGameTurn0();
    ColsWithThreeGameTurn1();
    DiagonalWithThreeGameTurn2();
    DiagonalWithThreeGameTurn3();
    var t0 := Turn(Point(0, 0), First);
    var t1 := Turn(Point(1, 0), Second);
    var t2 := Turn(Point(1, 1), First);
    var t3 := Turn(Point(1, 2), Second);
    var t4 := Turn(Point(3, 3), First);
    var t5 := Turn(Point(3, 0), Second);
    var t6 := Turn(Point(5, 5), First);
    var t7 := Turn(Point(4, 0), Second);
    var t8 := Turn(Point(4, 4), First);
    var b0: Board := map[];
    var b1 := b0[t0.at := t0.player];
    var b2 := b1[t1.at := t1.player];
    var b3 := b2[t2.at := t2.player];
    var b4 := b3[t3.at := t3.player];
    var b5 := b4[t4.at := t4.player];
    var b6 := b5[t5.at := t5.player];
    var b7 := b6[t6.at := t6.player];
    var b8 := b7[t7.at := t7.player];
    var b9 := b8[t8.at := t8.player];
    DiagonalFarOutGameOpenFrom4();
    OpenStep(b3, 3, t3, []);
    OpenStep(b2, 3, t2, [t3]);
    OpenStep(b1, 3, t1, [t2, t3]);
    OpenStep(b0, 3, t0, [t1, t2, t3]);
    assert DiagonalFarOutGame == [t0, t1, t2, t3, t4, t5, t6, t7, t8];
  }

  /** On the board the last turn wins for First. */
  lemma DiagonalFarOutGameOutcome()
    ensures Outcome(map[], NoWinner, 3, DiagonalFarOutGame) == Won(First)
  {
    DiagonalFarOutGameLines();
    var t0 := Turn(Point(0, 0), First);
    var t1 := Turn(Point(1, 0), Second);
    var t2 := Turn(Point(1, 1), First);
    var t3 := Turn(Point(1, 2), Second);
    var t4 := Turn(Point(3, 3), First);
    var t5 := Turn(Point(3, 0), Second);
    var t6 := Turn(Point(5, 5), First);
    var t7 := Turn(Point(4, 0), Second);
    var t8 := Turn(Point(4, 4), First);
    var b0: Board := map[];
    var b1 := b0[t0.at := t0.player];
    var b2 := b1[t1.at := t1.player];
    var b3 := b2[t2.at := t2.player];
    var b4 := b3[t3.at := t3.player];
    var b5 := b4[t4.at := t4.player];
    var b6 := b5[t5.at := t5.player];
    var b7 := b6[t6.at := t6.player];
    var b8 := b7[t7.at := t7.player];
    var b9 := b8[t8.at := t8.player];
    OutcomeStep(b0, NoWinner, 3, t0, [t1, t2, t3, t4, t5, t6, t7, t8]);
    OutcomeStep(b1, NoWinner, 3, t1, [t2, t3, t4, t5, t6, t7, t8]);
    OutcomeStep(b2, NoWinner, 3, t2, [t3, t4, t5, t6, t7, t8]);
    OutcomeStep(b3, NoWinner, 3, t3, [t4, t5, t6, t7, t8]);
    OutcomeStep(b4, NoWinner, 3, t4, [t5, t6, t7, t8]);
    OutcomeStep(b5, NoWinner, 3, t5, [t6, t7, t8]);
    OutcomeStep(b6, NoWinner, 3, t6, [t7, t8]);
    OutcomeStep(b7, NoWinner, 3, t7, [t8]);
    OutcomeStep(b8, NoWinner, 3, t8, []);
    assert DiagonalFarOutGame == [t0, t1, t2, t3, t4, t5, t6, t7, t8];
  }

  /** Lines 259-274: With n = 3, First's marks (3, 3) and (5, 5) are apart until (4, 4) joins them into a block of three; (0, 0), (1, 1) stay a separate block of two. No earlier turn decides the game. */
  lemma FirstWinsByDiagonalFarOut(s: State)
    requires Consistent(s) && BoardOf(s) == map[]
    requires s.winner == NoWinner && s.n == 3
    ensures Play(s, DiagonalFarOutGame[..8]).winner == NoWinner
    ensures Play(s, DiagonalFarOutGame).winner == Won(First)
  {
    DiagonalFarOutGameOpen();
    DiagonalFarOutGameOutcome();
    PlayFollowsBoard(s, DiagonalFarOutGame);
    QuietBeforeLast(s, DiagonalFarOutGame);
  }

  /** The turns of lines 284-300. */
  const CoDiagonalFarOutGame: seq<Turn> :=
    [Turn(Point(0, 0), First), Turn(Point(5, 0), Second), Turn(Point(1, 1), First), Turn(Point(4, 1), Second), Turn(Point(1, 0), First), Turn(Point(0, 5), Second), Turn(Point(3, 3), First), Turn(Point(2, 3), Second), Turn(Point(5, 5), First), Turn(Point(1, 4), Second)]

  /** The lines each turn of `CoDiagonalFarOutGame` completes. */
  lemma CoDiagonalFarOutGameLines()
    ensures !CompletesLine(map[Point(0, 0) := First], Point(0, 0), First, 3)
    ensures !CompletesLine(map[Point(0, 0) := First, Point(5, 0) := Second], Point(5, 0), Second, 3)
    ensures !CompletesLine(map[Point(0, 0) := First, Point(5, 0) := Second, Point(1, 1) := First], Point(1, 1), First, 3)
    ensures !CompletesLine(map[Point(0, 0) := First, Point(5, 0) := Second, Point(1, 1) := First, Point(4, 1) := Second], Point(4, 1), Second, 3)
    ensures !CompletesLine(map[Point(0, 0) := First, Point(5, 0) := Second, Point(1, 1) := First, Point(4, 1) := Second, Point(1, 0) := First], Point(1, 0), First, 3)
    ensures !CompletesLine(map[Point(0, 0) := First, Point(5, 0) := Second, Point(1, 1) := First, Point(4, 1) := Second, Point(1, 0) := First, Point(0, 5) := Second], Point(0, 5), Second, 3)
    ensures !CompletesLine(map[Point(0, 0) := First, Point(5, 0) := Second, Point(1, 1) := First, Point(4, 1) := Second, Point(1, 0) := First, Point(0, 5) := Second, Point(3, 3) := First], Point(3, 3), First, 3)
    ensures !CompletesLine(map[Point(0, 0) := First, Point(5, 0) := Second, Point(1, 1) := First, Point(4, 1) := Second, Point(1, 0) := First, Point(0, 5) := Second, Point(3, 3) := First, Point(2, 3) := Second], Point(2, 3), Second, 3)
    ensures !CompletesLine(map[Point(0, 0) := First, Point(5, 0) := Second, Point(1, 1) := First, Point(4, 1) := Second, Point(1, 0) := First, Point(0, 5) := Second, Point(3, 3) := First, Point(2, 3) := Second, Point(5, 5) := First], Point(5, 5), First, 3)
    ensures CompletesLine(map[Point(0, 0) := First, Point(5, 0) := Second, Point(1, 1) := First, Point(4, 1) := Second, Point(1, 0) := First, Point(0, 5) := Second, Point(3, 3) := First, Point(2, 3) := Second, Point(5, 5) := First, Point(1, 4) := Second], Point(1, 4), Second, 3)
  {
    RowsWithThreeGameTurn0();
    CoDiagonalFarOutGameTurn1();
    CoDiagonalFarOutGameTurn2();
    CoDiagonalFarOutGameTurn3();
    CoDiagonalFarOutGameTurn4();
    CoDiagonalFarOutGameTurn5();
    CoDiagonalFarOutGameTurn6();
    CoDiagonalFarOutGameTurn7();
    CoDiagonalFarOutGameTurn8();
    CoDiagonalFarOutGameTurn9();
  }

  /** Turn 1 of `CoDiagonalFarOutGame`: Point(5, 0) completes no line. */
  lemma CoDiagonalFarOutGameTurn1()
    ensures !CompletesLine(map[Point(0, 0) := First, Point(5, 0) := Second], Point(5, 0), Second, 3)
  {
    Isolated(map[Point(0, 0) := First, Point(5, 0) := Second], Point(5, 0), Second, 3);
  }

  /** The runs of marks through turn 2 of `CoDiagonalFarOutGame`, along the row and the column. */
  lemma CoDiagonalFarOutGameStraightRuns2()
    ensures Walled(map[Point(0, 0) := First, Point(5, 0) := Second, Point(1, 1) := First], 1, 1, 1, 0, First, 0, [Point(1, 1)])
    ensures Walled(map[Point(0, 0) := First, Point(5, 0) := Second, Point(1, 1) := First], 1, 1, 0, 1, First, 0, [Point(1, 1)])
  {
  }

  /** The runs of marks through turn 2 of `CoDiagonalFarOutGame`, along the two diagonals. */
  lemma CoDiagonalFarOutGameSlantedRuns2()
    ensures Walled(map[Point(0, 0) := First, Point(5, 0) := Second, Point(1, 1) := First], 1, 1, 1, 1, First, -1, [Point(0, 0), Point(1, 1)])
    ensures Walled(map[Point(0, 0) := First, Point(5, 0) := Second, Point(1, 1) := First], 1, 1, 1, -1, First, 0, [Point(1, 1)])
  {
  }

  /** Turn 2 of `CoDiagonalFarOutGame`: Point(1, 1) completes no line. */
  lemma CoDiagonalFarOutGameTurn2()
    ensures !CompletesLine(map[Point(0, 0) := First, Point(5, 0) := Second, Point(1, 1) := First], Point(1, 1), First, 3)
  {
    CoDiagonalFarOutGameStraightRuns2();
    CoDiagonalFarOutGameSlantedRuns2();
    WalledSpans(map[Point(0, 0) := First, Point(5, 0) := Second, Point(1, 1) := First], 1, 1, First, 3,
      0, [Point(1, 1)], 0, [Point(1, 1)], -1, [Point(0, 0), Point(1, 1)], 0, [Point(1, 1)]);
  }

  /** The runs of marks through turn 3 of `CoDiagonalFarOutGame`, along the row and the column. */
  lemma CoDiagonalFarOutGameStraightRuns3()
    ensures Walled(map[Point(0, 0) := First, Point(5, 0) := Second, Point(1, 1) := First, Point(4, 1) := Second], 4, 1, 1, 0, Second, 0, [Point(4, 1)])
    ensures Walled(map[Point(0, 0) := First, Point(5, 0) := Second, Point(1, 1) := First, Point(4, 1) := Second], 4, 1, 0, 1, Second, 0, [Point(4, 1)])
  {
  }

  /** The runs of marks through turn 3 of `CoDiagonalFarOutGame`, along the two diagonals. */
  lemma CoDiagonalFarOutGameSlantedRuns3()
    ensures Walled(map[Point(0, 0) := First, Point(5, 0) := Second, Point(1, 1) := First, Point(4, 1) := Second], 4, 1, 1, 1, Second, 0, [Point(4, 1)])
    ensures Walled(map[Point(0, 0) := First, Point(5, 0) := Second, Point(1, 1) := First, Point(4, 1) := Second], 4, 1, 1, -1, Second, 0, [Point(4, 1), Point(5, 0)])
  {
  }

  /** Turn 3 of `CoDiagonalFarOutGame`: Point(4, 1) completes no line. */
  lemma CoDiagonalFarOutGameTurn3()
    ensures !CompletesLine(map[Point(0, 0) := First, Point(5, 0) := Second, Point(1, 1) := First, Point(4, 1) := Second], Point(4, 1), Second, 3)
  {
    CoDiagonalFarOutGameStraightRuns3();
    CoDiagonalFarOutGameSlantedRuns3();
    WalledSpans(map[Point(0, 0) := First, Point(5, 0) := Second, Point(1, 1) := First, Point(4, 1) := Second], 4, 1, Second, 3,
      0, [Point(4, 1)], 0, [Point(4, 1)], 0, [Point(4, 1)], 0, [Point(4, 1), Point(5, 0)]);
  }

  /** The runs of marks through turn 4 of `CoDiagonalFarOutGame`, along the row and the column. */
  lemma CoDiagonalFarOutGameStraightRuns4()
    ensures Walled(map[Point(0, 0) := First, Point(5, 0) := Second, Point(1, 1) := First, Point(4, 1) := Second, Point(1, 0) := First], 1, 0, 1, 0, First, -1, [Point(0, 0), Point(1, 0)])
    ensures Walled(map[Point(0, 0) := First, Point(5, 0) := Second, Point(1, 1) := First, Point(4, 1) := Second, Point(1, 0) := First], 1, 0, 0, 1, First, 0, [Point(1, 0), Point(1, 1)])
  {
  }

  /** The runs of marks through turn 4 of `CoDiagonalFarOutGame`, along the two diagonals. */
  lemma CoDiagonalFarOutGameSlantedRuns4()
    ensures Walled(map[Point(0, 0) := First, Point(5, 0) := Second, Point(1, 1) := First, Point(4, 1) := Second, Point(1, 0) := First], 1, 0, 1, 1, First, 0, [Point(1, 0)])
    ensures Walled(map[Point(0, 0) := First, Point(5, 0) := Second, Point(1, 1) := First, Point(4, 1) := Second, Point(1, 0) := First], 1, 0, 1, -1, First, 0, [Point(1, 0)])
  {
  }

  /** Turn 4 of `CoDiagonalFarOutGame`: Point(1, 0) completes no line. */
  lemma CoDiagonalFarOutGameTurn4()
    ensures !CompletesLine(map[Point(0, 0) := First, Point(5, 0) := Second, Point(1, 1) := First, Point(4, 1) := Second, Point(1, 0) := First], Point(1, 0), First, 3)
  {
    CoDiagonalFarOutGameStraightRuns4();
    CoDiagonalFarOutGameSlantedRuns4();
    WalledSpans(map[Point(0, 0) := First, Point(5, 0) := Second, Point(1, 1) := First, Point(4, 1) := Second, Point(1, 0) := First], 1, 0, First, 3,
      -1, [Point(0, 0), Point(1, 0)], 0, [Point(1, 0), Point(1, 1)], 0, [Point(1, 0)], 0, [Point(1, 0)]);
  }

  /** Turn 5 of `CoDiagonalFarOutGame`: Point(0, 5) completes no line. */
  lemma CoDiagonalFarOutGameTurn5()
    ensures !CompletesLine(map[Point(0, 0) := First, Point(5, 0) := Second, Point(1, 1) := First, Point(4, 1) := Second, Point(1, 0) := First, Point(0, 5) := Second], Point(0, 5), Second, 3)
  {
    Isolated(map[Point(0, 0) := First, Point(5, 0) := Second, Point(1, 1) := First, Point(4, 1) := Second, Point(1, 0) := First, Point(0, 5) := Second], Point(0, 5), Second, 3);
  }

  /** Turn 6 of `CoDiagonalFarOutGame`: Point(3, 3) completes no line. */
  lemma CoDiagonalFarOutGameTurn6()
    ensures !CompletesLine(map[Point(0, 0) := First, Point(5, 0) := Second, Point(1, 1) := First, Point(4, 1) := Second, Point(1, 0) := First, Point(0, 5) := Second, Point(3, 3) := First], Point(3, 3), First, 3)
  {
    Isolated(map[Point(0, 0) := First, Point(5, 0) := Second, Point(1, 1) := First, Point(4, 1) := Second, Point(1, 0) := First, Point(0, 5) := Second, Point(3, 3) := First], Point(3, 3), First, 3);
  }

  /** Turn 7 of `CoDiagonalFarOutGame`: Point(2, 3) completes no line. */
  lemma CoDiagonalFarOutGameTurn7()
    ensures !CompletesLine(map[Point(0, 0) := First, Point(5, 0) := Second, Point(1, 1) := First, Point(4, 1) := Second, Point(1, 0) := First, Point(0, 5) := Second, Point(3, 3) := First, Point(2, 3) := Second], Point(2, 3), Second, 3)
  {
    Isolated(map[Point(0, 0) := First, Point(5, 0) := Second, Point(1, 1) := First, Point(4, 1) := Second, Point(1, 0) := First, Point(0, 5) := Second, Point(3, 3) := First, Point(2, 3) := Second], Point(2, 3), Second, 3);
  }

  /** Turn 8 of `CoDiagonalFarOutGame`: Point(5, 5) completes no line. */
  lemma CoDiagonalFarOutGameTurn8()
    ensures !CompletesLine(map[Point(0, 0) := First, Point(5, 0) := Second, Point(1, 1) := First, Point(4, 1) := Second, Point(1, 0) := First, Point(0, 5) := Second, Point(3, 3) := First, Point(2, 3) := Second, Point(5, 5) := First], Point(5, 5), First, 3)
  {
    Isolated(map[Point(0, 0) := First, Point(5, 0) := Second, Point(1, 1) := First, Point(4, 1) := Second, Point(1, 0) := First, Point(0, 5) := Second, Point(3, 3) := First, Point(2, 3) := Second, Point(5, 5) := First], Point(5, 5), First, 3);
  }

  /** Turn 9 of `CoDiagonalFarOutGame`: Point(1, 4) completes a line. */
  lemma CoDiagonalFarOutGameTurn9()
    ensures CompletesLine(map[Point(0, 0) := First, Point(5, 0) := Second, Point(1, 1) := First, Point(4, 1) := Second, Point(1, 0) := First, Point(0, 5) := Second, Point(3, 3) := First, Point(2, 3) := Second, Point(5, 5) := First, Point(1, 4) := Second], Point(1, 4), Second, 3)
  {
    WalledCompletes(map[Point(0, 0) := First, Point(5, 0) := Second, Point(1, 1) := First, Point(4, 1) := Second, Point(1, 0) := First, Point(0, 5) := Second, Point(3, 3) := First, Point(2, 3) := Second, Point(5, 5) := First, Point(1, 4) := Second], 1, 4, 1, -1, Second, -1, [Point(0, 5), Point(1, 4), Point(2, 3)]);
  }

  /** On the board the turns from turn 5 on go onto free points and none before the last completes a line. */
  lemma CoDiagonalFarOutGameOpenFrom5()
    ensures OpenUntilLast(map[Point(0, 0) := First, Point(5, 0) := Second, Point(1, 1) := First, Point(4, 1) := Second, Point(1, 0) := First], 3, [Turn(Point(0, 5), Second), Turn(Point(3, 3), First), Turn(Point(2, 3), Second), Turn(Point(5, 5), First), Turn(Point(1, 4), Second)])
  {
    CoDiagonalFarOutGameTurn5();
    CoDiagonalFarOutGameTurn6();
    CoDiagonalFarOutGameTurn7();
    CoDiagonalFarOutGameTurn8();
    var t0 := Turn(Point(0, 0), First);
    var t1 := Turn(Point(5, 0), Second);
    var t2 := Turn(Point(1, 1), First);
    var t3 := Turn(Point(4, 1), Second);
    var t4 := Turn(Point(1, 0), First);
    var t5 := Turn(Point(0, 5), Second);
    var t6 := Turn(Point(3, 3), First);
    var t7 := Turn(Point(2, 3), Second);
    var t8 := Turn(Point(5, 5), First);
    var t9 := Turn(Point(1, 4), Second);
    var b0: Board := map[];
    var b1 := b0[t0.at := t0.player];
    var b2 := b1[t1.at := t1.player];
    var b3 := b2[t2.at := t2.player];
    var b4 := b3[t3.at := t3.player];
    var b5 := b4[t4.at := t4.player];
    var b6 := b5[t5.at := t5.player];
    var b7 := b6[t6.at := t6.player];
    var b8 := b7[t7.at := t7.player];
    var b9 := b8[t8.at := t8.player];
    var b10 := b9[t9.at := t9.player];
    OpenStep(b9, 3, t9, []);
    OpenStep(b8, 3, t8, [t9]);
    OpenStep(b7, 3, t7, [t8, t9]);
    OpenStep(b6, 3, t6, [t7, t8, t9]);
    OpenStep(b5, 3, t5, [t6, t7, t8, t9]);
  }

  /** On the board every turn goes onto a free point and none before the last completes a line. */
  lemma CoDiagonalFarOutGameOpen()
    ensures OpenUntilLast(map[], 3, CoDiagonalFarOutGame)
  {
    RowsWithThreeGameTurn0();
    CoDiagonalFarOutGameTurn1();
    CoDiagonalFarOutGameTurn2();
    CoDiagonalFarOutGameTurn3();
    CoDiagonalFarOutGameTurn4();
    var t0 := Turn(Point(0, 0), First);
    var t1 := Turn(Point(5, 0), Second);
    var t2 := Turn(Point(1, 1), First);
    var t3 := Turn(Point(4, 1), Second);
    var t4 := Turn(Point(1, 0), First);
    var t5 := Turn(Point(0, 5), Second);
    var t6 := Turn(Point(3, 3), First);
    var t7 := Turn(Point(2, 3), Second);
    var t8 := Turn(Point(5, 5), First);
    var t9 := Turn(Point(1, 4), Second);
    var b0: Board := map[];
    var b1 := b0[t0.at := t0.player];
    var b2 := b1[t1.at := t1.player];
    var b3 := b2[t2.at := t2.player];
    var b4 := b3[t3.at := t3.player];
    var b5 := b4[t4.at := t4.player];
    var b6 := b5[t5.at := t5.player];
    var b7 := b6[t6.at := t6.player];
    var b8 := b7[t7.at := t7.player];
    var b9 := b8[t8.at := t8.player];
    var b10 := b9[t9.at := t9.player];
    CoDiagonalFarOutGameOpenFrom5();
    OpenStep(b4, 3, t4, []);
    OpenStep(b3, 3, t3, [t4]);
    OpenStep(b2, 3, t2, [t3, t4]);
    OpenStep(b1, 3, t1, [t2, t3, t4]);
    OpenStep(b0, 3, t0, [t1, t2, t3, t4]);
    assert CoDiagonalFarOutGame == [t0, t1, t2, t3, t4, t5, t6, t7, t8, t9];
  }

  /** On the board the last turn wins for Second. */
  lemma CoDiagonalFarOutGameOutcome()
    ensures Outcome(map[], NoWinner, 3, CoDiagonalFarOutGame) == Won(Second)
  {
    CoDiagonalFarOutGameLines();
    var t0 := Turn(Point(0, 0), First);
    var t1 := Turn(Point(5, 0), Second);
    var t2 := Turn(Point(1, 1), First);
    var t3 := Turn(Point(4, 1), Second);
    var t4 := Turn(Point(1, 0), First);
    var t5 := Turn(Point(0, 5), Second);
    var t6 := Turn(Point(3, 3), First);
    var t7 := Turn(Point(2, 3), Second);
    var t8 := Turn(Point(5, 5), First);
    var t9 := Turn(Point(1, 4), Second);
    var b0: Board := map[];
    var b1 := b0[t0.at := t0.player];
    var b2 := b1[t1.at := t1.player];
    var b3 := b2[t2.at := t2.player];
    var b4 := b3[t3.at := t3.player];
    var b5 := b4[t4.at := t4.player];
    var b6 := b5[t5.at := t5.player];
    var b7 := b6[t6.at := t6.player];
    var b8 := b7[t7.at := t7.player];
    var b9 := b8[t8.at := t8.player];
    var b10 := b9[t9.at := t9.player];
    OutcomeStep(b0, NoWinner, 3, t0, [t1, t2, t3, t4, t5, t6, t7, t8, t9]);
    OutcomeStep(b1, NoWinner, 3, t1, [t2, t3, t4, t5, t6, t7, t8, t9]);
    OutcomeStep(b2, NoWinner, 3, t2, [t3, t4, t5, t6, t7, t8, t9]);
    OutcomeStep(b3, NoWinner, 3, t3, [t4, t5, t6, t7, t8, t9]);
    OutcomeStep(b4, NoWinner, 3, t4, [t5, t6, t7, t8, t9]);
    OutcomeStep(b5, NoWinner, 3, t5, [t6, t7, t8, t9]);
    OutcomeStep(b6, NoWinner, 3, t6, [t7, t8, t9]);
    OutcomeStep(b7, NoWinner, 3, t7, [t8, t9]);
    OutcomeStep(b8, NoWinner, 3, t8, [t9]);
    OutcomeStep(b9, NoWinner, 3, t9, []);
    assert CoDiagonalFarOutGame == [t0, t1, t2, t3, t4, t5, t6, t7, t8, t9];
  }

  /** Lines 284-300: With n = 3, Second's last mark (1, 4) joins (0, 5) and (2, 3) into a block of three on the anti-diagonal x + y = 5, whose other marks (5, 0), (4, 1) are further along. No earlier turn decides the game. */
  lemma SecondWinsByCoDiagonalFarOut(s: State)
    requires Consistent(s) && BoardOf(s) == map[]
    requires s.winner == NoWinner && s.n == 3
    ensures Play(s, CoDiagonalFarOutGame[..9]).winner == NoWinner
    ensures Play(s, CoDiagonalFarOutGame).winner == Won(Second)
  {
    CoDiagonalFarOutGameOpen();
    CoDiagonalFarOutGameOutcome();
    PlayFollowsBoard(s, CoDiagonalFarOutGame);
    QuietBeforeLast(s, CoDiagonalFarOutGame);
  }
}
