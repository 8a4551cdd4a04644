/** A geometric reference for the engine: the placed marks as one board of
    points, and "n in a row" defined directly on it. The four line indexes
    of a state are views of this board, and `move` decides a win exactly
    when the board gets a block of exactly `n` marks through the new point. */
module BoardModel {
  import opened GameState
  import opened LineIds
  import opened RunCounter
  import opened Engine

  /** The marks on the board, one per occupied point. */
  type Board = map<Point, Player>

  /** The four directions a line can run in. */
  datatype Direction = Horizontal | Vertical | Diagonal | AntiDiagonal

  /** `pt` moved `k` steps in direction `d`. */
  function Step(d: Direction, pt: Point, k: int): Point {
    match d
    case Horizontal => Point(pt.x + k, pt.y)
    case Vertical => Point(pt.x, pt.y + k)
    case Diagonal => Point(pt.x + k, pt.y + k)
    case AntiDiagonal => Point(pt.x + k, pt.y - k)
  }

  /** The direction the lines of a family run in. */
  function DirectionOf(f: Family): Direction {
    match f
    case Rows => Horizontal
    case Cols => Vertical
    case Diagonals => Diagonal
    case CoDiagonals => AntiDiagonal
  }

  /** Point `q` holds a mark of `p`. */
  predicate Marked(b: Board, q: Point, p: Player) {
    q in b && b[q] == p
  }

  /** The steps `lo..hi` from `pt` in direction `d` form a maximal block of
      `p`'s marks through `pt`. */
  ghost predicate Block(b: Board, pt: Point, d: Direction, p: Player, lo: int, hi: int) {
    && lo <= 0 <= hi
    && (forall k :: lo <= k <= hi ==> Marked(b, Step(d, pt, k), p))
    && !Marked(b, Step(d, pt, lo - 1), p)
    && !Marked(b, Step(d, pt, hi + 1), p)
  }

  /** The maximal block of `p`'s marks through `pt` in direction `d` has exactly `n` marks. */
  ghost predicate LineOfExactly(b: Board, pt: Point, d: Direction, p: Player, n: int) {
    exists lo, hi :: Block(b, pt, d, p, lo, hi) && hi - lo + 1 == n
  }

  /** In some direction the block of `p`'s marks through `pt` is exactly `n` long. */
  ghost predicate CompletesLine(b: Board, pt: Point, p: Player, n: int) {
    || LineOfExactly(b, pt, Horizontal, p, n)
    || LineOfExactly(b, pt, Vertical, p, n)
    || LineOfExactly(b, pt, Diagonal, p, n)
    || LineOfExactly(b, pt, AntiDiagonal, p, n)
  }

  /** Two maximal blocks through the same point in the same direction coincide. */
  lemma BlockUnique(b: Board, pt: Point, d: Direction, p: Player, lo: int, hi: int, lo': int, hi': int)
    requires Block(b, pt, d, p, lo, hi) && Block(b, pt, d, p, lo', hi')
    ensures lo == lo' && hi == hi'
  {
  }

  /** Once the block through `pt` is known, its length is the only `n` it has exactly. */
  lemma SpanIs(b: Board, pt: Point, d: Direction, p: Player, lo: int, hi: int)
    requires Block(b, pt, d, p, lo, hi)
    ensures forall n :: LineOfExactly(b, pt, d, p, n) <==> n == hi - lo + 1
  {
    forall n | LineOfExactly(b, pt, d, p, n)
      ensures n == hi - lo + 1
    {
      var lo', hi' :| Block(b, pt, d, p, lo', hi') && hi' - lo' + 1 == n;
      BlockUnique(b, pt, d, p, lo, hi, lo', hi');
    }
  }

  /** A mark with no mark of the same player next to it in any direction is
      a line of one in every direction. */
  lemma Lonely(b: Board, pt: Point, p: Player)
    requires Marked(b, pt, p)
    requires forall d :: !Marked(b, Step(d, pt, -1), p) && !Marked(b, Step(d, pt, 1), p)
    ensures forall n :: CompletesLine(b, pt, p, n) <==> n == 1
  {
    assert Step(Horizontal, pt, 0) == pt && Step(Vertical, pt, 0) == pt;
    assert Step(Diagonal, pt, 0) == pt && Step(AntiDiagonal, pt, 0) == pt;
    SpanIs(b, pt, Horizontal, p, 0, 0);
    SpanIs(b, pt, Vertical, p, 0, 0);
    SpanIs(b, pt, Diagonal, p, 0, 0);
    SpanIs(b, pt, AntiDiagonal, p, 0, 0);
  }

  /** The eight points around `pt`. */
  function Around(pt: Point): seq<Point> {
    [Point(pt.x - 1, pt.y - 1), Point(pt.x, pt.y - 1), Point(pt.x + 1, pt.y - 1),
     Point(pt.x - 1, pt.y), Point(pt.x + 1, pt.y),
     Point(pt.x - 1, pt.y + 1), Point(pt.x, pt.y + 1), Point(pt.x + 1, pt.y + 1)]
  }

  /** A mark of `p` with no mark of `p` on the eight points around it
      completes no line of any length but one. */
  lemma Isolated(b: Board, pt: Point, p: Player, n: int)
    requires Marked(b, pt, p) && n != 1
    requires forall q | q in Around(pt) :: !Marked(b, q, p)
    ensures !CompletesLine(b, pt, p, n)
  {
    forall d ensures !Marked(b, Step(d, pt, -1), p) && !Marked(b, Step(d, pt, 1), p) {
      assert Step(d, pt, -1) in Around(pt) && Step(d, pt, 1) in Around(pt);
    }
    Lonely(b, pt, p);
  }

  /** A block of exactly `n` marks through `pt` completes a line. */
  lemma BlockCompletes(b: Board, pt: Point, d: Direction, p: Player, lo: int, hi: int)
    requires Block(b, pt, d, p, lo, hi)
    ensures CompletesLine(b, pt, p, hi - lo + 1)
  {
    assert LineOfExactly(b, pt, d, p, hi - lo + 1);
  }

  /** When the blocks through `pt` in all four directions are known and
      none of them is `n` long, `pt` completes no line of `n`. */
  lemma Spans(b: Board, pt: Point, p: Player, n: int,
              lh: int, hh: int, lv: int, hv: int, ld: int, hd: int, la: int, ha: int)
    requires Block(b, pt, Horizontal, p, lh, hh) && Block(b, pt, Vertical, p, lv, hv)
    requires Block(b, pt, Diagonal, p, ld, hd) && Block(b, pt, AntiDiagonal, p, la, ha)
    requires n != hh - lh + 1 && n != hv - lv + 1 && n != hd - ld + 1 && n != ha - la + 1
    ensures !CompletesLine(b, pt, p, n)
  {
    SpanIs(b, pt, Horizontal, p, lh, hh);
    SpanIs(b, pt, Vertical, p, lv, hv);
    SpanIs(b, pt, Diagonal, p, ld, hd);
    SpanIs(b, pt, AntiDiagonal, p, la, ha);
  }

  /** (dx, dy) is the unit step of one of the four directions: (1, 0),
      (0, 1), (1, 1) or (1, -1). */
  predicate Unit(dx: int, dy: int) {
    (dx == 1 && -1 <= dy <= 1) || (dx == 0 && dy == 1)
  }

  /** The direction whose unit step is (dx, dy). */
  function Towards(dx: int, dy: int): (d: Direction)
    requires Unit(dx, dy)
    ensures forall k :: Step(d, Point(0, 0), k) == Point(k * dx, k * dy)
  {
    if dx == 0 then Vertical
    else if dy == 0 then Horizontal
    else if dy == 1 then Diagonal
    else AntiDiagonal
  }

  /** The board facts of a concrete game, in coordinates: the points `run`
      are steps `lo`, `lo + 1`, ... of (dx, dy) from (x, y), they hold `p`'s
      marks, they include (x, y) itself, and the steps just before and after
      them do not hold a mark of `p`. */
  predicate Walled(b: Board, x: int, y: int, dx: int, dy: int, p: Player, lo: int, run: seq<Point>) {
    && lo <= 0 < lo + |run|
    && (forall i :: 0 <= i < |run| ==>
          run[i] == Point(x + (lo + i) * dx, y + (lo + i) * dy) && Marked(b, run[i], p))
    && !Marked(b, Point(x + (lo - 1) * dx, y + (lo - 1) * dy), p)
    && !Marked(b, Point(x + (lo + |run|) * dx, y + (lo + |run|) * dy), p)
  }

  /** `k` steps in direction `Towards(dx, dy)` move by k * (dx, dy). */
  lemma StepScaled(pt: Point, dx: int, dy: int, k: int)
    requires Unit(dx, dy)
    ensures Step(Towards(dx, dy), pt, k) == Point(pt.x + k * dx, pt.y + k * dy)
  {
    assert Step(Towards(dx, dy), Point(0, 0), k) == Point(k * dx, k * dy);
  }

  /** A walled run in coordinates is a maximal block. */
  lemma WalledBlock(b: Board, x: int, y: int, dx: int, dy: int, p: Player, lo: int, run: seq<Point>)
    requires Unit(dx, dy) && Walled(b, x, y, dx, dy, p, lo, run)
    ensures Block(b, Point(x, y), Towards(dx, dy), p, lo, lo + |run| - 1)
  {
    forall k | lo - 1 <= k <= lo + |run|
      ensures Step(Towards(dx, dy), Point(x, y), k) == Point(x + k * dx, y + k * dy)
    {
      StepScaled(Point(x, y), dx, dy, k);
    }
    forall k | lo <= k < lo + |run|
      ensures Marked(b, Step(Towards(dx, dy), Point(x, y), k), p)
    {
      assert run[k - lo] == Point(x + (lo + (k - lo)) * dx, y + (lo + (k - lo)) * dy);
    }
  }

  /** A walled run through (x, y) completes a line of its length. */
  lemma WalledCompletes(b: Board, x: int, y: int, dx: int, dy: int, p: Player, lo: int, run: seq<Point>)
    requires Unit(dx, dy) && Walled(b, x, y, dx, dy, p, lo, run)
    ensures CompletesLine(b, Point(x, y), p, |run|)
  {
    WalledBlock(b, x, y, dx, dy, p, lo, run);
    BlockCompletes(b, Point(x, y), Towards(dx, dy), p, lo, lo + |run| - 1);
  }

  /** When the walled runs through (x, y) in all four directions are known
      and none of them is `n` long, (x, y) completes no line of `n`. */
  lemma WalledSpans(b: Board, x: int, y: int, p: Player, n: int,
                    lh: int, rh: seq<Point>, lv: int, rv: seq<Point>,
                    ld: int, rd: seq<Point>, la: int, ra: seq<Point>)
    requires Walled(b, x, y, 1, 0, p, lh, rh) && Walled(b, x, y, 0, 1, p, lv, rv)
    requires Walled(b, x, y, 1, 1, p, ld, rd) && Walled(b, x, y, 1, -1, p, la, ra)
    requires n != |rh| && n != |rv| && n != |rd| && n != |ra|
    ensures !CompletesLine(b, Point(x, y), p, n)
  {
    WalledBlock(b, x, y, 1, 0, p, lh, rh);
    WalledBlock(b, x, y, 0, 1, p, lv, rv);
    WalledBlock(b, x, y, 1, 1, p, ld, rd);
    WalledBlock(b, x, y, 1, -1, p, la, ra);
    Spans(b, Point(x, y), p, n, lh, lh + |rh| - 1, lv, lv + |rv| - 1, ld, ld + |rd| - 1, la, la + |ra| - 1);
  }

  /** Position `c + k` of line `xs` holds `p` exactly when the point `k`
      steps from `pt` in direction `d` holds a mark of `p`. */
  ghost predicate ReadsAlong(xs: Line, c: int, b: Board, pt: Point, d: Direction, p: Player) {
    forall k :: Holds(xs, c + k, p) <==> Marked(b, Step(d, pt, k), p)
  }

  /** A line whose positions, read from `c`, hold `p` exactly where the board
      has `p`'s marks, read from `pt` in direction `d`, has a run of `n`
      through `c` exactly when the board has a block of `n` through `pt`. */
  lemma RunTransfer(xs: Line, c: int, b: Board, pt: Point, d: Direction, p: Player, n: int)
    requires ReadsAlong(xs, c, b, pt, d, p)
    requires Holds(xs, c, p)
    ensures Count(xs, c, p) == n <==> LineOfExactly(b, pt, d, p, n)
  {
    if Count(xs, c, p) == n {
      RunToBlock(xs, c, b, pt, d, p, n);
    }
    if LineOfExactly(b, pt, d, p, n) {
      BlockToRun(xs, c, b, pt, d, p, n);
    }
  }

  /** A run of `n` through `c` on the line is a block of `n` through `pt` on the board. */
  lemma RunToBlock(xs: Line, c: int, b: Board, pt: Point, d: Direction, p: Player, n: int)
    requires ReadsAlong(xs, c, b, pt, d, p)
    requires Holds(xs, c, p) && Count(xs, c, p) == n
    ensures LineOfExactly(b, pt, d, p, n)
  {
    CountReaches(xs, c, p, n);
    var lo, hi :| lo <= c <= hi && MaximalRun(xs, p, lo, hi) && hi - lo + 1 == n;
    forall k | lo - c <= k <= hi - c
      ensures Marked(b, Step(d, pt, k), p)
    {
      assert Holds(xs, c + k, p);
    }
    assert !Holds(xs, c + (lo - c - 1), p);
    assert !Holds(xs, c + (hi - c + 1), p);
    assert Block(b, pt, d, p, lo - c, hi - c);
  }

  /** A block of `n` through `pt` on the board is a run of `n` through `c` on the line. */
  lemma BlockToRun(xs: Line, c: int, b: Board, pt: Point, d: Direction, p: Player, n: int)
    requires ReadsAlong(xs, c, b, pt, d, p)
    requires Holds(xs, c, p) && LineOfExactly(b, pt, d, p, n)
    ensures Count(xs, c, p) == n
  {
    var lo, hi :| Block(b, pt, d, p, lo, hi) && hi - lo + 1 == n;
    forall i | c + lo <= i <= c + hi
      ensures Holds(xs, i, p)
    {
      assert Marked(b, Step(d, pt, i - c), p);
      assert c + (i - c) == i;
    }
    assert Marked(b, Step(d, pt, lo - 1), p) == Holds(xs, c + (lo - 1), p);
    assert Marked(b, Step(d, pt, hi + 1), p) == Holds(xs, c + (hi + 1), p);
    assert MaximalRun(xs, p, c + lo, c + hi);
    CountReaches(xs, c, p, n);
  }

  /** The occupied points of a row index. */
  function Placed(rows: Index): set<Point> {
    set y, x | y in rows && x in rows[y] :: Point(x, y)
  }

  /** The mark a row index holds at an occupied point. */
  function Entry(rows: Index, q: Point): Player
    requires q in Placed(rows)
  {
    rows[q.y][q.x]
  }

  /** The board a state's row index records. */
  function BoardOf(s: State): (b: Board)
    ensures forall q :: q in b <==> At(s, q) != None
    ensures forall q :: q in b ==> At(s, q) == Some(b[q])
  {
    map q | q in Placed(s.rows) :: Entry(s.rows, q)
  }

  /** The column and both diagonal indexes hold `p` at `q` exactly when the
      row index does. */
  predicate AgreesFor(s: State, q: Point, p: Player) {
    && (Cell(s.cols, q.x, q.y) == Some(p) <==> At(s, q) == Some(p))
    && (Cell(s.diagonals, DiagonalKey(q), q.x) == Some(p) <==> At(s, q) == Some(p))
    && (Cell(s.coDiagonals, CoDiagonalKey(q), q.x) == Some(p) <==> At(s, q) == Some(p))
  }

  /** Every index records the marks of `p` exactly where the row index does.
      This is all the win test for `p` depends on. */
  ghost predicate ConsistentFor(s: State, p: Player) {
    forall q :: AgreesFor(s, q, p)
  }

  /** The column and both diagonal indexes record exactly the marks of the row index. */
  ghost predicate Consistent(s: State) {
    ConsistentFor(s, First) && ConsistentFor(s, Second)
  }

  /** The column and both diagonal indexes record at `q` what the row index records. */
  predicate AgreesAt(s: State, q: Point) {
    && Cell(s.cols, q.x, q.y) == At(s, q)
    && Cell(s.diagonals, DiagonalKey(q), q.x) == At(s, q)
    && Cell(s.coDiagonals, CoDiagonalKey(q), q.x) == At(s, q)
  }

  /** Two cells that hold First together and Second together hold the same. */
  lemma SameOnBothPlayers(a: Option<Player>, b: Option<Player>)
    requires (a == Some(First) <==> b == Some(First)) && (a == Some(Second) <==> b == Some(Second))
    ensures a == b
  {
    if a != None {
      assert a.value == First || a.value == Second;
    }
    if b != None {
      assert b.value == First || b.value == Second;
    }
  }

  /** Consistency for both players is cell-for-cell agreement of the indexes. */
  lemma ConsistentIffAgree(s: State)
    ensures Consistent(s) <==> forall q :: AgreesAt(s, q)
  {
    if Consistent(s) {
      forall q
        ensures AgreesAt(s, q)
      {
        assert AgreesFor(s, q, First) && AgreesFor(s, q, Second);
        SameOnBothPlayers(Cell(s.cols, q.x, q.y), At(s, q));
        SameOnBothPlayers(Cell(s.diagonals, DiagonalKey(q), q.x), At(s, q));
        SameOnBothPlayers(Cell(s.coDiagonals, CoDiagonalKey(q), q.x), At(s, q));
      }
    }
    if forall q :: AgreesAt(s, q) {
      forall q
        ensures AgreesFor(s, q, First) && AgreesFor(s, q, Second)
      {
        assert AgreesAt(s, q);
      }
    }
  }

  /** The line family `f` checks once `p` is written at `pt`. */
  function LineAfter(s: State, f: Family, pt: Point, p: Player): Line {
    Written(IndexOf(s, f), LineId(f, pt), Position(f, pt), p)[LineId(f, pt)]
  }

  /** When the indexes agree on `p`, every family's index holds `p` at
      position `Position(f, pt) + k` of the line through `pt` exactly when
      the point `k` steps from `pt` in the family's direction holds `p`. */
  lemma CellReadsBoard(s: State, f: Family, pt: Point, k: int, p: Player)
    requires ConsistentFor(s, p)
    ensures Cell(IndexOf(s, f), LineId(f, pt), Position(f, pt) + k) == Some(p) <==>
      At(s, Step(DirectionOf(f), pt, k)) == Some(p)
  {
    var q := Step(DirectionOf(f), pt, k);
    match f
    case Rows =>
      assert q == Point(pt.x + k, pt.y);
    case Cols =>
      assert q == Point(pt.x, pt.y + k);
      assert AgreesFor(s, q, p);
    case Diagonals =>
      assert q == AlongDiagonal(pt, k);
      assert AgreesFor(s, q, p);
    case CoDiagonals =>
      assert q == AlongCoDiagonal(pt, k);
      assert AgreesFor(s, q, p);
  }

  /** Stepping zero times stays put; any other number of steps moves away. */
  lemma StepMoves(d: Direction, pt: Point, k: int)
    ensures Step(d, pt, k) == pt <==> k == 0
  {
    match d
    case Horizontal =>
    case Vertical =>
    case Diagonal =>
    case AntiDiagonal =>
  }

  /** After the write, position `Position(f, pt) + k` of the line holds `p`
      exactly when it is the written position or already held `p`. */
  lemma LineAfterCell(s: State, f: Family, pt: Point, p: Player, k: int)
    ensures Holds(LineAfter(s, f, pt, p), Position(f, pt) + k, p) <==>
      (k == 0 || Cell(IndexOf(s, f), LineId(f, pt), Position(f, pt) + k) == Some(p))
  {
  }

  /** The board with `p` placed at `pt` has `p` at `pt` and otherwise what the state has. */
  lemma MarkedAfter(s: State, q: Point, pt: Point, p: Player)
    ensures Marked(BoardOf(s)[pt := p], q, p) <==> (q == pt || At(s, q) == Some(p))
  {
  }

  /** One position of the line of family `f` through `pt`, once `p` is
      written there, holds `p` exactly when the matching board point does. */
  lemma PositionReadsBoard(s: State, f: Family, pt: Point, p: Player, k: int)
    requires ConsistentFor(s, p)
    ensures Holds(LineAfter(s, f, pt, p), Position(f, pt) + k, p) <==>
      Marked(BoardOf(s)[pt := p], Step(DirectionOf(f), pt, k), p)
  {
    StepMoves(DirectionOf(f), pt, k);
    LineAfterCell(s, f, pt, p, k);
    MarkedAfter(s, Step(DirectionOf(f), pt, k), pt, p);
    CellReadsBoard(s, f, pt, k, p);
  }

  /** The family's whole line through `pt` reads along the board. */
  lemma LineReadsBoard(s: State, f: Family, pt: Point, p: Player)
    requires ConsistentFor(s, p)
    ensures ReadsAlong(LineAfter(s, f, pt, p), Position(f, pt), BoardOf(s)[pt := p], pt, DirectionOf(f), p)
  {
    forall k
      ensures Holds(LineAfter(s, f, pt, p), Position(f, pt) + k, p) <==>
        Marked(BoardOf(s)[pt := p], Step(DirectionOf(f), pt, k), p)
    {
      PositionReadsBoard(s, f, pt, p, k);
    }
  }

  /** One family's win test against the board in the family's direction. */
  lemma FamilyWinsIff(s: State, f: Family, pt: Point, p: Player)
    requires ConsistentFor(s, p)
    ensures RunAfter(s, f, pt, p) == s.n <==> LineOfExactly(BoardOf(s)[pt := p], pt, DirectionOf(f), p, s.n)
  {
    LineReadsBoard(s, f, pt, p);
    LineAfterCell(s, f, pt, p, 0);
    RunTransfer(LineAfter(s, f, pt, p), Position(f, pt), BoardOf(s)[pt := p], pt, DirectionOf(f), p, s.n);
  }

  /** When the indexes agree on the mover's marks, the engine's win test and
      the board agree: some family's run is exactly `n` precisely when the
      board with the new mark has a block of exactly `n` through it. */
  lemma WinsIffCompletes(s: State, pt: Point, p: Player)
    requires ConsistentFor(s, p)
    ensures Wins(s, pt, p) <==> CompletesLine(BoardOf(s)[pt := p], pt, p, s.n)
  {
    var b := BoardOf(s)[pt := p];
    assert DirectionOf(Rows) == Horizontal && DirectionOf(Cols) == Vertical;
    assert DirectionOf(Diagonals) == Diagonal && DirectionOf(CoDiagonals) == AntiDiagonal;
    FamilyWinsIff(s, Rows, pt, p);
    FamilyWinsIff(s, Cols, pt, p);
    FamilyWinsIff(s, Diagonals, pt, p);
    FamilyWinsIff(s, CoDiagonals, pt, p);
    assert Wins(s, pt, p) == (
      || LineOfExactly(b, pt, DirectionOf(Rows), p, s.n)
      || LineOfExactly(b, pt, DirectionOf(Cols), p, s.n)
      || LineOfExactly(b, pt, DirectionOf(Diagonals), p, s.n)
      || LineOfExactly(b, pt, DirectionOf(CoDiagonals), p, s.n));
  }

  /** Two states whose row indexes differ only by `p` at `pt` have boards
      that differ only there. */
  lemma BoardUpdate(s: State, r: State, pt: Point, p: Player)
    requires forall y, x ::
               Cell(r.rows, y, x) == (if y == pt.y && x == pt.x then Some(p) else Cell(s.rows, y, x))
    ensures BoardOf(r) == BoardOf(s)[pt := p]
  {
    var b, b' := BoardOf(s)[pt := p], BoardOf(r);
    forall q: Point
      ensures (q in b <==> q in b') && (q in b ==> b[q] == b'[q])
    {
      assert At(r, q) == Cell(r.rows, q.y, q.x);
    }
  }

  /** `move` records the new mark on the board whatever else happens. */
  lemma MoveExtendsBoard(s: State, pt: Point, p: Player)
    ensures BoardOf(Move(s, pt, p)) == BoardOf(s)[pt := p]
  {
    MoveRecordsRow(s, pt, p);
    BoardUpdate(s, Move(s, pt, p), pt, p);
  }

  /** Family `f` of `r` differs from family `f` of `s` at most at the
      position of `pt`. */
  ghost predicate Frames(s: State, r: State, f: Family, pt: Point) {
    forall id, pos :: id != LineId(f, pt) || pos != Position(f, pt) ==>
      Cell(IndexOf(r, f), id, pos) == Cell(IndexOf(s, f), id, pos)
  }

  /** At `pt` itself, family `f` of `r` holds `q` exactly when the row index of `r` does. */
  predicate AgreesThere(r: State, f: Family, pt: Point, q: Player) {
    Cell(IndexOf(r, f), LineId(f, pt), Position(f, pt)) == Some(q) <==> At(r, pt) == Some(q)
  }

  /** Changing every family at most at the position of `pt`, in a way that
      agrees about `q` there, keeps the indexes consistent for `q`. */
  lemma FramedKeepsConsistent(s: State, r: State, pt: Point, q: Player)
    requires ConsistentFor(s, q)
    requires Frames(s, r, Rows, pt) && Frames(s, r, Cols, pt)
    requires Frames(s, r, Diagonals, pt) && Frames(s, r, CoDiagonals, pt)
    requires AgreesThere(r, Cols, pt, q) && AgreesThere(r, Diagonals, pt, q) && AgreesThere(r, CoDiagonals, pt, q)
    ensures ConsistentFor(r, q)
  {
    forall v
      ensures AgreesFor(r, v, q)
    {
      FramedAgrees(s, r, pt, q, v);
    }
  }

  /** The point-wise step of `FramedKeepsConsistent`. */
  lemma FramedAgrees(s: State, r: State, pt: Point, q: Player, v: Point)
    requires AgreesFor(s, v, q)
    requires Frames(s, r, Rows, pt) && Frames(s, r, Cols, pt)
    requires Frames(s, r, Diagonals, pt) && Frames(s, r, CoDiagonals, pt)
    requires AgreesThere(r, Cols, pt, q) && AgreesThere(r, Diagonals, pt, q) && AgreesThere(r, CoDiagonals, pt, q)
    ensures AgreesFor(r, v, q)
  {
    if v != pt {
      assert v.x != pt.x || v.y != pt.y;
      assert DiagonalKey(v) != DiagonalKey(pt) || v.x != pt.x;
      assert CoDiagonalKey(v) != CoDiagonalKey(pt) || v.x != pt.x;
      assert Cell(IndexOf(r, Rows), v.y, v.x) == Cell(IndexOf(s, Rows), v.y, v.x);
      assert Cell(IndexOf(r, Cols), v.x, v.y) == Cell(IndexOf(s, Cols), v.x, v.y);
      assert Cell(IndexOf(r, Diagonals), DiagonalKey(v), v.x) == Cell(IndexOf(s, Diagonals), DiagonalKey(v), v.x);
      assert Cell(IndexOf(r, CoDiagonals), CoDiagonalKey(v), v.x) == Cell(IndexOf(s, CoDiagonals), CoDiagonalKey(v), v.x);
    }
  }

  /** `move` keeps the indexes consistent for the mover when every family
      after the rows either is reached or has to create the line through `pt`. */
  lemma MoveKeepsConsistent(s: State, pt: Point, p: Player)
    requires ConsistentFor(s, p)
    requires forall f :: Reached(s, pt, p, f) || LineId(f, pt) !in IndexOf(s, f)
    ensures ConsistentFor(Move(s, pt, p), p)
  {
    var r := Move(s, pt, p);
    MoveFamily(s, pt, p, Rows);
    MoveFamily(s, pt, p, Cols);
    MoveFamily(s, pt, p, Diagonals);
    MoveFamily(s, pt, p, CoDiagonals);
    assert Reached(s, pt, p, Cols) || LineId(Cols, pt) !in IndexOf(s, Cols);
    assert Reached(s, pt, p, Diagonals) || LineId(Diagonals, pt) !in IndexOf(s, Diagonals);
    assert Reached(s, pt, p, CoDiagonals) || LineId(CoDiagonals, pt) !in IndexOf(s, CoDiagonals);
    assert At(r, pt) == Some(p);
    FramedKeepsConsistent(s, r, pt, p);
  }

  /** `move` onto a point the other player does not hold keeps the indexes
      consistent for the other player, even when the move wins and leaves
      some families unwritten. */
  lemma MoveKeepsOther(s: State, pt: Point, p: Player, q: Player)
    requires ConsistentFor(s, q) && q != p
    requires At(s, pt) != Some(q)
    ensures ConsistentFor(Move(s, pt, p), q)
  {
    var r := Move(s, pt, p);
    MoveFamily(s, pt, p, Rows);
    MoveFamily(s, pt, p, Cols);
    MoveFamily(s, pt, p, Diagonals);
    MoveFamily(s, pt, p, CoDiagonals);
    assert AgreesFor(s, pt, q);
    assert At(r, pt) == Some(p);
    FramedKeepsConsistent(s, r, pt, q);
  }

  /** The engine against the board: when the indexes agree on the mover's
      marks, `move` sets the winner exactly when the new mark completes a
      block of exactly `n`, and a move that completes nothing keeps them
      agreeing on the mover's marks. */
  lemma MoveMatchesBoard(s: State, pt: Point, p: Player)
    requires ConsistentFor(s, p)
    ensures Move(s, pt, p).winner ==
      if CompletesLine(BoardOf(s)[pt := p], pt, p, s.n) then Won(p) else s.winner
    ensures !CompletesLine(BoardOf(s)[pt := p], pt, p, s.n) ==> ConsistentFor(Move(s, pt, p), p)
  {
    WinsIffCompletes(s, pt, p);
    MoveWinner(s, pt, p);
    if !Wins(s, pt, p) {
      MoveKeepsConsistent(s, pt, p);
    }
  }

  /** A state with all four indexes empty. */
  predicate Blank(s: State) {
    s.rows == map[] && s.cols == map[] && s.diagonals == map[] && s.coDiagonals == map[]
  }

  /** A state with no marks is consistent and its board is empty. */
  lemma BlankIsConsistent(s: State)
    requires Blank(s)
    ensures Consistent(s) && BoardOf(s) == map[]
  {
  }
}
