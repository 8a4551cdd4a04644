/** The move applicator `move` (src/index.ts, lines 77-148): it writes a mark
    into the four line indexes and checks, family by family, whether the run
    through the new mark is exactly `n` long. */
module Engine {
  import opened GameState
  import opened LineIds
  import opened RunCounter

  /** The four line families, in the order `move` visits them. */
  datatype Family = Rows | Cols | Diagonals | CoDiagonals

  /** Position of a family in the visiting order. */
  function Rank(f: Family): nat {
    match f
    case Rows => 0
    case Cols => 1
    case Diagonals => 2
    case CoDiagonals => 3
  }

  /** The index a family is kept in. */
  function IndexOf(s: State, f: Family): Index {
    match f
    case Rows => s.rows
    case Cols => s.cols
    case Diagonals => s.diagonals
    case CoDiagonals => s.coDiagonals
  }

  /** The identifier of the line of family `f` through `pt`. */
  function LineId(f: Family, pt: Point): int {
    match f
    case Rows => pt.y
    case Cols => pt.x
    case Diagonals => DiagonalKey(pt)
    case CoDiagonals => CoDiagonalKey(pt)
  }

  /** The position of `pt` along its line of family `f`. */
  function Position(f: Family, pt: Point): int {
    match f
    case Cols => pt.y
    case _ => pt.x
  }

  /** Lines 87-101: a missing line is created already holding the new mark. */
  function Ensure(idx: Index, id: int, pos: int, p: Player): (r: Index)
    ensures r.Keys == idx.Keys + {id}
    ensures forall i | i in idx :: r[i] == idx[i]
    ensures id !in idx ==> r[id] == map[pos := p]
  {
    if id !in idx then idx[id := map[pos := p]] else idx
  }

  /** Lines 104, 115, 126, 137: `p` written at position `pos` of line `id`
      (the line being taken as empty when it is missing). */
  function Written(idx: Index, id: int, pos: int, p: Player): (r: Index)
    ensures id in r
  {
    idx[id := LineAt(idx, id)[pos := p]]
  }

  /** The run `count` reports at `pos` once `p` is written there. */
  function RunIn(idx: Index, id: int, pos: int, p: Player): int {
    Count(Written(idx, id, pos, p)[id], pos, p)
  }

  /** Lines 78-101: the outer maps are copied and every missing line is
      created already holding the new mark. */
  function CreateLines(s: State, pt: Point, p: Player): (r: State)
    ensures r.n == s.n && r.currentPlayer == s.currentPlayer && r.winner == s.winner
    ensures forall f :: IndexOf(r, f).Keys == IndexOf(s, f).Keys + {LineId(f, pt)}
    ensures forall f, id | id in IndexOf(s, f) :: IndexOf(r, f)[id] == IndexOf(s, f)[id]
    ensures forall f | LineId(f, pt) !in IndexOf(s, f) :: IndexOf(r, f)[LineId(f, pt)] == map[Position(f, pt) := p]
  {
    var r := s.(rows := Ensure(s.rows, pt.y, pt.x, p),
                cols := Ensure(s.cols, pt.x, pt.y, p),
                diagonals := Ensure(s.diagonals, DiagonalKey(pt), pt.x, p),
                coDiagonals := Ensure(s.coDiagonals, CoDiagonalKey(pt), pt.x, p));
    EnsuredFamilies(s, r, pt, p);
    r
  }

  /** The state line creation builds holds, in each family, the index
      `Ensure` gives that family. */
  lemma EnsuredFamilies(s: State, r: State, pt: Point, p: Player)
    requires r == s.(rows := Ensure(s.rows, pt.y, pt.x, p),
                     cols := Ensure(s.cols, pt.x, pt.y, p),
                     diagonals := Ensure(s.diagonals, DiagonalKey(pt), pt.x, p),
                     coDiagonals := Ensure(s.coDiagonals, CoDiagonalKey(pt), pt.x, p))
    ensures forall f :: IndexOf(r, f) == Ensure(IndexOf(s, f), LineId(f, pt), Position(f, pt), p)
  {
    forall f ensures IndexOf(r, f) == Ensure(IndexOf(s, f), LineId(f, pt), Position(f, pt), p) {
      match f
      case Rows =>
      case Cols =>
      case Diagonals =>
      case CoDiagonals =>
    }
  }

  /** The family `move` looks at after `f`. */
  function Next(f: Family): (g: Family)
    requires f != CoDiagonals
    ensures Rank(g) == Rank(f) + 1
  {
    match f
    case Rows => Cols
    case Cols => Diagonals
    case Diagonals => CoDiagonals
  }

  /** `s` with the index of family `f` replaced by `idx`. */
  function WithIndex(s: State, f: Family, idx: Index): (r: State)
    ensures IndexOf(r, f) == idx
    ensures forall g :: g != f ==> IndexOf(r, g) == IndexOf(s, g)
    ensures r.n == s.n && r.currentPlayer == s.currentPlayer && r.winner == s.winner
  {
    match f
    case Rows => s.(rows := idx)
    case Cols => s.(cols := idx)
    case Diagonals => s.(diagonals := idx)
    case CoDiagonals => s.(coDiagonals := idx)
  }

  /** Lines 103-147, the block `move` repeats for rows, cols, diagonals and
      coDiagonals in that order: write the mark into the family's line, return
      at once with `p` as winner when the run through it is exactly `n`, and
      otherwise go on to the next family; after the last one the state is
      returned as it stands. */
  function Check(t: State, pt: Point, p: Player, f: Family): (r: State)
    ensures r.n == t.n && r.currentPlayer == t.currentPlayer
    ensures r.winner == t.winner || r.winner == Won(p)
    ensures forall g :: Rank(g) < Rank(f) ==> IndexOf(r, g) == IndexOf(t, g)
    decreases 3 - Rank(f)
  {
    var t' := WithIndex(t, f, Written(IndexOf(t, f), LineId(f, pt), Position(f, pt), p));
    if RunAfter(t, f, pt, p) == t.n then t'.(winner := Won(p))
    else if f == CoDiagonals then t'
    else Check(t', pt, p, Next(f))
  }

  /** `move(point, player)(s)`. Every family's line is created first; the
      mark is then written into rows, cols, diagonals and coDiagonals in
      turn, and the first family whose run is exactly `n` returns at once
      with `winner` set, so the later families keep only what line creation
      gave them. */
  function Move(s: State, pt: Point, p: Player): (r: State)
    ensures r.n == s.n && r.currentPlayer == s.currentPlayer
    ensures r.winner == s.winner || r.winner == Won(p)
    ensures At(r, pt) == Some(p)
  {
    var t := CreateLines(s, pt, p);
    CheckWinner(t, pt, p, Rows);
    CheckIndex(t, pt, p, Rows, Rows);
    Check(t, pt, p, Rows)
  }

  /** The run `count` measures for family `f` once `p` is written at `pt`. */
  function RunAfter(s: State, f: Family, pt: Point, p: Player): int {
    RunIn(IndexOf(s, f), LineId(f, pt), Position(f, pt), p)
  }

  /** Starting the checks at family `f`, some family from `f` on has a run
      through `pt` exactly `n` long. */
  predicate WinsFrom(s: State, pt: Point, p: Player, f: Family) {
    || (Rank(f) <= 0 && RunAfter(s, Rows, pt, p) == s.n)
    || (Rank(f) <= 1 && RunAfter(s, Cols, pt, p) == s.n)
    || (Rank(f) <= 2 && RunAfter(s, Diagonals, pt, p) == s.n)
    || RunAfter(s, CoDiagonals, pt, p) == s.n
  }

  /** Starting the checks at family `f`, they get as far as family `g`:
      `g` is not before `f` and no family from `f` up to `g` won. */
  predicate ReachedFrom(s: State, pt: Point, p: Player, f: Family, g: Family) {
    && Rank(f) <= Rank(g)
    && (Rank(f) <= 0 < Rank(g) ==> RunAfter(s, Rows, pt, p) != s.n)
    && (Rank(f) <= 1 < Rank(g) ==> RunAfter(s, Cols, pt, p) != s.n)
    && (Rank(f) <= 2 < Rank(g) ==> RunAfter(s, Diagonals, pt, p) != s.n)
  }

  /** Some family's run through `pt` is exactly `n` long; the order the
      families are looked at makes no difference to this. */
  predicate Wins(s: State, pt: Point, p: Player) {
    WinsFrom(s, pt, p, Rows)
  }

  /** `move` gets as far as family `f`: no family before it won. */
  predicate Reached(s: State, pt: Point, p: Player, f: Family) {
    ReachedFrom(s, pt, p, Rows, f)
  }

  /** The index family `f` is left with: written when `move` reaches it,
      otherwise only given its line. */
  function After(s: State, pt: Point, p: Player, f: Family): Index {
    var idx := IndexOf(s, f);
    if Reached(s, pt, p, f) then Written(idx, LineId(f, pt), Position(f, pt), p)
    else Ensure(idx, LineId(f, pt), Position(f, pt), p)
  }

  /** Creating a missing line first makes no difference to writing into it. */
  lemma EnsureThenWrite(idx: Index, id: int, pos: int, p: Player)
    ensures Written(Ensure(idx, id, pos, p), id, pos, p) == Written(idx, id, pos, p)
    ensures RunIn(Ensure(idx, id, pos, p), id, pos, p) == RunIn(idx, id, pos, p)
  {
    if id !in idx {
      assert LineAt(Ensure(idx, id, pos, p), id)[pos := p] == LineAt(idx, id)[pos := p];
    }
  }

  /** Replacing one family's index changes no other family's run. */
  lemma OtherRuns(t: State, f: Family, idx: Index, pt: Point, p: Player)
    ensures forall g :: g != f ==> RunAfter(WithIndex(t, f, idx), g, pt, p) == RunAfter(t, g, pt, p)
  {
  }

  /** Moving the checks past a family without a win: what is won or reached
      from the next family on, over the updated state, is what is won or
      reached from this one. */
  lemma PastFamily(t: State, t': State, pt: Point, p: Player, f: Family, g: Family)
    requires f != CoDiagonals && RunAfter(t, f, pt, p) != t.n && t'.n == t.n
    requires forall h :: h != f ==> RunAfter(t', h, pt, p) == RunAfter(t, h, pt, p)
    ensures WinsFrom(t', pt, p, Next(f)) == WinsFrom(t, pt, p, f)
    ensures g != f ==> ReachedFrom(t', pt, p, Next(f), g) == ReachedFrom(t, pt, p, f, g)
    ensures !ReachedFrom(t', pt, p, Next(f), f)
  {
  }

  /** The checks from family `f` on leave `n` and `currentPlayer` alone and
      make `p` the winner exactly when one of the families from `f` on has a
      run of exactly `n`. */
  lemma {:induction false} CheckWinner(t: State, pt: Point, p: Player, f: Family)
    ensures var r := Check(t, pt, p, f);
      && r.n == t.n && r.currentPlayer == t.currentPlayer
      && r.winner == (if WinsFrom(t, pt, p, f) then Won(p) else t.winner)
    decreases 3 - Rank(f)
  {
    var idx := Written(IndexOf(t, f), LineId(f, pt), Position(f, pt), p);
    if RunAfter(t, f, pt, p) != t.n && f != CoDiagonals {
      var t' := WithIndex(t, f, idx);
      CheckWinner(t', pt, p, Next(f));
      OtherRuns(t, f, idx, pt, p);
      PastFamily(t, t', pt, p, f, f);
    }
  }

  /** The checks from family `f` on write the mark into every family `g`
      they reach and leave the others alone. */
  lemma {:induction false} CheckIndex(t: State, pt: Point, p: Player, f: Family, g: Family)
    ensures IndexOf(Check(t, pt, p, f), g) ==
      if ReachedFrom(t, pt, p, f, g) then Written(IndexOf(t, g), LineId(g, pt), Position(g, pt), p)
      else IndexOf(t, g)
    decreases 3 - Rank(f)
  {
    var idx := Written(IndexOf(t, f), LineId(f, pt), Position(f, pt), p);
    if RunAfter(t, f, pt, p) != t.n && f != CoDiagonals {
      var t' := WithIndex(t, f, idx);
      CheckIndex(t', pt, p, Next(f), g);
      OtherRuns(t, f, idx, pt, p);
      PastFamily(t, t', pt, p, f, g);
    }
  }

  /** Line creation gives each family the line through `pt` and leaves the
      run the checks will measure unchanged. */
  lemma CreatedLines(s: State, pt: Point, p: Player)
    ensures forall g :: IndexOf(CreateLines(s, pt, p), g) == Ensure(IndexOf(s, g), LineId(g, pt), Position(g, pt), p)
    ensures forall g :: RunAfter(CreateLines(s, pt, p), g, pt, p) == RunAfter(s, g, pt, p)
  {
    forall g {
      EnsureThenWrite(IndexOf(s, g), LineId(g, pt), Position(g, pt), p);
    }
  }

  /** `move` in closed form: each family as `After` describes it. */
  lemma MoveShape(s: State, pt: Point, p: Player, f: Family)
    ensures IndexOf(Move(s, pt, p), f) == After(s, pt, p, f)
  {
    CheckIndex(CreateLines(s, pt, p), pt, p, Rows, f);
    CreatedLines(s, pt, p);
    EnsureThenWrite(IndexOf(s, f), LineId(f, pt), Position(f, pt), p);
  }

  /** Writing a mark adds its line and changes exactly one position. */
  lemma WrittenCells(idx: Index, id: int, pos: int, p: Player)
    ensures Written(idx, id, pos, p).Keys == idx.Keys + {id}
    ensures forall i, q :: i != id || q != pos ==> Cell(Written(idx, id, pos, p), i, q) == Cell(idx, i, q)
    ensures Cell(Written(idx, id, pos, p), id, pos) == Some(p)
  {
  }

  /** Creating a line changes nothing already there and holds only the new mark. */
  lemma EnsureCells(idx: Index, id: int, pos: int, p: Player)
    ensures Ensure(idx, id, pos, p).Keys == idx.Keys + {id}
    ensures forall i, q :: i != id || q != pos ==> Cell(Ensure(idx, id, pos, p), i, q) == Cell(idx, i, q)
    ensures Cell(Ensure(idx, id, pos, p), id, pos) == if id in idx then Cell(idx, id, pos) else Some(p)
  {
  }

  /** The winner after `move` is `p` exactly when some family's run is
      exactly `n`; otherwise it is carried over, never reset. */
  lemma MoveWinner(s: State, pt: Point, p: Player)
    ensures Move(s, pt, p).winner == if Wins(s, pt, p) then Won(p) else s.winner
  {
    CheckWinner(CreateLines(s, pt, p), pt, p, Rows);
    CreatedLines(s, pt, p);
  }

  /** What `move` does to one family's index: the line through `pt` is
      there afterwards, no other line and no other position changes, and
      `pt` holds `p` when `move` got as far as the family or had to create
      the line; otherwise the old content stays. */
  lemma MoveFamily(s: State, pt: Point, p: Player, f: Family)
    ensures IndexOf(Move(s, pt, p), f).Keys == IndexOf(s, f).Keys + {LineId(f, pt)}
    ensures forall id, pos :: id != LineId(f, pt) || pos != Position(f, pt) ==>
      Cell(IndexOf(Move(s, pt, p), f), id, pos) == Cell(IndexOf(s, f), id, pos)
    ensures Cell(IndexOf(Move(s, pt, p), f), LineId(f, pt), Position(f, pt)) ==
      if Reached(s, pt, p, f) || LineId(f, pt) !in IndexOf(s, f) then Some(p)
      else Cell(IndexOf(s, f), LineId(f, pt), Position(f, pt))
  {
    MoveShape(s, pt, p, f);
    WrittenCells(IndexOf(s, f), LineId(f, pt), Position(f, pt), p);
    EnsureCells(IndexOf(s, f), LineId(f, pt), Position(f, pt), p);
  }

  /** The row index records every placed point, even on a winning move, and
      nothing else in it changes. */
  lemma MoveRecordsRow(s: State, pt: Point, p: Player)
    ensures Move(s, pt, p).rows.Keys == s.rows.Keys + {pt.y}
    ensures forall y, x ::
              Cell(Move(s, pt, p).rows, y, x) == (if y == pt.y && x == pt.x then Some(p) else Cell(s.rows, y, x))
  {
    MoveFamily(s, pt, p, Rows);
  }

  /** A move that does not win leaves its mark in all four indexes. */
  lemma MoveWritesAll(s: State, pt: Point, p: Player)
    requires !Wins(s, pt, p)
    ensures Cell(Move(s, pt, p).rows, pt.y, pt.x) == Some(p)
    ensures Cell(Move(s, pt, p).cols, pt.x, pt.y) == Some(p)
    ensures Cell(Move(s, pt, p).diagonals, DiagonalKey(pt), pt.x) == Some(p)
    ensures Cell(Move(s, pt, p).coDiagonals, CoDiagonalKey(pt), pt.x) == Some(p)
  {
    MoveFamily(s, pt, p, Cols);
    MoveFamily(s, pt, p, Diagonals);
    MoveFamily(s, pt, p, CoDiagonals);
  }

  /** One placement of a test scenario. */
  datatype Turn = Turn(at: Point, player: Player)

  /** `compose(move(t0), move(t1), ...)(s)`: the turns applied left to right. */
  function Play(s: State, turns: seq<Turn>): (r: State)
    ensures r.n == s.n && r.currentPlayer == s.currentPlayer
    decreases |turns|
  {
    if |turns| == 0 then s else Play(Move(s, turns[0].at, turns[0].player), turns[1..])
  }

  /** Over any sequence of moves the winner is either the one at the start
      or one of the players who moved; `n` and `currentPlayer` never change. */
  lemma {:induction false} PlayWinner(s: State, turns: seq<Turn>)
    ensures Play(s, turns).n == s.n && Play(s, turns).currentPlayer == s.currentPlayer
    ensures Play(s, turns).winner == s.winner ||
      exists i :: 0 <= i < |turns| && Play(s, turns).winner == Won(turns[i].player)
    decreases |turns|
  {
    if |turns| > 0 {
      var s' := Move(s, turns[0].at, turns[0].player);
      PlayWinner(s', turns[1..]);
      WinnerStep(s.winner, s'.winner, Play(s', turns[1..]).winner, turns);
    }
  }

  /** The inductive step of `PlayWinner`: a winner that is the first mover's
      or one of the later movers' is one of the movers'. */
  lemma WinnerStep(w: Winner, w': Winner, r: Winner, turns: seq<Turn>)
    requires |turns| > 0
    requires w' == w || w' == Won(turns[0].player)
    requires r == w' || exists i :: 0 <= i < |turns[1..]| && r == Won(turns[1..][i].player)
    ensures r == w || exists i :: 0 <= i < |turns| && r == Won(turns[i].player)
  {
    if r != w' {
      var i :| 0 <= i < |turns[1..]| && r == Won(turns[1..][i].player);
      assert turns[1..][i] == turns[i + 1];
    } else if w' != w {
      assert r == Won(turns[0].player);
    }
  }

  /** Once somebody has won, later moves never clear the winner. */
  lemma WinPersists(s: State, turns: seq<Turn>)
    requires s.winner != NoWinner
    ensures Play(s, turns).winner != NoWinner
  {
    PlayWinner(s, turns);
  }
}
