/** Players, points, sparse line indexes and the game state of the
    infinite tic-tac-toe engine (src/index.ts, lines 1-35). */
module GameState {

  datatype Option<+T> = None | Some(value: T)

  /** The two players; the source encodes them as the numbers 1 and -1. */
  datatype Player = First | Second {
    function Value(): int {
      if First? then 1 else -1
    }
  }

  /** The winner field: 0 while nobody has won, otherwise the winning player. */
  datatype Winner = NoWinner | Won(player: Player) {
    function Value(): int {
      if NoWinner? then 0 else player.Value()
    }
  }

  /** The player who moves after `p`, as the reducer computes it. */
  function Opposite(p: Player): (q: Player)
    ensures q != p
    ensures q.Value() == -p.Value()
  {
    if p == First then Second else First
  }

  /** A board point; every integer coordinate is valid. */
  datatype Point = Point(x: int, y: int)

  /** One line: position along the line to the player occupying it. Only
      occupied positions are present. */
  type Line = map<int, Player>

  /** One line family: line identifier to that line's occupancy. */
  type Index = map<int, Line>

  /** The four views of the placed marks plus the game status.
      rows: y -> x, cols: x -> y, diagonals: y - x -> x, coDiagonals: x + y -> x. */
  datatype State = State(
    rows: Index,
    cols: Index,
    diagonals: Index,
    coDiagonals: Index,
    winner: Winner,
    currentPlayer: Player,
    n: int)

  /** The initial state: no marks, no winner, First to hold the turn, five in a row. */
  function DefaultState(): (s: State)
    ensures forall pt :: At(s, pt) == None
    ensures s.winner.Value() == 0 && s.currentPlayer.Value() == 1 && s.n == 5
  {
    State(map[], map[], map[], map[], NoWinner, First, 5)
  }

  /** The state a test starts from: the default state with another win length. */
  function WithN(n: int): State {
    DefaultState().(n := n)
  }

  /** The line of `idx` named `id`, or the empty line when there is none. */
  function LineAt(idx: Index, id: int): Line {
    if id in idx then idx[id] else map[]
  }

  /** What `idx` records at position `pos` of line `id`. */
  function Cell(idx: Index, id: int, pos: int): Option<Player> {
    if id in idx && pos in idx[id] then Some(idx[id][pos]) else None
  }

  /** The mark at `pt` as the row index records it. */
  function At(s: State, pt: Point): Option<Player> {
    Cell(s.rows, pt.y, pt.x)
  }
}
