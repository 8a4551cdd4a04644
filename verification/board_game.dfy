/** A sequence of moves played on the board reference. As long as no move
    before the last completes a line, `compose` of `move`s ends with the
    winner the board game names; after a win, the winner stands while the
    opponent completes nothing. */
module BoardGame {
  import opened GameState
  import opened Engine
  import opened BoardModel

  /** The board after the turns are placed one by one. */
  function Fill(b: Board, turns: seq<Turn>): (r: Board)
    ensures forall t :: t in turns ==> t.at in r
    ensures forall q :: q in b ==> q in r
    decreases |turns|
  {
    if |turns| == 0 then b
    else
      var r := Fill(b[turns[0].at := turns[0].player], turns[1..]);
      assert forall t :: t in turns ==> t == turns[0] || t in turns[1..];
      r
  }

  /** The winner on the board: each turn that completes a block of exactly
      `n` through its mark names its player, and the last such turn counts. */
  ghost function Outcome(b: Board, w: Winner, n: int, turns: seq<Turn>): Winner
    decreases |turns|
  {
    if |turns| == 0 then w
    else
      var t := turns[0];
      var b' := b[t.at := t.player];
      Outcome(b', if CompletesLine(b', t.at, t.player, n) then Won(t.player) else w, n, turns[1..])
  }

  /** Every turn goes onto a free point and none before the last completes a line. */
  ghost predicate OpenUntilLast(b: Board, n: int, turns: seq<Turn>)
    decreases |turns|
  {
    |turns| == 0 ||
    var t := turns[0];
    var b' := b[t.at := t.player];
    && t.at !in b
    && (|turns| == 1 || !CompletesLine(b', t.at, t.player, n))
    && OpenUntilLast(b', n, turns[1..])
  }

  /** Every turn goes onto a free point and no turn of `q`'s opponent completes a line. */
  ghost predicate OpponentShut(b: Board, q: Player, n: int, turns: seq<Turn>)
    decreases |turns|
  {
    |turns| == 0 ||
    var t := turns[0];
    var b' := b[t.at := t.player];
    && t.at !in b
    && (t.player == q || !CompletesLine(b', t.at, t.player, n))
    && OpponentShut(b', q, n, turns[1..])
  }

  /** The last turn of a non-empty sequence. */
  function Last(turns: seq<Turn>): Turn
    requires |turns| > 0
  {
    turns[|turns| - 1]
  }

  /** The two players are each other's opposites, so agreement on both is agreement on each. */
  lemma BothPlayers(s: State, p: Player)
    requires ConsistentFor(s, p) && ConsistentFor(s, Opposite(p))
    ensures Consistent(s)
  {
    match p
    case First =>
    case Second =>
  }

  /** Agreement on both players is agreement on each of them. */
  lemma EachPlayer(s: State, p: Player)
    requires Consistent(s)
    ensures ConsistentFor(s, p) && ConsistentFor(s, Opposite(p))
  {
    match p
    case First =>
    case Second =>
  }

  /** `compose` of `move`s refines the board game: from a consistent state,
      while no turn before the last completes a line, the marks end up on
      the filled board, the winner is the one the board game names, and the
      indexes still agree on the marks of the player who did not move last. */
  lemma {:induction false} PlayFollowsBoard(s: State, turns: seq<Turn>)
    requires Consistent(s)
    requires OpenUntilLast(BoardOf(s), s.n, turns)
    ensures BoardOf(Play(s, turns)) == Fill(BoardOf(s), turns)
    ensures Play(s, turns).winner == Outcome(BoardOf(s), s.winner, s.n, turns)
    ensures |turns| > 0 ==> ConsistentFor(Play(s, turns), Opposite(Last(turns).player))
    decreases |turns|
  {
    if |turns| == 1 {
      LastMove(s, turns[0]);
    } else if |turns| > 1 {
      var s' := Move(s, turns[0].at, turns[0].player);
      OpenMove(s, turns);
      PlayFollowsBoard(s', turns[1..]);
      FirstMove(s, turns);
    }
  }

  /** What holds of the rest of an open sequence after its first move holds
      of the whole sequence. */
  lemma FirstMove(s: State, turns: seq<Turn>)
    requires Consistent(s)
    requires OpenUntilLast(BoardOf(s), s.n, turns)
    requires |turns| > 1
    requires var s' := Move(s, turns[0].at, turns[0].player);
      && BoardOf(Play(s', turns[1..])) == Fill(BoardOf(s'), turns[1..])
      && Play(s', turns[1..]).winner == Outcome(BoardOf(s'), s'.winner, s'.n, turns[1..])
      && ConsistentFor(Play(s', turns[1..]), Opposite(Last(turns[1..]).player))
    ensures BoardOf(Play(s, turns)) == Fill(BoardOf(s), turns)
    ensures Play(s, turns).winner == Outcome(BoardOf(s), s.winner, s.n, turns)
    ensures ConsistentFor(Play(s, turns), Opposite(Last(turns).player))
  {
    var t := turns[0];
    OpenMove(s, turns);
    MoveExtendsBoard(s, t.at, t.player);
    assert Last(turns[1..]) == Last(turns);
  }

  /** The last turn of an open sequence, onto a free point: the board gains
      its mark, the winner is the one the board game names for it, and the
      indexes still agree on the opponent's marks. */
  lemma LastMove(s: State, t: Turn)
    requires Consistent(s)
    requires OpenUntilLast(BoardOf(s), s.n, [t])
    ensures BoardOf(Play(s, [t])) == Fill(BoardOf(s), [t])
    ensures Play(s, [t]).winner == Outcome(BoardOf(s), s.winner, s.n, [t])
    ensures ConsistentFor(Play(s, [t]), Opposite(t.player))
  {
    MoveLast(s, t);
    PlayOne(s, t);
    FillOne(BoardOf(s), t);
    OutcomeOne(BoardOf(s), s.winner, s.n, t);
  }

  /** The move of that last turn: the board gains its mark, the winner
      follows the board test and the opponent's marks still agree. */
  lemma MoveLast(s: State, t: Turn)
    requires Consistent(s) && t.at !in BoardOf(s)
    ensures BoardOf(Move(s, t.at, t.player)) == BoardOf(s)[t.at := t.player]
    ensures Move(s, t.at, t.player).winner ==
      if CompletesLine(BoardOf(s)[t.at := t.player], t.at, t.player, s.n) then Won(t.player) else s.winner
    ensures ConsistentFor(Move(s, t.at, t.player), Opposite(t.player))
  {
    EachPlayer(s, t.player);
    MoveExtendsBoard(s, t.at, t.player);
    MoveMatchesBoard(s, t.at, t.player);
    MoveKeepsOther(s, t.at, t.player, Opposite(t.player));
  }

  /** Playing a single turn is making its move. */
  lemma PlayOne(s: State, t: Turn)
    ensures Play(s, [t]) == Move(s, t.at, t.player)
  {
    assert [t][1..] == [];
  }

  /** Filling in a single turn places its mark. */
  lemma FillOne(b: Board, t: Turn)
    ensures Fill(b, [t]) == b[t.at := t.player]
  {
    assert [t][1..] == [];
  }

  /** A single turn decides the board game by whether it completes a line. */
  lemma OutcomeOne(b: Board, w: Winner, n: int, t: Turn)
    ensures Outcome(b, w, n, [t]) ==
      if CompletesLine(b[t.at := t.player], t.at, t.player, n) then Won(t.player) else w
  {
    assert [t][1..] == [];
  }

  /** A win stands: from a state `q` has won, in which the indexes agree on
      the opponent's marks, the winner stays `q` through any turns onto free
      points in which the opponent completes no line. */
  lemma {:induction false} WinStands(s: State, q: Player, turns: seq<Turn>)
    requires s.winner == Won(q)
    requires ConsistentFor(s, Opposite(q))
    requires OpponentShut(BoardOf(s), q, s.n, turns)
    ensures Play(s, turns).winner == Won(q)
    decreases |turns|
  {
    if |turns| > 0 {
      var t := turns[0];
      var s' := Move(s, t.at, t.player);
      MoveExtendsBoard(s, t.at, t.player);
      if t.player == q {
        MoveKeepsOther(s, t.at, q, Opposite(q));
      } else {
        assert t.player == Opposite(q);
        MoveMatchesBoard(s, t.at, t.player);
      }
      WinStands(s', q, turns[1..]);
    }
  }

  /** A win that the opponent never answers stands to the end: the first
      `k` turns are open and the last of them wins for `q` on the board, and
      in the turns after them the opponent completes no line. */
  lemma WinThenShut(s: State, q: Player, turns: seq<Turn>, k: nat)
    requires Consistent(s)
    requires 0 < k <= |turns|
    requires OpenUntilLast(BoardOf(s), s.n, turns[..k]) && turns[k - 1].player == q
    requires Outcome(BoardOf(s), s.winner, s.n, turns[..k]) == Won(q)
    requires OpponentShut(Fill(BoardOf(s), turns[..k]), q, s.n, turns[k..])
    ensures Play(s, turns[..k]).winner == Won(q)
    ensures Play(s, turns).winner == Won(q)
  {
    var front, back := turns[..k], turns[k..];
    assert Last(front) == turns[k - 1];
    OpenWin(s, q, front);
    WinStands(Play(s, front), q, back);
    SplitAt(turns, k);
    PlaySplit(s, turns, front, back);
  }

  /** `compose` of a sequence cut in two is the second part applied after the first. */
  lemma PlaySplit(s: State, turns: seq<Turn>, front: seq<Turn>, back: seq<Turn>)
    requires front + back == turns
    ensures Play(s, turns) == Play(Play(s, front), back)
  {
    PlayAppend(s, front, back);
  }

  /** A sequence is its first `k` elements followed by the rest. */
  lemma SplitAt(turns: seq<Turn>, k: nat)
    requires k <= |turns|
    ensures turns[..k] + turns[k..] == turns
  {
  }

  /** An open sequence whose last turn wins for `q` on the board leaves `q`
      the winner, on the filled board, with the indexes agreeing on the
      opponent's marks. */
  lemma OpenWin(s: State, q: Player, front: seq<Turn>)
    requires Consistent(s)
    requires OpenUntilLast(BoardOf(s), s.n, front)
    requires |front| > 0 && Last(front).player == q
    requires Outcome(BoardOf(s), s.winner, s.n, front) == Won(q)
    ensures Play(s, front).winner == Won(q) && Play(s, front).n == s.n
    ensures BoardOf(Play(s, front)) == Fill(BoardOf(s), front)
    ensures ConsistentFor(Play(s, front), Opposite(q))
  {
    PlayFollowsBoard(s, front);
    PlayWinner(s, front);
  }

  /** `compose` of two move sequences is the second applied to the result of the first. */
  lemma {:induction false} PlayAppend(s: State, a: seq<Turn>, b: seq<Turn>)
    ensures Play(s, a + b) == Play(Play(s, a), b)
    decreases |a|
  {
    if |a| == 0 {
      assert a + b == b;
    } else {
      var s' := Move(s, a[0].at, a[0].player);
      ConsAppend(a, b);
      PlayCons(s, a + b, a[0], a[1..] + b);
      PlayCons(s, a, a[0], a[1..]);
      PlayAppend(s', a[1..], b);
    }
  }

  /** `compose` applies the first turn and then the rest. */
  lemma PlayCons(s: State, turns: seq<Turn>, t: Turn, rest: seq<Turn>)
    requires |turns| > 0 && turns[0] == t && turns[1..] == rest
    ensures Play(s, turns) == Play(Move(s, t.at, t.player), rest)
  {
  }

  /** The head and tail of a concatenation whose first part is not empty. */
  lemma ConsAppend(a: seq<Turn>, b: seq<Turn>)
    requires |a| > 0
    ensures (a + b)[0] == a[0] && (a + b)[1..] == a[1..] + b
  {
  }

  /** A move onto a free point that completes no line keeps the state
      consistent and the winner as it was, and extends the board. */
  lemma QuietMove(s: State, pt: Point, p: Player)
    requires Consistent(s) && pt !in BoardOf(s)
    requires !CompletesLine(BoardOf(s)[pt := p], pt, p, s.n)
    ensures Consistent(Move(s, pt, p))
    ensures Move(s, pt, p).winner == s.winner
    ensures BoardOf(Move(s, pt, p)) == BoardOf(s)[pt := p]
  {
    EachPlayer(s, p);
    MoveExtendsBoard(s, pt, p);
    MoveMatchesBoard(s, pt, p);
    MoveKeepsOther(s, pt, p, Opposite(p));
    BothPlayers(Move(s, pt, p), p);
  }

  /** A turn before the last of an open sequence keeps the state consistent
      and the winner as it was, and leaves the rest open. */
  lemma OpenMove(s: State, turns: seq<Turn>)
    requires Consistent(s)
    requires OpenUntilLast(BoardOf(s), s.n, turns)
    requires |turns| > 1
    ensures var s' := Move(s, turns[0].at, turns[0].player);
      && Consistent(s') && s'.winner == s.winner && s'.n == s.n
      && OpenUntilLast(BoardOf(s'), s'.n, turns[1..])
  {
    var t := turns[0];
    var b' := BoardOf(s)[t.at := t.player];
    assert t.at !in BoardOf(s) && !CompletesLine(b', t.at, t.player, s.n);
    assert OpenUntilLast(b', s.n, turns[1..]);
    QuietMove(s, t.at, t.player);
  }

  /** No turn but the last changes the winner: before the last turn of an
      open sequence the winner is still the one at the start. */
  lemma {:induction false} QuietBeforeLast(s: State, turns: seq<Turn>)
    requires Consistent(s)
    requires OpenUntilLast(BoardOf(s), s.n, turns)
    requires |turns| > 0
    ensures Play(s, turns[..|turns| - 1]).winner == s.winner
    decreases |turns|
  {
    var front := turns[..|turns| - 1];
    if |turns| == 1 {
      assert front == [];
    } else {
      var t := turns[0];
      var s' := Move(s, t.at, t.player);
      OpenMove(s, turns);
      QuietBeforeLast(s', turns[1..]);
      assert front[0] == t;
      FrontOfTail(turns);
      assert Play(s, front) == Play(s', front[1..]);
    }
  }

  /** Dropping the last turn and then the first is dropping the first and then the last. */
  lemma FrontOfTail(turns: seq<Turn>)
    requires |turns| > 1
    ensures turns[..|turns| - 1][1..] == turns[1..][..|turns[1..]| - 1]
  {
  }

  /** One step of `Fill`. */
  lemma FillStep(b: Board, t: Turn, rest: seq<Turn>)
    ensures Fill(b, [t] + rest) == Fill(b[t.at := t.player], rest)
  {
    assert ([t] + rest)[1..] == rest;
  }

  /** One step of `Outcome`. */
  lemma OutcomeStep(b: Board, w: Winner, n: int, t: Turn, rest: seq<Turn>)
    ensures Outcome(b, w, n, [t] + rest) ==
      var b' := b[t.at := t.player];
      Outcome(b', if CompletesLine(b', t.at, t.player, n) then Won(t.player) else w, n, rest)
  {
    assert ([t] + rest)[1..] == rest;
  }

  /** One step of `OpenUntilLast`. */
  lemma OpenStep(b: Board, n: int, t: Turn, rest: seq<Turn>)
    requires t.at !in b
    requires |rest| == 0 || !CompletesLine(b[t.at := t.player], t.at, t.player, n)
    requires OpenUntilLast(b[t.at := t.player], n, rest)
    ensures OpenUntilLast(b, n, [t] + rest)
  {
    assert ([t] + rest)[1..] == rest;
  }

  /** One step of `OpponentShut`. */
  lemma ShutStep(b: Board, q: Player, n: int, t: Turn, rest: seq<Turn>)
    requires t.at !in b
    requires t.player == q || !CompletesLine(b[t.at := t.player], t.at, t.player, n)
    requires OpponentShut(b[t.at := t.player], q, n, rest)
    ensures OpponentShut(b, q, n, [t] + rest)
  {
    assert ([t] + rest)[1..] == rest;
  }
}
