/** The reducer (src/index.ts, lines 150-167): it ignores a move onto an
    occupied cell and otherwise lets the opposite of `currentPlayer` move. */
module Reducer {
  import opened GameState
  import Engine
  import BoardModel

  /** The one action the reducer handles: `{ type: "Move", payload: point }`. */
  datatype Action = Move(payload: Point)

  /** `isCurrentPointExists`: the row index has a mark at `pt`. */
  function IsCurrentPointExists(s: State, pt: Point): (r: bool)
    ensures r <==> At(s, pt) != None
  {
    pt.y in s.rows && pt.x in s.rows[pt.y]
  }

  /** `reducer(s, action)` as written: `currentPlayer` is read but never updated. */
  function Reduce(s: State, a: Action): (r: State)
    ensures r.currentPlayer == s.currentPlayer && r.n == s.n
  {
    if IsCurrentPointExists(s, a.payload) then s
    else Engine.Move(s, a.payload, Opposite(s.currentPlayer))
  }

  /** The occupancy test asks exactly whether the point is on the board. */
  lemma OccupiedIffOnBoard(s: State, pt: Point)
    ensures IsCurrentPointExists(s, pt) <==> pt in BoardModel.BoardOf(s)
  {
  }

  /** A move onto an occupied cell returns the state unchanged; a move onto
      a free cell places the opposite of `currentPlayer` there and decides
      the winner as `move` does. */
  lemma ReduceCases(s: State, a: Action)
    ensures At(s, a.payload) != None ==> Reduce(s, a) == s
    ensures At(s, a.payload) == None ==>
      && At(Reduce(s, a), a.payload) == Some(Opposite(s.currentPlayer))
      && Reduce(s, a).winner ==
         (if Engine.Wins(s, a.payload, Opposite(s.currentPlayer)) then Won(Opposite(s.currentPlayer)) else s.winner)
  {
    if At(s, a.payload) == None {
      Engine.MoveWinner(s, a.payload, Opposite(s.currentPlayer));
    }
  }

  /** The reducer never reads `winner`: after a win, a move onto a free
      cell is still accepted, its mark placed and the state changed, and the
      game stays won. */
  lemma MovesAfterWin(s: State, a: Action, q: Player)
    requires s.winner == Won(q) && At(s, a.payload) == None
    ensures At(Reduce(s, a), a.payload) == Some(Opposite(s.currentPlayer))
    ensures Reduce(s, a) != s
    ensures Reduce(s, a).winner != NoWinner
  {
    ReduceCases(s, a);
  }

  /** Repeating a move is a no-op: the first one occupies the cell. */
  lemma ReduceIdempotent(s: State, a: Action)
    ensures Reduce(Reduce(s, a), a) == Reduce(s, a)
  {
  }

  /** The actions applied left to right. */
  function Replay(s: State, actions: seq<Action>): State
    decreases |actions|
  {
    if |actions| == 0 then s else Replay(Reduce(s, actions[0]), actions[1..])
  }

  /** Every cell the reducer fills holds the same player, the opposite of the
      `currentPlayer` the game started with. */
  lemma {:induction false} ReplayUsesOnePlayer(s: State, actions: seq<Action>, pt: Point)
    requires At(s, pt) == None
    ensures At(Replay(s, actions), pt) == None ||
      At(Replay(s, actions), pt) == Some(Opposite(s.currentPlayer))
    decreases |actions|
  {
    if |actions| > 0 {
      var s' := Reduce(s, actions[0]);
      if At(s', pt) == None {
        ReplayUsesOnePlayer(s', actions[1..], pt);
      } else {
        Engine.MoveRecordsRow(s, actions[0].payload, Opposite(s.currentPlayer));
        assert At(s', pt) == Some(Opposite(s.currentPlayer));
        ReplayKeepsMarks(s', actions[1..], pt);
      }
    }
  }

  /** The reducer never changes a mark once placed. */
  lemma {:induction false} ReplayKeepsMarks(s: State, actions: seq<Action>, pt: Point)
    requires At(s, pt) != None
    ensures At(Replay(s, actions), pt) == At(s, pt)
    ensures Replay(s, actions).currentPlayer == s.currentPlayer
    decreases |actions|
  {
    if |actions| > 0 {
      var s' := Reduce(s, actions[0]);
      if !IsCurrentPointExists(s, actions[0].payload) {
        Engine.MoveRecordsRow(s, actions[0].payload, Opposite(s.currentPlayer));
      }
      ReplayKeepsMarks(s', actions[1..], pt);
    }
  }

  /** Two moves in a row onto free cells are made by the same player. */
  lemma ReduceRepeatsPlayer(s: State, a1: Action, a2: Action)
    requires At(s, a1.payload) == None && At(s, a2.payload) == None
    requires a1.payload != a2.payload
    ensures At(Reduce(Reduce(s, a1), a2), a1.payload) == Some(Opposite(s.currentPlayer))
    ensures At(Reduce(Reduce(s, a1), a2), a2.payload) == Some(Opposite(s.currentPlayer))
  {
    var s1 := Reduce(s, a1);
    Engine.MoveRecordsRow(s, a1.payload, Opposite(s.currentPlayer));
    Engine.MoveRecordsRow(s1, a2.payload, Opposite(s1.currentPlayer));
  }

  /** From an empty board with First to play, as in the default state, the
      first two moves onto different cells are both Second's. */
  lemma EmptyBoardSecondMovesTwice(s: State, a1: Action, a2: Action)
    requires s.rows == map[] && s.currentPlayer == First
    requires a1.payload != a2.payload
    ensures var r := Reduce(Reduce(s, a1), a2);
      At(r, a1.payload) == Some(Second) && At(r, a2.payload) == Some(Second)
  {
    ReduceRepeatsPlayer(s, a1, a2);
  }

  /** The reducer with the turn recorded: after an accepted move
      `currentPlayer` is the player who just moved. */
  function ReduceAlternating(s: State, a: Action): (r: State)
    ensures r.n == s.n
  {
    if IsCurrentPointExists(s, a.payload) then s
    else
      var next := Opposite(s.currentPlayer);
      Engine.Move(s, a.payload, next).(currentPlayer := next)
  }

  /** With the turn recorded, two moves in a row onto free cells are made by
      different players. */
  lemma AlternatingTurnsAlternate(s: State, a1: Action, a2: Action)
    requires At(s, a1.payload) == None && At(s, a2.payload) == None
    requires a1.payload != a2.payload
    ensures At(ReduceAlternating(ReduceAlternating(s, a1), a2), a1.payload) == Some(Opposite(s.currentPlayer))
    ensures At(ReduceAlternating(ReduceAlternating(s, a1), a2), a2.payload) == Some(s.currentPlayer)
  {
    var s1 := ReduceAlternating(s, a1);
    Engine.MoveRecordsRow(s, a1.payload, Opposite(s.currentPlayer));
    Engine.MoveRecordsRow(s1, a2.payload, Opposite(s1.currentPlayer));
  }
}
