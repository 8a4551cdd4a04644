/** Mapping a point to the identifiers of its two diagonal lines
    (src/index.ts, lines 37-47). The source turns the identifier point into
    the string "0,d"; that encoding is injective in d, so the model keys the
    diagonal indexes by d itself. */
module LineIds {
  import opened GameState

  /** The point (0, y - x) naming the "\" diagonal through `p`: the one
      point of that diagonal on the column x = 0. */
  function DiagonalPoint(p: Point): (r: Point)
    ensures r.x == 0
    ensures r.y - r.x == p.y - p.x
  {
    Point(0, p.y - p.x)
  }

  /** The point (0, x + y) naming the "/" diagonal through `p`: the one
      point of that diagonal on the column x = 0. */
  function CoDiagonalPoint(p: Point): (r: Point)
    ensures r.x == 0
    ensures r.x + r.y == p.x + p.y
  {
    Point(0, p.x + p.y)
  }

  /** The integer key of the "\" diagonal through `p`: the second
      coordinate of its identifier point. */
  function DiagonalKey(p: Point): int {
    p.y - p.x
  }

  /** The integer key of the "/" diagonal through `p`: the second
      coordinate of its identifier point. */
  function CoDiagonalKey(p: Point): int {
    p.x + p.y
  }

  /** An identifier point lies on the column x = 0, so its key alone
      rebuilds it: keying the indexes by the integer loses nothing the
      identifier point holds. */
  lemma KeysOfIdentifierPoints(p: Point)
    ensures DiagonalPoint(p) == Point(0, DiagonalKey(p))
    ensures CoDiagonalPoint(p) == Point(0, CoDiagonalKey(p))
  {
  }

  /** `p` moved `k` steps along its "\" diagonal, by (k, k). */
  function AlongDiagonal(p: Point, k: int): Point {
    Point(p.x + k, p.y + k)
  }

  /** `p` moved `k` steps along its "/" diagonal, by (k, -k). */
  function AlongCoDiagonal(p: Point, k: int): Point {
    Point(p.x + k, p.y - k)
  }

  /** Two points share a "\" diagonal exactly when one is the other moved by (k, k). */
  lemma SameDiagonal(p: Point, q: Point)
    ensures DiagonalPoint(p) == DiagonalPoint(q) <==> exists k :: q == AlongDiagonal(p, k)
  {
    if DiagonalPoint(p) == DiagonalPoint(q) {
      assert q == AlongDiagonal(p, q.x - p.x);
    }
  }

  /** Two points share a "/" diagonal exactly when one is the other moved by (k, -k). */
  lemma SameCoDiagonal(p: Point, q: Point)
    ensures CoDiagonalPoint(p) == CoDiagonalPoint(q) <==> exists k :: q == AlongCoDiagonal(p, k)
  {
    if CoDiagonalPoint(p) == CoDiagonalPoint(q) {
      assert q == AlongCoDiagonal(p, q.x - p.x);
    }
  }

  /** The identifier point lies on its own diagonal, so mapping it again changes nothing. */
  lemma DiagonalPointIdempotent(p: Point)
    ensures DiagonalPoint(DiagonalPoint(p)) == DiagonalPoint(p)
    ensures DiagonalKey(DiagonalPoint(p)) == DiagonalKey(p)
  {
  }

  /** The identifier point lies on its own anti-diagonal, so mapping it again changes nothing. */
  lemma CoDiagonalPointIdempotent(p: Point)
    ensures CoDiagonalPoint(CoDiagonalPoint(p)) == CoDiagonalPoint(p)
    ensures CoDiagonalKey(CoDiagonalPoint(p)) == CoDiagonalKey(p)
  {
  }

  /** A "\" diagonal and a "/" diagonal meet in at most one point. */
  lemma DiagonalsMeetOnce(p: Point, q: Point)
    requires DiagonalKey(p) == DiagonalKey(q)
    requires CoDiagonalKey(p) == CoDiagonalKey(q)
    ensures p == q
  {
  }

  /** The examples of src/index.test.ts, lines 4-11: points on one "\"
      diagonal share its identifier point. */
  lemma DiagonalPointExamples()
    ensures forall p | p in [Point(1, 1), Point(4, 4), Point(-3, -3)] :: DiagonalPoint(p) == Point(0, 0)
    ensures forall p | p in [Point(3, 2), Point(1, 0), Point(-1, -2), Point(5, 4)] :: DiagonalPoint(p) == Point(0, -1)
  {
  }

  /** The examples of src/index.test.ts, lines 13-20: points on one "/"
      diagonal share its identifier point. */
  lemma CoDiagonalPointExamples()
    ensures forall p | p in [Point(1, -1), Point(-1, 1), Point(2, -2)] :: CoDiagonalPoint(p) == Point(0, 0)
    ensures forall p | p in [Point(3, 2), Point(6, -1), Point(-1, 6)] :: CoDiagonalPoint(p) == Point(0, 5)
  {
  }
}
