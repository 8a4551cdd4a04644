/** The run counter `count` (src/index.ts, lines 49-75): the length of the
    block of one player's marks through a position of a sparse line. */
module RunCounter {
  import opened GameState

  /** Position `i` of `xs` holds a mark of `p`; an absent position does not. */
  predicate Holds(xs: Line, i: int, p: Player) {
    i in xs && xs[i] == p
  }

  /** The positions `lo..hi` form a maximal block of `p`'s marks: all of
      them hold `p` and neither neighbour of the block does. */
  ghost predicate MaximalRun(xs: Line, p: Player, lo: int, hi: int) {
    && lo <= hi
    && (forall i :: lo <= i <= hi ==> Holds(xs, i, p))
    && !Holds(xs, lo - 1, p)
    && !Holds(xs, hi + 1, p)
  }

  /** The occupied positions at or left of `l`: the finite set whose size
      bounds the left scan. */
  function KeysAtMost(xs: Line, l: int): set<int> {
    set k | k in xs && k <= l
  }

  /** The occupied positions at or right of `r`: the bound of the right scan. */
  function KeysAtLeast(xs: Line, r: int): set<int> {
    set k | k in xs && k >= r
  }

  /** Stepping left past an occupied position shrinks the left measure. */
  lemma ShrinkLeft(xs: Line, l: int)
    requires l in xs
    ensures |KeysAtMost(xs, l - 1)| < |KeysAtMost(xs, l)|
  {
    assert KeysAtMost(xs, l - 1) == KeysAtMost(xs, l) - {l};
  }

  /** Stepping right past an occupied position shrinks the right measure. */
  lemma ShrinkRight(xs: Line, r: int)
    requires r in xs
    ensures |KeysAtLeast(xs, r + 1)| < |KeysAtLeast(xs, r)|
  {
    assert KeysAtLeast(xs, r + 1) == KeysAtLeast(xs, r) - {r};
  }

  /** The first `while` of `count`: how many positions l, l - 1, ... in a row hold `p`. */
  function LeftSteps(xs: Line, l: int, p: Player): (k: nat)
    ensures forall i :: l - k < i <= l ==> Holds(xs, i, p)
    ensures !Holds(xs, l - k, p)
    decreases |KeysAtMost(xs, l)|
  {
    if Holds(xs, l, p) then
      ShrinkLeft(xs, l);
      1 + LeftSteps(xs, l - 1, p)
    else
      0
  }

  /** The second `while` of `count`: how many positions r, r + 1, ... in a row hold `p`. */
  function RightSteps(xs: Line, r: int, p: Player): (k: nat)
    ensures forall i :: r <= i < r + k ==> Holds(xs, i, p)
    ensures !Holds(xs, r + k, p)
    decreases |KeysAtLeast(xs, r)|
  {
    if Holds(xs, r, p) then
      ShrinkRight(xs, r);
      1 + RightSteps(xs, r + 1, p)
    else
      0
  }

  /** `count(xs, c, p)`: both scans start at `c`, so `c` is counted twice and
      one is taken off. When `c` holds `p` this is the length of the maximal
      block through `c`; otherwise both scans stop at once and the result is -1. */
  function Count(xs: Line, c: int, p: Player): (r: int)
    ensures !Holds(xs, c, p) ==> r == -1
    ensures Holds(xs, c, p) ==>
      exists lo, hi :: lo <= c <= hi && MaximalRun(xs, p, lo, hi) && r == hi - lo + 1
  {
    var left := LeftSteps(xs, c, p);
    var right := RightSteps(xs, c, p);
    assert Holds(xs, c, p) ==> MaximalRun(xs, p, c - left + 1, c + right - 1);
    left + right - 1
  }

  /** Two maximal blocks of the same player through the same position coincide. */
  lemma MaximalRunUnique(xs: Line, p: Player, c: int, lo: int, hi: int, lo': int, hi': int)
    requires lo <= c <= hi && MaximalRun(xs, p, lo, hi)
    requires lo' <= c <= hi' && MaximalRun(xs, p, lo', hi')
    ensures lo == lo' && hi == hi'
  {
  }

  /** `count` returns the length of THE maximal block through `c`, whichever way it is found. */
  lemma CountIsRunLength(xs: Line, c: int, p: Player, lo: int, hi: int)
    requires lo <= c <= hi && MaximalRun(xs, p, lo, hi)
    ensures Count(xs, c, p) == hi - lo + 1
  {
    var lo', hi' :| lo' <= c <= hi' && MaximalRun(xs, p, lo', hi') && Count(xs, c, p) == hi' - lo' + 1;
    MaximalRunUnique(xs, p, c, lo, hi, lo', hi');
  }

  /** The run length through a held position reaches `n` exactly when a
      maximal block of `n` positions passes through it. */
  lemma CountReaches(xs: Line, c: int, p: Player, n: int)
    requires Holds(xs, c, p)
    ensures Count(xs, c, p) == n <==>
      exists lo, hi :: lo <= c <= hi && MaximalRun(xs, p, lo, hi) && hi - lo + 1 == n
  {
    if exists lo, hi :: lo <= c <= hi && MaximalRun(xs, p, lo, hi) && hi - lo + 1 == n {
      var lo, hi :| lo <= c <= hi && MaximalRun(xs, p, lo, hi) && hi - lo + 1 == n;
      CountIsRunLength(xs, c, p, lo, hi);
    }
  }

  /** The integers `lo..hi`, one per position of a block. */
  function Interval(lo: int, hi: int): (r: set<int>)
    ensures forall i :: i in r <==> lo <= i <= hi
    ensures lo <= hi + 1 ==> |r| == hi - lo + 1
    decreases hi - lo
  {
    if lo > hi then {} else Interval(lo, hi - 1) + {hi}
  }

  /** A held position has a run of at least 1 and at most the number of marks on the line. */
  lemma CountBounds(xs: Line, c: int, p: Player)
    requires Holds(xs, c, p)
    ensures 1 <= Count(xs, c, p) <= |xs|
  {
    var lo, hi :| lo <= c <= hi && MaximalRun(xs, p, lo, hi) && Count(xs, c, p) == hi - lo + 1;
    assert MaximalRun(xs, p, lo, hi);
    assert lo <= hi;
    forall i | i in Interval(lo, hi)
      ensures i in xs.Keys
    {
      assert Holds(xs, i, p);
    }
    SubsetSize(Interval(lo, hi), xs.Keys);
  }

  lemma SubsetSize(a: set<int>, b: set<int>)
    requires a <= b
    ensures |a| <= |b|
  {
    assert b == a + (b - a);
  }

  /** A mark whose two neighbours do not hold the same player is a run of one. */
  lemma CountIsolated(xs: Line, c: int, p: Player)
    requires Holds(xs, c, p)
    requires !Holds(xs, c - 1, p) && !Holds(xs, c + 1, p)
    ensures Count(xs, c, p) == 1
  {
    CountIsRunLength(xs, c, p, c, c);
  }

  /** `count` reads a line only through which positions hold the player:
      lines that agree on that give the same run length. */
  lemma CountAgrees(xs: Line, ys: Line, c: int, p: Player)
    requires forall i :: Holds(xs, i, p) <==> Holds(ys, i, p)
    ensures Count(xs, c, p) == Count(ys, c, p)
  {
    if Holds(xs, c, p) {
      var lo, hi :| lo <= c <= hi && MaximalRun(xs, p, lo, hi) && Count(xs, c, p) == hi - lo + 1;
      assert MaximalRun(xs, p, lo, hi);
      assert MaximalRun(ys, p, lo, hi);
      CountIsRunLength(ys, c, p, lo, hi);
    }
  }

  /** The source's two `while` loops, step for step. Each loop ends because
      the number of occupied positions still ahead of the scan decreases. */
  method CountScan(xs: Line, c: int, p: Player) returns (r: int)
    ensures r == Count(xs, c, p)
    ensures !Holds(xs, c, p) ==> r == -1
  {
    var l := c;
    var rr := c;
    var leftCounter := 0;
    var rightCounter := 0;
    while l in xs && xs[l] == p
      invariant leftCounter + LeftSteps(xs, l, p) == LeftSteps(xs, c, p)
      decreases |KeysAtMost(xs, l)|
    {
      ShrinkLeft(xs, l);
      leftCounter := leftCounter + 1;
      l := l - 1;
    }
    while rr in xs && xs[rr] == p
      invariant rightCounter + RightSteps(xs, rr, p) == RightSteps(xs, c, p)
      decreases |KeysAtLeast(xs, rr)|
    {
      ShrinkRight(xs, rr);
      rightCounter := rightCounter + 1;
      rr := rr + 1;
    }
    r := leftCounter + rightCounter - 1;
  }
}
