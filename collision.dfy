/**
  The overlap test of `models/__init__.py`: `check_in_range` and
  `is_colliding`. Only the FIRST sprite's corners are tested against the
  SECOND sprite's extent, so the test is not symmetric.
 */
module Collision {
  import opened Geometry

  /** `check_in_range`: the closed interval test `low <= value <= high`. */
  function InRange(value: real, low: real, high: real): (r: bool)
    ensures r ==> low <= high
  {
    low <= value <= high
  }

  function Min(a: real, b: real): real {
    if a <= b then a else b
  }

  function Max(a: real, b: real): real {
    if a <= b then b else a
  }

  /** The first sprite's two x-coordinates, in the order the source lists them. */
  function CornerXs(b: Box): seq<real> {
    [b.topLeft.x, b.bottomRight.x]
  }

  /** The first sprite's two y-coordinates, in the order the source lists them. */
  function CornerYs(b: Box): seq<real> {
    [b.topLeft.y, b.bottomRight.y]
  }

  /** Some coordinate of `coords` lies in `[low, high]`, in whichever position. */
  predicate AnyInRange(coords: seq<real>, low: real, high: real) {
    exists i :: 0 <= i < |coords| && InRange(coords[i], low, high)
  }

  /**
    The collision relation: a corner x of `first` lies in the x-extent of
    `second` and a corner y of `first` lies in its y-extent, where each
    extent is normalised with min/max.
   */
  predicate Colliding(first: Box, second: Box) {
    var sx1, sx2 := second.topLeft.x, second.bottomRight.x;
    var sy1, sy2 := second.topLeft.y, second.bottomRight.y;
    && AnyInRange(CornerXs(first), Min(sx1, sx2), Max(sx1, sx2))
    && AnyInRange(CornerYs(first), Min(sy1, sy2), Max(sy1, sy2))
  }

  /**
    `is_colliding`: two loops over the corner lists set the flags
    `xColliding` and `yColliding`; the answer is their conjunction.
   */
  method IsColliding(first: Box, second: Box) returns (colliding: bool)
    ensures colliding == Colliding(first, second)
  {
    var xLow, xHigh := Min(second.topLeft.x, second.bottomRight.x), Max(second.topLeft.x, second.bottomRight.x);
    var yLow, yHigh := Min(second.topLeft.y, second.bottomRight.y), Max(second.topLeft.y, second.bottomRight.y);
    var xs, ys := CornerXs(first), CornerYs(first);
    var xColliding, yColliding := false, false;
    for i := 0 to |xs|
      invariant xColliding <==> exists j :: 0 <= j < i && InRange(xs[j], xLow, xHigh)
    {
      if InRange(xs[i], xLow, xHigh) {
        xColliding := true;
      }
    }
    for i := 0 to |ys|
      invariant yColliding <==> exists j :: 0 <= j < i && InRange(ys[j], yLow, yHigh)
    {
      if InRange(ys[i], yLow, yHigh) {
        yColliding := true;
      }
    }
    colliding := xColliding && yColliding;
  }

  /** The relation written out corner by corner, as a plain disjunction per axis. */
  lemma CollidingCases(first: Box, second: Box)
    ensures Colliding(first, second) <==>
      var sx1, sx2 := second.topLeft.x, second.bottomRight.x;
      var sy1, sy2 := second.topLeft.y, second.bottomRight.y;
      && (Min(sx1, sx2) <= first.topLeft.x <= Max(sx1, sx2) || Min(sx1, sx2) <= first.bottomRight.x <= Max(sx1, sx2))
      && (Min(sy1, sy2) <= first.topLeft.y <= Max(sy1, sy2) || Min(sy1, sy2) <= first.bottomRight.y <= Max(sy1, sy2))
  {
    var xs, ys := CornerXs(first), CornerYs(first);
    assert xs[0] == first.topLeft.x && xs[1] == first.bottomRight.x;
    assert ys[0] == first.topLeft.y && ys[1] == first.bottomRight.y;
  }

  /** Listing the second sprite's corners in the other order, on either axis, changes nothing. */
  lemma SecondCornerOrderIrrelevant(first: Box, second: Box, second': Box)
    requires (second'.topLeft.x == second.topLeft.x && second'.bottomRight.x == second.bottomRight.x)
          || (second'.topLeft.x == second.bottomRight.x && second'.bottomRight.x == second.topLeft.x)
    requires (second'.topLeft.y == second.topLeft.y && second'.bottomRight.y == second.bottomRight.y)
          || (second'.topLeft.y == second.bottomRight.y && second'.bottomRight.y == second.topLeft.y)
    ensures Colliding(first, second') == Colliding(first, second)
  {
    CollidingCases(first, second);
    CollidingCases(first, second');
  }

  /** Visiting the first sprite's corners in the other order changes nothing: the loops compute a disjunction. */
  lemma FirstCornerOrderIrrelevant(first: Box, second: Box)
    ensures Colliding(Box(first.bottomRight, first.topLeft), second) == Colliding(first, second)
  {
    CollidingCases(first, second);
    CollidingCases(Box(first.bottomRight, first.topLeft), second);
  }

  /** Every sprite collides with itself: each corner lies in its own extent. */
  lemma CollidesWithItself(b: Box)
    ensures Colliding(b, b)
  {
    CollidingCases(b, b);
  }

  /**
    The test is not symmetric: when the first box strictly contains the
    second on both axes, none of the first box's corners lies in the second's
    extent, while the second's corners all lie in the first's.
   */
  lemma ContainingBoxDoesNotCollide(first: Box, second: Box)
    requires Min(first.topLeft.x, first.bottomRight.x) < Min(second.topLeft.x, second.bottomRight.x)
    requires Max(second.topLeft.x, second.bottomRight.x) < Max(first.topLeft.x, first.bottomRight.x)
    requires Min(first.topLeft.y, first.bottomRight.y) < Min(second.topLeft.y, second.bottomRight.y)
    requires Max(second.topLeft.y, second.bottomRight.y) < Max(first.topLeft.y, first.bottomRight.y)
    ensures !Colliding(first, second)
    ensures Colliding(second, first)
  {
    CollidingCases(first, second);
    CollidingCases(second, first);
  }

  /** A reported collision means the two closed extents really intersect on both axes. */
  lemma CollidingMeansExtentsMeet(first: Box, second: Box)
    requires Colliding(first, second)
    ensures Max(first.topLeft.x, first.bottomRight.x) >= Min(second.topLeft.x, second.bottomRight.x)
    ensures Min(first.topLeft.x, first.bottomRight.x) <= Max(second.topLeft.x, second.bottomRight.x)
    ensures Max(first.topLeft.y, first.bottomRight.y) >= Min(second.topLeft.y, second.bottomRight.y)
    ensures Min(first.topLeft.y, first.bottomRight.y) <= Max(second.topLeft.y, second.bottomRight.y)
  {
    CollidingCases(first, second);
  }
}
