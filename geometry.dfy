/**
  Plain values in place of the game library's `Vector` and of the corner
  pair (`top_left`, `bottom_right`) every sprite exposes. Coordinates are
  exact reals: the model makes no claim about floating-point rounding.
 */
module Geometry {

  datatype Vec = Vec(x: real, y: real) {

    function Plus(other: Vec): Vec {
      Vec(x + other.x, y + other.y)
    }

    function Minus(other: Vec): Vec {
      Vec(x - other.x, y - other.y)
    }

    function Times(k: real): Vec {
      Vec(x * k, y * k)
    }

    /** The square of the Euclidean length. */
    function LengthSquared(): real {
      x * x + y * y
    }
  }

  const Origin := Vec(0.0, 0.0)

  /**
    `(a - b).length <= r`. For `r >= 0` the square root is monotonic, so the
    comparison is exactly `|a - b|^2 <= r^2`; for `r < 0` no length is that small.
   */
  predicate WithinReach(a: Vec, b: Vec, r: real) {
    r >= 0.0 && a.Minus(b).LengthSquared() <= r * r
  }

  /** The two opposite corners a sprite reports. */
  datatype Box = Box(topLeft: Vec, bottomRight: Vec)

  /**
    The corners the game library gives a sprite of the given width and height
    centred on `center`: left/top is `center - size/2` horizontally and
    `center + size/2` vertically.
   */
  function BoxAround(center: Vec, width: real, height: real): Box {
    Box(Vec(center.x - width / 2.0, center.y + height / 2.0),
        Vec(center.x + width / 2.0, center.y - height / 2.0))
  }
}
