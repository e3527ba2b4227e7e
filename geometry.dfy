/**
 * Geometry of a moveable component and the bounds clamp (`checkBounds` in
 * src/App.js) that moves a component's top/left so that it lies inside its
 * container. Pixel values are reals: the source only compares, adds and
 * subtracts them.
 */
module Geometry {

  /** The colours of the COLORS palette. */
  datatype Color = Red | Blue | Yellow | Green | Purple

  /** The palette, in the order in which a random index picks from it. */
  const Palette: seq<Color> := [Red, Blue, Yellow, Green, Purple]

  /** The geometry and colour of a component (the `newComponent` of an update). */
  datatype Box = Box(top: real, left: real, width: real, height: real, color: Color)

  /** Width and height of the container's bounding rectangle. */
  datatype Area = Area(width: real, height: real)

  /** The box lies entirely inside the container. */
  predicate Fits(b: Box, area: Area)
  {
    && 0.0 <= b.top && b.top + b.height <= area.height
    && 0.0 <= b.left && b.left + b.width <= area.width
  }

  function Dist(x: real, y: real): real
  {
    if x <= y then y - x else x - y
  }

  /**
   * One axis of the clamp: `pos` is the top (left), `extent` the height
   * (width) and `limit` the container's height (width). A position below 0
   * becomes 0; a box overflowing the far edge is pushed back to end at it.
   */
  function ClampAxis(pos: real, extent: real, limit: real): (r: real)
    ensures extent <= limit ==> 0.0 <= r && r + extent <= limit
    ensures 0.0 <= pos && pos + extent <= limit ==> r == pos
  {
    if pos < 0.0 then 0.0
    else if pos + extent > limit then limit - extent
    else pos
  }

  /** Of all in-bounds positions, the clamp picks one nearest to the original. */
  lemma ClampAxisNearest(pos: real, extent: real, limit: real, q: real)
    requires 0.0 <= q && q + extent <= limit
    ensures Dist(ClampAxis(pos, extent, limit), pos) <= Dist(q, pos)
  {
  }

  /** Clamping twice equals clamping once exactly when the box is not larger than its container. */
  lemma ClampAxisTwice(pos: real, extent: real, limit: real)
    ensures ClampAxis(ClampAxis(pos, extent, limit), extent, limit) == ClampAxis(pos, extent, limit)
            <==> extent <= limit
  {
  }

  /**
   * A box larger than its container: the second clamp sends a box that the
   * first clamp put at 0 to the (negative) far-edge position, and the other
   * way round.
   */
  lemma ClampAxisTwiceOversized(pos: real, extent: real, limit: real)
    requires extent > limit
    ensures ClampAxis(pos, extent, limit) == (if pos < 0.0 then 0.0 else limit - extent)
    ensures ClampAxis(ClampAxis(pos, extent, limit), extent, limit)
            == (if pos < 0.0 then limit - extent else 0.0)
  {
  }

  /**
   * `checkBounds`: moves top and left only, so that the box fits inside the
   * container whenever it is not larger than the container.
   */
  function CheckBounds(b: Box, area: Area): (r: Box)
    ensures r.width == b.width && r.height == b.height && r.color == b.color
    ensures b.height <= area.height && b.width <= area.width ==> Fits(r, area)
    ensures Fits(b, area) ==> r == b
  {
    b.(top := ClampAxis(b.top, b.height, area.height),
       left := ClampAxis(b.left, b.width, area.width))
  }

  /** Among the boxes of the same size and colour that fit, the clamp moves least on each axis. */
  lemma CheckBoundsNearest(b: Box, area: Area, q: Box)
    requires q.width == b.width && q.height == b.height && q.color == b.color
    requires Fits(q, area)
    ensures Dist(CheckBounds(b, area).top, b.top) <= Dist(q.top, b.top)
    ensures Dist(CheckBounds(b, area).left, b.left) <= Dist(q.left, b.left)
  {
    ClampAxisNearest(b.top, b.height, area.height, q.top);
    ClampAxisNearest(b.left, b.width, area.width, q.left);
  }

  /** `checkBounds` is idempotent exactly for boxes that are not larger than the container. */
  lemma CheckBoundsTwice(b: Box, area: Area)
    ensures CheckBounds(CheckBounds(b, area), area) == CheckBounds(b, area)
            <==> b.height <= area.height && b.width <= area.width
  {
    ClampAxisTwice(b.top, b.height, area.height);
    ClampAxisTwice(b.left, b.width, area.width);
  }

  /** With W = 800, a box at left 900 of width 100 is moved to left 700. */
  lemma CheckBoundsExample()
    ensures CheckBounds(Box(0.0, 900.0, 100.0, 100.0, Red), Area(800.0, 600.0))
            == Box(0.0, 700.0, 100.0, 100.0, Red)
  {
  }
}
