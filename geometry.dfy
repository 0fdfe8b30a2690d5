// Axis-aligned boxes and the runner's collision test (game.js `checkCollision`).

module Geometry {

  /** A rectangle in canvas coordinates: (x, y) is the top-left corner, y grows downwards. */
  datatype Box = Box(x: real, y: real, width: real, height: real)

  /** `checkCollision(rect1, rect2)`: strict overlap on both axes, no inset. */
  predicate Collides(a: Box, b: Box)
  {
    a.x < b.x + b.width &&
    a.x + a.width > b.x &&
    a.y < b.y + b.height &&
    a.y + a.height > b.y
  }

  /** The point (px, py) lies strictly inside box b. */
  predicate Inside(b: Box, px: real, py: real)
  {
    b.x < px < b.x + b.width && b.y < py < b.y + b.height
  }

  function Max(a: real, b: real): real { if a < b then b else a }
  function Min(a: real, b: real): real { if a < b then a else b }

  /** The test is symmetric in its two boxes. */
  lemma CollidesSymmetric(a: Box, b: Box)
    ensures Collides(a, b) == Collides(b, a)
  {
  }

  /** For boxes of positive size, the test holds exactly when the open rectangles share a
      point; so boxes that only touch along an edge or a corner do not collide. */
  lemma CollidesIffCommonPoint(a: Box, b: Box)
    requires a.width > 0.0 && a.height > 0.0 && b.width > 0.0 && b.height > 0.0
    ensures Collides(a, b) <==> exists px, py :: Inside(a, px, py) && Inside(b, px, py)
  {
    if Collides(a, b) {
      var px := (Max(a.x, b.x) + Min(a.x + a.width, b.x + b.width)) / 2.0;
      var py := (Max(a.y, b.y) + Min(a.y + a.height, b.y + b.height)) / 2.0;
      assert Inside(a, px, py) && Inside(b, px, py);
    }
  }

  /** Boxes that meet exactly at an edge do not collide. */
  lemma TouchingBoxesDoNotCollide(a: Box, b: Box)
    requires a.x + a.width == b.x || b.x + b.width == a.x || a.y + a.height == b.y || b.y + b.height == a.y
    ensures !Collides(a, b)
  {
  }
}
