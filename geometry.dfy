// Axis-aligned rectangles and the overlap test the game uses for both
// platform landing and enemy contact (Game.checkCollision).
module Geometry {

  // A rectangle by its top-left corner and its size; y grows downwards.
  datatype Rect = Rect(x: real, y: real, width: real, height: real)

  // checkCollision: the four strict half-plane tests.
  predicate Overlaps(a: Rect, b: Rect)
  {
    a.x < b.x + b.width &&
    a.x + a.width > b.x &&
    a.y < b.y + b.height &&
    a.y + a.height > b.y
  }

  // The point (px, py) lies strictly inside r.
  predicate Inside(r: Rect, px: real, py: real)
  {
    r.x < px < r.x + r.width && r.y < py < r.y + r.height
  }

  function Max(a: real, b: real): real { if a < b then b else a }

  function Min(a: real, b: real): real { if a < b then a else b }

  // The overlap test does not depend on the order of its arguments.
  lemma OverlapsSymmetric(a: Rect, b: Rect)
    ensures Overlaps(a, b) <==> Overlaps(b, a)
  {
  }

  // Rectangles that only share an edge do not overlap.
  lemma TouchingDoNotOverlap(a: Rect, b: Rect)
    requires a.x + a.width == b.x || b.x + b.width == a.x ||
             a.y + a.height == b.y || b.y + b.height == a.y
    ensures !Overlaps(a, b)
  {
  }

  // For rectangles of positive size, the half-plane tests hold exactly when
  // some point lies strictly inside both rectangles.
  lemma OverlapsIffCommonInterior(a: Rect, b: Rect)
    requires a.width > 0.0 && a.height > 0.0 && b.width > 0.0 && b.height > 0.0
    ensures Overlaps(a, b) <==> exists px, py :: Inside(a, px, py) && Inside(b, px, py)
  {
    if Overlaps(a, b) {
      var px := (Max(a.x, b.x) + Min(a.x + a.width, b.x + b.width)) / 2.0;
      var py := (Max(a.y, b.y) + Min(a.y + a.height, b.y + b.height)) / 2.0;
      assert Inside(a, px, py) && Inside(b, px, py);
    }
    if exists px, py :: Inside(a, px, py) && Inside(b, px, py) {
      var px, py :| Inside(a, px, py) && Inside(b, px, py);
      assert Overlaps(a, b);
    }
  }
}
