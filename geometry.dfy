/** Axis-aligned rectangles and the overlap test the runner uses for every
    player/obstacle contact (`checkRectCollision` and the later `checkCollision`,
    whose bodies are identical). */
module Geometry {

  /** A rectangle in canvas coordinates: (x, y) is the top-left corner and y
      grows downwards. */
  datatype Rect = Rect(x: real, y: real, width: real, height: real)

  /** The strict overlap test: touching edges do not count as a contact. */
  predicate Overlaps(a: Rect, b: Rect)
  {
    a.x < b.x + b.width &&
    a.x + a.width > b.x &&
    a.y < b.y + b.height &&
    a.y + a.height > b.y
  }

  /** The point (px, py) lies in the open interior of r. */
  predicate Contains(r: Rect, px: real, py: real)
  {
    r.x < px < r.x + r.width && r.y < py < r.y + r.height
  }

  /** A rectangle of positive size. */
  predicate NonDegenerate(r: Rect)
  {
    r.width > 0.0 && r.height > 0.0
  }

  function Max(a: real, b: real): real { if a < b then b else a }
  function Min(a: real, b: real): real { if a < b then a else b }

  /** The overlap test is the geometric one: for rectangles of positive size it
      holds exactly when some point lies inside both. */
  lemma OverlapsIffCommonPoint(a: Rect, b: Rect)
    requires NonDegenerate(a) && NonDegenerate(b)
    ensures Overlaps(a, b) <==> exists px, py :: Contains(a, px, py) && Contains(b, px, py)
  {
    if Overlaps(a, b) {
      var px := (Max(a.x, b.x) + Min(a.x + a.width, b.x + b.width)) / 2.0;
      var py := (Max(a.y, b.y) + Min(a.y + a.height, b.y + b.height)) / 2.0;
      assert Contains(a, px, py) && Contains(b, px, py);
    }
  }

  /** Whether two rectangles touch does not depend on the order in which they
      are asked about, nor on where the origin is. */
  lemma OverlapsSymmetricAndTranslationInvariant(a: Rect, b: Rect, dx: real, dy: real)
    ensures Overlaps(a, b) == Overlaps(b, a)
    ensures Overlaps(a, b) ==
            Overlaps(a.(x := a.x + dx, y := a.y + dy), b.(x := b.x + dx, y := b.y + dy))
  {
  }
}
