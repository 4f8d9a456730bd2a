/** Axis-aligned rectangles (src/phi/data.rs), over `real` instead of `f64`. */
module Geometry {
  import opened Wrappers

  datatype Rectangle = Rectangle(x: real, y: real, w: real, h: real)
  {
    /** The only check `to_sdl` makes before converting: no negative size. */
    predicate WellFormed() {
      w >= 0.0 && h >= 0.0
    }

    /** Clamps this rectangle into `parent`, or fails when it is wider or
        taller than `parent`. */
    function MoveInside(parent: Rectangle): (r: Option<Rectangle>)
      ensures r.None? <==> w > parent.w || h > parent.h
      ensures r.Some? ==> r.value.w == w && r.value.h == h
      ensures r.Some? && WellFormed() ==> parent.Contains(r.value)
      ensures r.Some? ==> parent.x <= r.value.x && parent.y <= r.value.y
    {
      if w > parent.w || h > parent.h then
        None
      else
        Some(Rectangle(
          if x < parent.x then parent.x
          else if x + w >= parent.x + parent.w then parent.x + parent.w - w
          else x,
          if y < parent.y then parent.y
          else if y + h >= parent.y + parent.h then parent.y + parent.h - h
          else y,
          w, h))
    }

    /** All four corners of `rect` lie inside this rectangle, edges included. */
    predicate Contains(rect: Rectangle): (r: bool)
      ensures r ==> WellFormed()
      ensures r ==> rect.w <= w && rect.h <= h
      ensures r && rect.w > 0.0 && rect.h > 0.0 ==> Overlaps(rect)
    {
      var xmin := rect.x;
      var xmax := xmin + rect.w;
      var ymin := rect.y;
      var ymax := ymin + rect.h;
      xmin >= x && xmin <= x + w &&
      xmax >= x && xmax <= x + w &&
      ymin >= y && ymin <= y + h &&
      ymax >= y && ymax <= y + h
    }

    /** Strict intersection: rectangles that only share an edge do not overlap. */
    predicate Overlaps(other: Rectangle): (r: bool)
      ensures r ==> w + other.w > 0.0 && h + other.h > 0.0
    {
      x < other.x + other.w &&
      x + w > other.x &&
      y < other.y + other.h &&
      y + h > other.y
    }

    /** `Rectangle::center`, which data.rs does not define; assumed to be the
        midpoint. */
    function Center(): (real, real) {
      (x + w / 2.0, y + h / 2.0)
    }

    /** `Rectangle::center_at`, which data.rs does not define; assumed to move
        the rectangle so that its midpoint is `center`. */
    function CenterAt(center: (real, real)): (r: Rectangle)
      ensures r.w == w && r.h == h && r.Center() == center
    {
      Rectangle(center.0 - w / 2.0, center.1 - h / 2.0, w, h)
    }
  }

  /** `Rectangle::with_size`, which data.rs does not define; assumed to put
      the rectangle at the origin. */
  function WithSize(w: real, h: real): (r: Rectangle)
    ensures r.x == 0.0 && r.y == 0.0 && r.w == w && r.h == h
  {
    Rectangle(0.0, 0.0, w, h)
  }

  /** Clamping twice is clamping once. */
  lemma MoveInsideIdempotent(r: Rectangle, parent: Rectangle)
    requires r.MoveInside(parent).Some?
    ensures r.MoveInside(parent).value.MoveInside(parent) == r.MoveInside(parent)
  {
  }

  /** A rectangle strictly inside `parent` on the far edges is not moved. */
  lemma MoveInsideKeepsInterior(r: Rectangle, parent: Rectangle)
    requires r.w <= parent.w && r.h <= parent.h
    requires parent.x <= r.x && r.x + r.w < parent.x + parent.w
    requires parent.y <= r.y && r.y + r.h < parent.y + parent.h
    ensures r.MoveInside(parent) == Some(r)
  {
  }

  /** A rectangle with no room to move on an axis is pinned to the parent's
      origin on that axis, wherever it started. */
  lemma MoveInsideExactFit(r: Rectangle, parent: Rectangle)
    requires r.w == parent.w && r.h <= parent.h
    ensures r.MoveInside(parent).Some? && r.MoveInside(parent).value.x == parent.x
  {
  }

  lemma OverlapsSymmetric(a: Rectangle, b: Rectangle)
    ensures a.Overlaps(b) <==> b.Overlaps(a)
  {
  }

  /** Rectangles that meet only along a vertical or horizontal edge, or that
      are apart by at least the first one's size, do not overlap. */
  lemma TouchingDoNotOverlap(a: Rectangle, b: Rectangle)
    requires b.x >= a.x + a.w || b.y >= a.y + a.h
    ensures !a.Overlaps(b) && !b.Overlaps(a)
  {
  }

  /** A rectangle with positive size overlaps itself; one with a zero side
      does not. */
  lemma SelfOverlap(r: Rectangle)
    ensures r.Overlaps(r) <==> r.w > 0.0 && r.h > 0.0
  {
  }

  lemma ContainsReflexive(r: Rectangle)
    ensures r.Contains(r) <==> r.WellFormed()
  {
  }

  /** Containment composes: what lies inside something inside `outer` lies
      inside `outer`. */
  lemma ContainsTransitive(outer: Rectangle, mid: Rectangle, inner: Rectangle)
    requires outer.Contains(mid) && mid.Contains(inner)
    ensures outer.Contains(inner)
  {
  }
}
