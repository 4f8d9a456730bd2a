/** The views' shared steering arithmetic and the older `ShipView`
    (src/views/mod.rs). */
module Views {
  import opened Geometry
  import Input
  import Phi
  import Shared

  /** Pixels travelled by a ship every second while it moves. */
  const PlayerSpeed: real := 360.0

  /** `1.0 / 2.0f64.sqrt()`, written out as the `f64` it evaluates to. */
  const DiagonalFactor: real := 0.7071067811865475

  /** Exactly one of up/down and exactly one of left/right is held. */
  predicate Diagonal(held: set<Input.Key>) {
    ((Input.Up in held) != (Input.Down in held)) && ((Input.Left in held) != (Input.Right in held))
  }

  /** The distance covered along each moving axis this frame. */
  function Moved(held: set<Input.Key>, elapsed: real): (r: real)
    ensures elapsed >= 0.0 ==> 0.0 <= r <= PlayerSpeed * elapsed
    ensures Diagonal(held) && elapsed > 0.0 ==> r < PlayerSpeed * elapsed
  {
    (if Diagonal(held) then DiagonalFactor else 1.0) * PlayerSpeed * elapsed
  }

  /** The displacement along one axis from the pair of opposing keys. */
  function Axis(minus: bool, plus: bool, moved: real): (r: real)
    ensures minus == plus ==> r == 0.0
    ensures r == 0.0 || r == moved || r == -moved
  {
    if minus == plus then 0.0
    else if minus then -moved
    else moved
  }

  /** The full two-dimensional displacement of `ShipView`. */
  function Displacement(held: set<Input.Key>, elapsed: real): (r: (real, real))
    ensures elapsed >= 0.0 ==> -PlayerSpeed * elapsed <= r.0 <= PlayerSpeed * elapsed
    ensures elapsed >= 0.0 ==> -PlayerSpeed * elapsed <= r.1 <= PlayerSpeed * elapsed
    ensures !Diagonal(held) ==> r.0 == 0.0 || r.1 == 0.0
  {
    var moved := Moved(held, elapsed);
    (Axis(Input.Left in held, Input.Right in held, moved),
     Axis(Input.Up in held, Input.Down in held, moved))
  }

  /** The region the ship may occupy: the left 70 % of the window. */
  function ShipRegion(ctx: Phi.Context): (r: Rectangle)
    ensures Rectangle(0.0, 0.0, ctx.W(), ctx.H()).Contains(r)
    ensures r.WellFormed()
  {
    Rectangle(0.0, 0.0, ctx.W() * 0.70, ctx.H())
  }

  class ShipView {
    var rect: Rectangle

    constructor ()
      ensures rect == Rectangle(64.0, 64.0, 32.0, 32.0)
    {
      rect := Rectangle(64.0, 64.0, 32.0, 32.0);
    }

    /** One frame: clamp the ship into its region (which must succeed),
        answer `Quit` on quit or an Escape edge, otherwise draw the clamped
        ship and only then move it by the held keys. `drawn` is the
        rectangle handed to the renderer. */
    method Render(input: Input.Tracker, ctx: Phi.Context, elapsed: real)
      returns (action: Phi.ViewAction<Shared.NextView>, drawn: Rectangle)
      modifies this
      requires rect.w <= ShipRegion(ctx).w && rect.h <= ShipRegion(ctx).h
      ensures var clamped := old(rect).MoveInside(ShipRegion(ctx));
        && clamped.Some?
        && drawn == clamped.value
        && (old(rect).WellFormed() ==> ShipRegion(ctx).Contains(drawn))
      ensures input.now.quit || input.now.Pressed(Input.Escape) ==>
        action == Phi.Quit && rect == drawn
      ensures !(input.now.quit || input.now.Pressed(Input.Escape)) ==>
        action == Phi.None
        && var (dx, dy) := Displacement(input.held, elapsed);
           rect == Rectangle(drawn.x + dx, drawn.y + dy, drawn.w, drawn.h)
    {
      var region := Rectangle(0.0, 0.0, ctx.W() * 0.70, ctx.H());
      rect := rect.MoveInside(region).value;
      drawn := rect;
      if input.now.quit || input.now.Pressed(Input.Escape) {
        return Phi.Quit, drawn;
      }
      var moved := Moved(input.held, elapsed);
      var dx := Axis(Input.Left in input.held, Input.Right in input.held, moved);
      var dy := Axis(Input.Up in input.held, Input.Down in input.held, moved);
      rect := rect.(x := rect.x + dx, y := rect.y + dy);
      action := Phi.None;
    }
  }

  // ---------------------------------------------------------------------

  /** An axis moves forward exactly when only its "plus" key is held, and
      backward exactly when only its "minus" key is held. */
  lemma AxisSign(minus: bool, plus: bool, moved: real)
    requires moved > 0.0
    ensures Axis(minus, plus, moved) > 0.0 <==> plus && !minus
    ensures Axis(minus, plus, moved) < 0.0 <==> minus && !plus
    ensures Axis(minus, plus, moved) == 0.0 <==> minus == plus
  {
  }

  /** Swapping the two keys of an axis reverses the displacement. */
  lemma AxisAntisymmetric(minus: bool, plus: bool, moved: real)
    ensures Axis(plus, minus, moved) == -Axis(minus, plus, moved)
  {
  }

  /** The diagonal factor applies exactly when the ship moves along both
      axes at once. */
  lemma DiagonalIffBothAxesMove(held: set<Input.Key>, elapsed: real)
    requires elapsed > 0.0
    ensures var (dx, dy) := Displacement(held, elapsed);
      Diagonal(held) <==> dx != 0.0 && dy != 0.0
  {
    var moved := Moved(held, elapsed);
    assert moved > 0.0;
    AxisSign(Input.Left in held, Input.Right in held, moved);
    AxisSign(Input.Up in held, Input.Down in held, moved);
  }

  /** Moving diagonally is not faster than moving straight: the squared
      length of the displacement never exceeds `(360 * elapsed)^2`. */
  lemma DiagonalNotFaster(held: set<Input.Key>, elapsed: real)
    ensures var (dx, dy) := Displacement(held, elapsed);
      var s := PlayerSpeed * elapsed;
      dx * dx + dy * dy <= s * s
  {
    var s := PlayerSpeed * elapsed;
    var moved := Moved(held, elapsed);
    var (dx, dy) := Displacement(held, elapsed);
    assert dx * dx == 0.0 || dx * dx == moved * moved;
    assert dy * dy == 0.0 || dy * dy == moved * moved;
    if Diagonal(held) {
      assert moved == DiagonalFactor * s;
      assert moved * moved == DiagonalFactor * DiagonalFactor * (s * s);
      assert 2.0 * (DiagonalFactor * DiagonalFactor) <= 1.0;
      assert dx * dx + dy * dy == 2.0 * (DiagonalFactor * DiagonalFactor) * (s * s);
    } else {
      assert moved == s;
      assert dx * dx == 0.0 || dy * dy == 0.0 by {
        if (Input.Up in held) != (Input.Down in held) {
          assert (Input.Left in held) == (Input.Right in held);
        }
      }
    }
  }
}
