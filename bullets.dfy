/** The player's bullets (src/views/bullets.rs). */
module Bullets {
  import opened Wrappers
  import opened Geometry
  import Phi

  const BulletSpeed: real := 600.0
  const BulletSpeedSlow: real := 300.0
  const BulletW: real := 4.0
  const BulletH: real := 8.0

  /** The weapon the player has selected, with its trajectory parameters. */
  datatype CannonType =
    | RectCannon
    | SineCannon(amplitude: real, angularVel: real)
    | DivergentCannon(a: real, b: real)

  /** The three kinds of bullet: a straight one that keeps its own
      rectangle, one that weaves along a sine, one whose sideways offset is
      a cubic in time (`a` sets the bump's height, `b` its width). */
  datatype Bullet =
    | RectBullet(rect: Rectangle)
    | SineBullet(posX: real, originY: real, amplitude: real, angularVel: real, totalTime: real)
    | DivergentBullet(posX: real, originY: real, a: real, b: real, totalTime: real)

  /** A divergent bullet divides by its `b`; `f64` would give NaN for 0,
      which this model does not follow, so such a bullet is excluded. */
  predicate Defined(bullet: Bullet) {
    bullet.DivergentBullet? ==> bullet.b != 0.0
  }

  /** `Bullet::rect`, the hitbox; `sin` stands for `f64::sin`. */
  function Rect(bullet: Bullet, sin: real -> real): (r: Rectangle)
    requires Defined(bullet)
    ensures bullet.RectBullet? ==> r == bullet.rect
    ensures !bullet.RectBullet? ==> r.w == BulletW && r.h == BulletH
    ensures !bullet.RectBullet? ==> r.y == bullet.originY
  {
    match bullet
    case RectBullet(rect) => rect
    case SineBullet(posX, originY, amplitude, angularVel, totalTime) =>
      Rectangle(posX + amplitude * sin(angularVel * totalTime), originY, BulletW, BulletH)
    case DivergentBullet(posX, originY, a, b, totalTime) =>
      var t := totalTime / b;
      Rectangle(posX + a * (t * t * t - t * t), originY, BulletW, BulletH)
  }

  /** The in-place part of `update`: the clock and the vertical position
      advance by `dt`. */
  function Advance(bullet: Bullet, dt: real): (r: Bullet)
    ensures Defined(r) <==> Defined(bullet)
    ensures bullet.RectBullet? ==> r.RectBullet? && r.rect.x == bullet.rect.x && r.rect.w == bullet.rect.w && r.rect.h == bullet.rect.h
    ensures bullet.SineBullet? ==>
      r.SineBullet? && r.posX == bullet.posX && r.totalTime == bullet.totalTime + dt
      && r.amplitude == bullet.amplitude && r.angularVel == bullet.angularVel
    ensures bullet.DivergentBullet? ==>
      r.DivergentBullet? && r.posX == bullet.posX && r.totalTime == bullet.totalTime + dt
      && r.a == bullet.a && r.b == bullet.b
  {
    match bullet
    case RectBullet(rect) =>
      RectBullet(rect.(y := rect.y - BulletSpeed * dt))
    case SineBullet(posX, originY, amplitude, angularVel, totalTime) =>
      SineBullet(posX, originY - BulletSpeed * dt, amplitude, angularVel, totalTime + dt)
    case DivergentBullet(posX, originY, a, b, totalTime) =>
      DivergentBullet(posX, originY - BulletSpeedSlow * dt, a, b, totalTime + dt)
  }

  /** When an advanced bullet is dropped: a straight or sine bullet only
      past the right edge, a divergent one outside the window on any side. */
  predicate Culled(bullet: Bullet, ctx: Phi.Context): (r: bool)
    requires Defined(bullet)
    ensures Rect(bullet, ctx.sin).x > ctx.W() ==> r
    ensures r && !bullet.DivergentBullet? ==> Rect(bullet, ctx.sin).x > ctx.W()
  {
    var r := Rect(bullet, ctx.sin);
    match bullet
    case RectBullet(_) => r.x > ctx.W()
    case SineBullet(_, _, _, _, _) => r.x > ctx.W()
    case DivergentBullet(_, _, _, _, _) => r.x > ctx.W() || r.x < 0.0 || r.y > ctx.H() || r.y < 0.0
  }

  /** `Bullet::update`: advance, then drop the bullet if it has left. */
  function Update(bullet: Bullet, ctx: Phi.Context, dt: real): (r: Option<Bullet>)
    requires Defined(bullet)
    ensures r.None? <==> Culled(Advance(bullet, dt), ctx)
    ensures r.Some? ==> r.value == Advance(bullet, dt) && Defined(r.value)
    ensures r.Some? ==> Rect(r.value, ctx.sin).x <= ctx.W()
  {
    var next := Advance(bullet, dt);
    if Culled(next, ctx) then None else Some(next)
  }

  /** `spawn_bullets`: one bullet for every cannon, at the first cannon;
      the second cannon's position is not used. */
  function SpawnBullets(cannon: CannonType, cannon1X: real, cannon2X: real, cannonsY: real): (r: seq<Bullet>)
    requires cannon.DivergentCannon? ==> cannon.b != 0.0
    ensures |r| == 1 && Defined(r[0])
    ensures forall sin: real -> real :: Rect(r[0], sin).w == BulletW && Rect(r[0], sin).h == BulletH
    ensures cannon.RectCannon? <==> r[0].RectBullet?
    ensures cannon.RectCannon? ==> r[0].rect.x == cannon1X && r[0].rect.y == cannonsY
    ensures cannon.SineCannon? ==> r[0] == SineBullet(cannon1X, cannonsY, cannon.amplitude, cannon.angularVel, 0.0)
    ensures cannon.DivergentCannon? ==> r[0] == DivergentBullet(cannon1X, cannonsY, -cannon.a, cannon.b, 0.0)
  {
    match cannon
    case RectCannon =>
      [RectBullet(Rectangle(cannon1X, cannonsY, BulletW, BulletH))]
    case SineCannon(amplitude, angularVel) =>
      [SineBullet(cannon1X, cannonsY, amplitude, angularVel, 0.0)]
    case DivergentCannon(a, b) =>
      [DivergentBullet(cannon1X, cannonsY, -a, b, 0.0)]
  }

  /** Repeated updates, one per frame, while the bullet lives. */
  function UpdateEach(bullet: Bullet, ctx: Phi.Context, dts: seq<real>): Option<Bullet>
    requires Defined(bullet)
    decreases |dts|
  {
    if dts == [] then Some(bullet)
    else
      match Update(bullet, ctx, dts[0])
      case None => None
      case Some(next) => UpdateEach(next, ctx, dts[1..])
  }

  function Sum(dts: seq<real>): real
    decreases |dts|
  {
    if dts == [] then 0.0 else dts[0] + Sum(dts[1..])
  }

  // ---------------------------------------------------------------------

  /** Every bullet that was spawned, and every bullet a spawned one becomes,
      has a 4 by 8 hitbox. */
  lemma UpdateKeepsHitbox(bullet: Bullet, ctx: Phi.Context, dt: real)
    requires Defined(bullet)
    requires Rect(bullet, ctx.sin).w == BulletW && Rect(bullet, ctx.sin).h == BulletH
    ensures var r := Update(bullet, ctx, dt);
      r.Some? ==> Rect(r.value, ctx.sin).w == BulletW && Rect(r.value, ctx.sin).h == BulletH
  {
  }

  /** A straight bullet moves up by `600 * dt` and keeps its column and size. */
  lemma RectBulletMotion(rect: Rectangle, dt: real)
    ensures Advance(RectBullet(rect), dt)
      == RectBullet(Rectangle(rect.x, rect.y - BulletSpeed * dt, rect.w, rect.h))
  {
  }

  /** A straight bullet inside the right edge is never dropped, however far
      it climbs: over any run of frames it is only raised by `600` times the
      total time. */
  lemma {:induction false} RectBulletNeverLeavesByTheTop(rect: Rectangle, ctx: Phi.Context, dts: seq<real>)
    requires rect.x <= ctx.W()
    ensures UpdateEach(RectBullet(rect), ctx, dts)
      == Some(RectBullet(rect.(y := rect.y - BulletSpeed * Sum(dts))))
    decreases |dts|
  {
    if dts != [] {
      var next := rect.(y := rect.y - BulletSpeed * dts[0]);
      assert Update(RectBullet(rect), ctx, dts[0]) == Some(RectBullet(next));
      RectBulletNeverLeavesByTheTop(next, ctx, dts[1..]);
      assert next.y - BulletSpeed * Sum(dts[1..]) == rect.y - BulletSpeed * Sum(dts);
    }
  }

  /** A sine bullet descends the screen at the fast speed in `origin_y` and
      is dropped exactly when its hitbox is past the right edge. */
  lemma SineBulletUpdate(posX: real, originY: real, amplitude: real, angularVel: real,
                         totalTime: real, ctx: Phi.Context, dt: real)
    ensures var next := SineBullet(posX, originY - BulletSpeed * dt, amplitude, angularVel, totalTime + dt);
      Update(SineBullet(posX, originY, amplitude, angularVel, totalTime), ctx, dt) == if Rect(next, ctx.sin).x > ctx.W() then None else Some(next)
  {
  }

  /** A divergent bullet is kept exactly when its hitbox corner is inside
      the window, edges included. */
  lemma DivergentBulletUpdate(posX: real, originY: real, a: real, b: real,
                              totalTime: real, ctx: Phi.Context, dt: real)
    requires b != 0.0
    ensures var next := DivergentBullet(posX, originY - BulletSpeedSlow * dt, a, b, totalTime + dt);
      var r := Rect(next, ctx.sin);
      Update(DivergentBullet(posX, originY, a, b, totalTime), ctx, dt).Some? <==> 0.0 <= r.x <= ctx.W() && 0.0 <= r.y <= ctx.H()
  {
  }

  /** The cubic offset `a * (t^3 - t^2)` with `t = total_time / b` vanishes at
      the start and again once `total_time` reaches `b`. */
  lemma DivergentBulletReturns(posX: real, originY: real, a: real, b: real, sin: real -> real)
    requires b != 0.0
    ensures Rect(DivergentBullet(posX, originY, a, b, 0.0), sin).x == posX
    ensures Rect(DivergentBullet(posX, originY, a, b, b), sin).x == posX
  {
    assert b / b == 1.0;
  }

  /** Only the first cannon position decides where a bullet starts. */
  lemma SpawnIgnoresSecondCannon(cannon: CannonType, x1: real, x2: real, x2': real, y: real)
    requires cannon.DivergentCannon? ==> cannon.b != 0.0
    ensures SpawnBullets(cannon, x1, x2, y) == SpawnBullets(cannon, x1, x2', y)
  {
  }
}
