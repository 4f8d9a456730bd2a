/** The game view: trumps, explosions, the player's ship, collisions and the
    per-frame protocol (src/views/game.rs). */
module Game {
  import opened Wrappers
  import opened Geometry
  import Input
  import Phi
  import Bullets
  import Shared
  import Views

  const PlayerW: real := 43.0
  const PlayerH: real := 39.0

  const TrumpsTotal: nat := 16
  const TrumpWidth: real := 129.75
  const TrumpHeight: real := 200.0
  /** Sprite time after which a trump is dropped. */
  const TrumpLifetime: real := 8.0
  /** Sprite time at which the scaling part of the trump animation is over. */
  const TrumpRestTime: real := 0.21500000000000008
  /** Index of the first of the final rest frames. */
  const TrumpRestFrom: nat := 12

  const ExplosionsTotal: nat := 17
  const ExplosionSide: real := 96.0
  const ExplosionFps: real := 16.0
  const ExplosionDuration: real := 1.0 / ExplosionFps * ExplosionsTotal as real

  /** The ship's nine sprite frames by vertical then horizontal motion. */
  datatype PlayerFrame =
    UpNorm | UpFast | UpSlow | MidNorm | MidFast | MidSlow | DownNorm | DownFast | DownSlow

  /** The frame's position in the sprite sheet (the enum's discriminant). */
  function FrameIndex(f: PlayerFrame): nat {
    match f
    case UpNorm => 0 case UpFast => 1 case UpSlow => 2
    case MidNorm => 3 case MidFast => 4 case MidSlow => 5
    case DownNorm => 6 case DownFast => 7 case DownSlow => 8
  }

  /** The frame shown for a displacement; the cases cover every pair. */
  function FrameFor(dx: real, dy: real): (r: PlayerFrame)
    ensures r == MidNorm <==> dx == 0.0 && dy == 0.0
    ensures r == UpNorm || r == UpFast || r == UpSlow <==> dy < 0.0
    ensures r == DownNorm || r == DownFast || r == DownSlow <==> dy > 0.0
  {
    if dx == 0.0 && dy < 0.0 then UpNorm
    else if dx > 0.0 && dy < 0.0 then UpFast
    else if dx < 0.0 && dy < 0.0 then UpSlow
    else if dx == 0.0 && dy == 0.0 then MidNorm
    else if dx > 0.0 && dy == 0.0 then MidFast
    else if dx < 0.0 && dy == 0.0 then MidSlow
    else if dx == 0.0 && dy > 0.0 then DownNorm
    else if dx > 0.0 && dy > 0.0 then DownFast
    else DownSlow
  }

  /** The visible part of an `AnimatedSprite`: its clock, its frames and
      whether it has been cut down to its rest frames. */
  datatype AnimatedSprite = AnimatedSprite(currentTime: real, sprites: seq<Rectangle>, isResting: bool)

  /** `add_time`, taken to advance the clock by `dt`. */
  function AddTime(s: AnimatedSprite, dt: real): AnimatedSprite {
    s.(currentTime := s.currentTime + dt)
  }

  // ---------------------------------------------------------------------
  // Trumps

  datatype Trump = Trump(sprite: AnimatedSprite, rect: Rectangle, amplitude: real,
                         angularVel: real, posX: real, originY: real)

  /** `Trump::rect`: the hitbox bobs vertically along a sine in sprite time. */
  function TrumpRect(t: Trump, sin: real -> real): (r: Rectangle)
    ensures r.x == t.posX && r.w == TrumpWidth && r.h == TrumpHeight
  {
    Rectangle(t.posX, t.originY + t.amplitude * sin(t.angularVel * t.sprite.currentTime),
              TrumpWidth, TrumpHeight)
  }

  datatype TrumpFactory = TrumpFactory(sprite: AnimatedSprite)

  /** `TrumpFactory::random` given the random draw `r`, a value in [0, 1):
      a trump at a random column, in the middle of the window. The random
      frame rate of the sprite is not modelled. */
  function RandomTrump(f: TrumpFactory, ctx: Phi.Context, r: real): (t: Trump)
    ensures t.sprite == f.sprite && t.amplitude == 15.0 && t.angularVel == 10.0
    ensures t.rect == Rectangle(t.posX, t.originY, TrumpWidth, TrumpHeight)
    ensures t.originY == ctx.H() / 2.0 - 20.0
  {
    var posX := (if r < 0.0 then -r else r) * (ctx.W() - TrumpWidth);
    var originY := ctx.H() / 2.0 - 20.0;
    Trump(f.sprite, Rectangle(posX, originY, TrumpWidth, TrumpHeight), 15.0, 10.0, posX, originY)
  }

  /** A spawned trump lies wholly inside the window horizontally. */
  lemma RandomTrumpInWindow(f: TrumpFactory, ctx: Phi.Context, r: real)
    requires 0.0 <= r <= 1.0 && TrumpWidth <= ctx.W()
    ensures 0.0 <= RandomTrump(f, ctx, r).posX
    ensures RandomTrump(f, ctx, r).posX + TrumpWidth <= ctx.W()
  {
    var m := ctx.W() - TrumpWidth;
    assert RandomTrump(f, ctx, r).posX == r * m;
    assert r * m <= 1.0 * m;
  }

  /** The frames of `s` with index at least `n`. */
  function FramesFrom(s: seq<Rectangle>, n: nat): seq<Rectangle> {
    if |s| <= n then [] else s[n..]
  }

  /** What `Trump::update` computes. */
  function TrumpStep(t: Trump, dt: real): (r: Option<Trump>)
    ensures r.None? <==> t.sprite.currentTime + dt >= TrumpLifetime
    ensures r.Some? ==> r.value.sprite.currentTime == t.sprite.currentTime + dt
    ensures r.Some? ==>
      r.value.rect == t.rect && r.value.posX == t.posX && r.value.originY == t.originY
      && r.value.amplitude == t.amplitude && r.value.angularVel == t.angularVel
    ensures r.Some? && t.sprite.isResting ==> r.value.sprite.sprites == t.sprite.sprites && r.value.sprite.isResting
  {
    var sprite := AddTime(t.sprite, dt);
    if sprite.currentTime >= TrumpLifetime then None
    else if sprite.currentTime >= TrumpRestTime && !sprite.isResting then
      Some(t.(sprite := sprite.(sprites := FramesFrom(sprite.sprites, TrumpRestFrom), isResting := true)))
    else Some(t.(sprite := sprite))
  }

  /** `Trump::update`: advance the clock, drop the trump at the end of its
      life, and the first time the rest time is reached keep only the rest
      frames, copied one by one. */
  method UpdateTrump(t: Trump, dt: real) returns (r: Option<Trump>)
    ensures r == TrumpStep(t, dt)
  {
    var sprite := AddTime(t.sprite, dt);
    if sprite.currentTime >= TrumpLifetime {
      return None;
    }
    if sprite.currentTime >= TrumpRestTime && !sprite.isResting {
      var frames := sprite.sprites;
      var kept: seq<Rectangle> := [];
      var i := 0;
      while i < |frames|
        invariant 0 <= i <= |frames|
        invariant kept == FramesFrom(frames[..i], TrumpRestFrom)
      {
        if i >= TrumpRestFrom {
          assert frames[..i + 1][TrumpRestFrom..] == frames[..i][TrumpRestFrom..] + [frames[i]];
          kept := kept + [frames[i]];
        }
        i := i + 1;
      }
      assert frames[..i] == frames;
      sprite := sprite.(sprites := kept, isResting := true);
    }
    return Some(t.(sprite := sprite));
  }

  /** Repeated trump updates, one per frame, while the trump lives. */
  function TrumpEach(t: Trump, dts: seq<real>): Option<Trump>
    decreases |dts|
  {
    if dts == [] then Some(t)
    else
      match TrumpStep(t, dts[0])
      case None => None
      case Some(next) => TrumpEach(next, dts[1..])
  }

  /** A trump is dropped exactly when its sprite time reaches 8 s. */
  lemma TrumpExpires(t: Trump, dt: real)
    ensures TrumpStep(t, dt).None? <==> t.sprite.currentTime + dt >= TrumpLifetime
    ensures TrumpStep(t, dt).Some? ==> TrumpStep(t, dt).value.sprite.currentTime == t.sprite.currentTime + dt
  {
  }

  /** The first update at or after the rest time, before the end of life,
      cuts a full 16-frame sheet down to its last four frames. */
  lemma TrumpEntersRest(t: Trump, dt: real)
    requires !t.sprite.isResting && |t.sprite.sprites| == TrumpsTotal
    requires TrumpRestTime <= t.sprite.currentTime + dt < TrumpLifetime
    ensures var r := TrumpStep(t, dt);
      && r.Some? && r.value.sprite.isResting
      && r.value.sprite.sprites == t.sprite.sprites[12..]
      && |r.value.sprite.sprites| == 4
  {
  }

  /** The rest gate at 0.21500000000000008 s, for sheets of any length: a
      trump not yet resting keeps its whole sheet and stays not resting
      while its clock is below the rest time, and the first update at or
      past it keeps only the frames from index 12 on and marks it resting. */
  lemma TrumpRestGate(t: Trump, dt: real)
    ensures var r := TrumpStep(t, dt);
      r.Some? && !t.sprite.isResting && t.sprite.currentTime + dt < TrumpRestTime ==>
        r.value.sprite == AddTime(t.sprite, dt) && !r.value.sprite.isResting
    ensures var r := TrumpStep(t, dt);
      r.Some? && !t.sprite.isResting && TrumpRestTime <= t.sprite.currentTime + dt ==>
        r.value.sprite.isResting && r.value.sprite.sprites == FramesFrom(t.sprite.sprites, TrumpRestFrom)
  {
  }

  /** The rest transition is one-way: over any run of frames a trump's
      frames are either untouched or cut once to the rest frames; a resting
      trump keeps its frames; its path parameters never change. */
  lemma {:induction false} TrumpFramesCutAtMostOnce(t: Trump, dts: seq<real>)
    ensures var r := TrumpEach(t, dts);
      r.Some? ==>
        && (r.value.sprite.sprites == t.sprite.sprites
            || r.value.sprite.sprites == FramesFrom(t.sprite.sprites, TrumpRestFrom))
        && (t.sprite.isResting ==> r.value.sprite.isResting && r.value.sprite.sprites == t.sprite.sprites)
        && r.value.sprite.currentTime == t.sprite.currentTime + Bullets.Sum(dts)
        && r.value.posX == t.posX && r.value.originY == t.originY
        && r.value.amplitude == t.amplitude && r.value.angularVel == t.angularVel
    decreases |dts|
  {
    if dts != [] {
      match TrumpStep(t, dts[0])
      case None =>
      case Some(next) =>
        TrumpFramesCutAtMostOnce(next, dts[1..]);
    }
  }

  // ---------------------------------------------------------------------
  // Explosions

  datatype Explosion = Explosion(sprite: AnimatedSprite, rect: Rectangle, aliveSince: real)

  /** `Explosion::update`. */
  function ExplosionUpdate(e: Explosion, dt: real): (r: Option<Explosion>)
    ensures r.None? <==> e.aliveSince + dt >= ExplosionDuration
    ensures r.Some? ==> r.value.rect == e.rect && r.value.aliveSince == e.aliveSince + dt
    ensures r.Some? ==> r.value.sprite.sprites == e.sprite.sprites && r.value.sprite.currentTime == e.sprite.currentTime + dt
  {
    var next := e.(aliveSince := e.aliveSince + dt, sprite := AddTime(e.sprite, dt));
    if next.aliveSince >= ExplosionDuration then None else Some(next)
  }

  /** Repeated explosion updates while the explosion lives. */
  function ExplosionEach(e: Explosion, dts: seq<real>): Option<Explosion>
    decreases |dts|
  {
    if dts == [] then Some(e)
    else
      match ExplosionUpdate(e, dts[0])
      case None => None
      case Some(next) => ExplosionEach(next, dts[1..])
  }

  lemma {:induction false} SumNonNegative(dts: seq<real>)
    requires forall k :: 0 <= k < |dts| ==> dts[k] >= 0.0
    ensures Bullets.Sum(dts) >= 0.0
    decreases |dts|
  {
    if dts != [] {
      SumNonNegative(dts[1..]);
    }
  }

  /** An explosion lasts 17 frames at 16 frames per second: seventeen
      sixteenths of a second. */
  lemma ExplosionDurationIs17Over16()
    ensures ExplosionDuration == 17.0 / 16.0
  {
  }

  /** Over frames of non-negative length an explosion that is still alive
      survives exactly while its accumulated age stays below the duration,
      and that age is the sum of the frame times. */
  lemma {:induction false} ExplosionLifetime(e: Explosion, dts: seq<real>)
    requires e.aliveSince < ExplosionDuration
    requires forall k :: 0 <= k < |dts| ==> dts[k] >= 0.0
    ensures ExplosionEach(e, dts).Some? <==> e.aliveSince + Bullets.Sum(dts) < ExplosionDuration
    ensures ExplosionEach(e, dts).Some? ==>
      ExplosionEach(e, dts).value.aliveSince == e.aliveSince + Bullets.Sum(dts)
    decreases |dts|
  {
    if dts != [] {
      var rest := dts[1..];
      SumNonNegative(rest);
      var next := e.(aliveSince := e.aliveSince + dts[0], sprite := AddTime(e.sprite, dts[0]));
      if next.aliveSince < ExplosionDuration {
        assert ExplosionUpdate(e, dts[0]) == Some(next);
        ExplosionLifetime(next, rest);
      }
    }
  }

  datatype ExplosionFactory = ExplosionFactory(sprite: AnimatedSprite)

  /** `ExplosionFactory::at_center`: a fresh 96 by 96 explosion centred on
      the given point. */
  function AtCenter(f: ExplosionFactory, center: (real, real)): (r: Explosion)
    ensures r.aliveSince == 0.0 && r.sprite == f.sprite
    ensures r.rect.w == ExplosionSide && r.rect.h == ExplosionSide && r.rect.Center() == center
  {
    Explosion(f.sprite, WithSize(ExplosionSide, ExplosionSide).CenterAt(center), 0.0)
  }

  // ---------------------------------------------------------------------
  // Per-frame collection updates (the `filter_map` passes)

  predicate AllDefined(bs: seq<Bullets.Bullet>) {
    forall j :: 0 <= j < |bs| ==> Bullets.Defined(bs[j])
  }

  function UpdateBullets(bs: seq<Bullets.Bullet>, ctx: Phi.Context, dt: real): (r: seq<Bullets.Bullet>)
    requires AllDefined(bs)
    ensures AllDefined(r) && |r| <= |bs|
    ensures forall j :: 0 <= j < |r| ==> Bullets.Rect(r[j], ctx.sin).x <= ctx.W()
    decreases |bs|
  {
    if bs == [] then []
    else
      var head := UpdateBullets(bs[..|bs| - 1], ctx, dt);
      match Bullets.Update(bs[|bs| - 1], ctx, dt)
      case None => head
      case Some(b) => head + [b]
  }

  function StepTrumps(ts: seq<Trump>, dt: real): (r: seq<Trump>)
    decreases |ts|
  {
    if ts == [] then []
    else
      var head := StepTrumps(ts[..|ts| - 1], dt);
      match TrumpStep(ts[|ts| - 1], dt)
      case None => head
      case Some(t) => head + [t]
  }

  /** The trump pass keeps no more trumps than it had, and every one it
      keeps is younger than the trump lifetime. */
  lemma {:induction false} StepTrumpsShrinks(ts: seq<Trump>, dt: real)
    ensures |StepTrumps(ts, dt)| <= |ts|
    ensures forall k :: 0 <= k < |StepTrumps(ts, dt)| ==>
      StepTrumps(ts, dt)[k].sprite.currentTime < TrumpLifetime
    decreases |ts|
  {
    if ts != [] {
      StepTrumpsShrinks(ts[..|ts| - 1], dt);
    }
  }

  function UpdateExplosions(es: seq<Explosion>, dt: real): (r: seq<Explosion>)
    ensures |r| <= |es|
    ensures forall k :: 0 <= k < |r| ==> r[k].aliveSince < ExplosionDuration
    decreases |es|
  {
    if es == [] then []
    else
      var head := UpdateExplosions(es[..|es| - 1], dt);
      match ExplosionUpdate(es[|es| - 1], dt)
      case None => head
      case Some(e) => head + [e]
  }

  // ---------------------------------------------------------------------
  // Collisions

  predicate BulletHits(t: Trump, b: Bullets.Bullet, sin: real -> real)
    requires Bullets.Defined(b)
  {
    TrumpRect(t, sin).Overlaps(Bullets.Rect(b, sin))
  }

  /** Some bullet of the frame overlaps the trump. */
  predicate ShotDown(t: Trump, bs: seq<Bullets.Bullet>, sin: real -> real)
    requires AllDefined(bs)
  {
    exists j :: 0 <= j < |bs| && BulletHits(t, bs[j], sin)
  }

  /** The trump overlaps the player's ship. */
  predicate Rams(t: Trump, ship: Rectangle, sin: real -> real) {
    TrumpRect(t, sin).Overlaps(ship)
  }

  /** No trump of the frame overlaps the ship: `player_alive` stays true. */
  predicate ShipSurvives(ts: seq<Trump>, ship: Rectangle, sin: real -> real) {
    forall i :: 0 <= i < |ts| ==> !Rams(ts[i], ship, sin)
  }

  predicate TrumpDies(t: Trump, bs: seq<Bullets.Bullet>, ship: Rectangle, sin: real -> real)
    requires AllDefined(bs)
  {
    ShotDown(t, bs, sin) || Rams(t, ship, sin)
  }

  /** Some trump of the frame overlaps the bullet. */
  predicate Spent(b: Bullets.Bullet, ts: seq<Trump>, sin: real -> real): (r: bool)
    requires Bullets.Defined(b)
    ensures r ==> ts != []
  {
    exists i :: 0 <= i < |ts| && BulletHits(ts[i], b, sin)
  }

  /** The trumps that survive the frame, in order. */
  function Survivors(ts: seq<Trump>, bs: seq<Bullets.Bullet>, ship: Rectangle, sin: real -> real): (r: seq<Trump>)
    requires AllDefined(bs)
    decreases |ts|
  {
    if ts == [] then []
    else
      var last := ts[|ts| - 1];
      Survivors(ts[..|ts| - 1], bs, ship, sin) + (if TrumpDies(last, bs, ship, sin) then [] else [last])
  }

  /** One explosion per trump that dies, centred on it, in trump order. */
  function Booms(ts: seq<Trump>, bs: seq<Bullets.Bullet>, ship: Rectangle, sin: real -> real,
                 f: ExplosionFactory): (r: seq<Explosion>)
    requires AllDefined(bs)
    decreases |ts|
  {
    if ts == [] then []
    else
      var last := ts[|ts| - 1];
      Booms(ts[..|ts| - 1], bs, ship, sin, f)
        + (if TrumpDies(last, bs, ship, sin) then [AtCenter(f, TrumpRect(last, sin).Center())] else [])
  }

  /** The bullets no trump of the frame touched, in order. */
  function Unspent(bs: seq<Bullets.Bullet>, ts: seq<Trump>, sin: real -> real): (r: seq<Bullets.Bullet>)
    requires AllDefined(bs)
    ensures |r| <= |bs|
    decreases |bs|
  {
    if bs == [] then []
    else
      var last := bs[|bs| - 1];
      Unspent(bs[..|bs| - 1], ts, sin) + (if Spent(last, ts, sin) then [] else [last])
  }

  /** `MaybeAlive::as_option` over the flagged bullets. */
  function KeepAlive(bs: seq<Bullets.Bullet>, alive: seq<bool>): (r: seq<Bullets.Bullet>)
    requires |alive| == |bs|
    ensures |r| <= |bs|
    ensures (forall j :: 0 <= j < |alive| ==> alive[j]) ==> r == bs
    decreases |bs|
  {
    if bs == [] then []
    else
      KeepAlive(bs[..|bs| - 1], alive[..|bs| - 1]) + (if alive[|bs| - 1] then [bs[|bs| - 1]] else [])
  }

  lemma SpentSnoc(b: Bullets.Bullet, ts: seq<Trump>, t: Trump, sin: real -> real)
    requires Bullets.Defined(b)
    ensures Spent(b, ts + [t], sin) <==> Spent(b, ts, sin) || BulletHits(t, b, sin)
  {
    if BulletHits(t, b, sin) {
      assert (ts + [t])[|ts|] == t;
    }
    if Spent(b, ts, sin) {
      var i :| 0 <= i < |ts| && BulletHits(ts[i], b, sin);
      assert (ts + [t])[i] == ts[i];
    }
    if Spent(b, ts + [t], sin) {
      var i :| 0 <= i < |ts| + 1 && BulletHits((ts + [t])[i], b, sin);
      if i < |ts| {
        assert (ts + [t])[i] == ts[i];
      }
    }
  }

  /** Testing one more trump extends the survivors or the explosions by it. */
  lemma CollideSnoc(ts: seq<Trump>, i: nat, bs: seq<Bullets.Bullet>, ship: Rectangle, sin: real -> real,
                    f: ExplosionFactory)
    requires i < |ts| && AllDefined(bs)
    ensures ts[..i + 1] == ts[..i] + [ts[i]]
    ensures Survivors(ts[..i + 1], bs, ship, sin)
      == Survivors(ts[..i], bs, ship, sin) + (if TrumpDies(ts[i], bs, ship, sin) then [] else [ts[i]])
    ensures Booms(ts[..i + 1], bs, ship, sin, f)
      == Booms(ts[..i], bs, ship, sin, f)
         + (if TrumpDies(ts[i], bs, ship, sin) then [AtCenter(f, TrumpRect(ts[i], sin).Center())] else [])
  {
    assert ts[..i + 1][..i] == ts[..i];
    assert ts[..i + 1][i] == ts[i];
  }

  /** The inner loop of the collision pass: one trump against every bullet,
      dead-marked ones included. Each bullet it overlaps is flagged dead,
      and the trump stays alive iff none does. */
  method ShootAt(trump: Trump, bullets: seq<Bullets.Bullet>, alive: seq<bool>, sin: real -> real)
    returns (trumpAlive: bool, alive': seq<bool>)
    requires AllDefined(bullets) && |alive| == |bullets|
    ensures trumpAlive <==> !ShotDown(trump, bullets, sin)
    ensures |alive'| == |bullets|
    ensures forall m :: 0 <= m < |bullets| ==> (alive'[m] <==> alive[m] && !BulletHits(trump, bullets[m], sin))
  {
    trumpAlive, alive' := true, alive;
    var j := 0;
    while j < |bullets|
      invariant 0 <= j <= |bullets| == |alive'|
      invariant trumpAlive <==> forall m :: 0 <= m < j ==> !BulletHits(trump, bullets[m], sin)
      invariant forall m :: 0 <= m < |bullets| ==>
        (alive'[m] <==> alive[m] && (m < j ==> !BulletHits(trump, bullets[m], sin)))
    {
      if TrumpRect(trump, sin).Overlaps(Bullets.Rect(bullets[j], sin)) {
        trumpAlive := false;
        alive' := alive'[j := false];
      }
      j := j + 1;
    }
  }

  /** The collision pass of `GameView::render`: every trump is tested
      against every bullet, dead-marked ones included, with no early exit,
      then against the ship. `alive[j]` is the `MaybeAlive` flag of
      bullet `j`. */
  method Collide(trumps: seq<Trump>, bullets: seq<Bullets.Bullet>, ship: Rectangle,
                 f: ExplosionFactory, sin: real -> real)
    returns (survivors: seq<Trump>, booms: seq<Explosion>, alive: seq<bool>, shipAlive: bool)
    requires AllDefined(bullets)
    ensures survivors == Survivors(trumps, bullets, ship, sin)
    ensures booms == Booms(trumps, bullets, ship, sin, f)
    ensures |alive| == |bullets|
    ensures forall j :: 0 <= j < |bullets| ==> (alive[j] <==> !Spent(bullets[j], trumps, sin))
    ensures shipAlive <==> ShipSurvives(trumps, ship, sin)
  {
    survivors, booms, shipAlive := [], [], true;
    alive := seq(|bullets|, _ => true);
    var i := 0;
    while i < |trumps|
      invariant 0 <= i <= |trumps|
      invariant survivors == Survivors(trumps[..i], bullets, ship, sin)
      invariant booms == Booms(trumps[..i], bullets, ship, sin, f)
      invariant |alive| == |bullets|
      invariant forall j :: 0 <= j < |bullets| ==> (alive[j] <==> !Spent(bullets[j], trumps[..i], sin))
      invariant shipAlive <==> forall k :: 0 <= k < i ==> !Rams(trumps[k], ship, sin)
    {
      var trump := trumps[i];
      var trumpAlive, alive' := ShootAt(trump, bullets, alive, sin);
      alive := alive';
      if TrumpRect(trump, sin).Overlaps(ship) {
        trumpAlive := false;
        shipAlive := false;
      }
      CollideSnoc(trumps, i, bullets, ship, sin, f);
      if trumpAlive {
        survivors := survivors + [trump];
      } else {
        booms := booms + [AtCenter(f, TrumpRect(trump, sin).Center())];
      }
      forall m | 0 <= m < |bullets|
        ensures alive[m] <==> !Spent(bullets[m], trumps[..i + 1], sin)
      {
        SpentSnoc(bullets[m], trumps[..i], trump, sin);
      }
      i := i + 1;
    }
    assert trumps[..i] == trumps;
  }

  /** Every trump either survives or leaves exactly one explosion. */
  lemma {:induction false} CollisionAccounting(ts: seq<Trump>, bs: seq<Bullets.Bullet>, ship: Rectangle,
                                                sin: real -> real, f: ExplosionFactory)
    requires AllDefined(bs)
    ensures |Survivors(ts, bs, ship, sin)| + |Booms(ts, bs, ship, sin, f)| == |ts|
    decreases |ts|
  {
    if ts != [] {
      CollisionAccounting(ts[..|ts| - 1], bs, ship, sin, f);
    }
  }

  /** A trump is among the survivors exactly when it was in the frame and
      neither a bullet nor the ship touched it. */
  lemma {:induction false} SurvivorsAreUntouched(ts: seq<Trump>, bs: seq<Bullets.Bullet>, ship: Rectangle,
                                                  sin: real -> real, t: Trump)
    requires AllDefined(bs)
    ensures t in Survivors(ts, bs, ship, sin) <==> t in ts && !TrumpDies(t, bs, ship, sin)
    decreases |ts|
  {
    if ts != [] {
      var init := ts[..|ts| - 1];
      SurvivorsAreUntouched(init, bs, ship, sin, t);
      assert ts == init + [ts[|ts| - 1]];
    }
  }

  /** Every explosion of the frame comes from a dying trump and sits on its
      centre, fresh. */
  lemma {:induction false} BoomsComeFromDeadTrumps(ts: seq<Trump>, bs: seq<Bullets.Bullet>, ship: Rectangle,
                                                    sin: real -> real, f: ExplosionFactory, e: Explosion)
    requires AllDefined(bs)
    ensures e in Booms(ts, bs, ship, sin, f) <==>
      exists t :: t in ts && TrumpDies(t, bs, ship, sin) && e == AtCenter(f, TrumpRect(t, sin).Center())
    decreases |ts|
  {
    if ts != [] {
      var init := ts[..|ts| - 1];
      var last := ts[|ts| - 1];
      BoomsComeFromDeadTrumps(init, bs, ship, sin, f, e);
      assert ts == init + [last];
      if e in Booms(ts, bs, ship, sin, f) && e !in Booms(init, bs, ship, sin, f) {
        assert last in ts;
      }
      if exists t :: t in ts && TrumpDies(t, bs, ship, sin) && e == AtCenter(f, TrumpRect(t, sin).Center()) {
        var t :| t in ts && TrumpDies(t, bs, ship, sin) && e == AtCenter(f, TrumpRect(t, sin).Center());
        if t !in init {
          assert t == last;
        }
      }
    }
  }

  /** Dropping the dead-flagged bullets leaves exactly the unspent ones. */
  lemma {:induction false} KeepAliveIsUnspent(bs: seq<Bullets.Bullet>, alive: seq<bool>, ts: seq<Trump>,
                                               sin: real -> real)
    requires AllDefined(bs) && |alive| == |bs|
    requires forall j :: 0 <= j < |bs| ==> (alive[j] <==> !Spent(bs[j], ts, sin))
    ensures KeepAlive(bs, alive) == Unspent(bs, ts, sin)
    decreases |bs|
  {
    if bs != [] {
      KeepAliveIsUnspent(bs[..|bs| - 1], alive[..|bs| - 1], ts, sin);
    }
  }

  /** One bullet in the path of two trumps brings both down, and is itself
      spent: no trump survives and two explosions remain. The trumps have
      the spawned amplitude 15, taken when their sine term vanishes. */
  lemma OneBulletTwoTrumps(s: AnimatedSprite, f: ExplosionFactory, sin: real -> real)
    requires sin(10.0 * s.currentTime) == 0.0
    ensures var t1 := Trump(s, Rectangle(100.0, 100.0, TrumpWidth, TrumpHeight), 15.0, 10.0, 100.0, 100.0);
      var t2 := Trump(s, Rectangle(150.0, 100.0, TrumpWidth, TrumpHeight), 15.0, 10.0, 150.0, 100.0);
      var b := Bullets.RectBullet(Rectangle(200.0, 150.0, 4.0, 8.0));
      var ship := Rectangle(0.0, 1000.0, PlayerW, PlayerH);
      && Survivors([t1, t2], [b], ship, sin) == []
      && |Booms([t1, t2], [b], ship, sin, f)| == 2
      && Spent(b, [t1, t2], sin)
      && Unspent([b], [t1, t2], sin) == []
  {
    var t1 := Trump(s, Rectangle(100.0, 100.0, TrumpWidth, TrumpHeight), 15.0, 10.0, 100.0, 100.0);
    var t2 := Trump(s, Rectangle(150.0, 100.0, TrumpWidth, TrumpHeight), 15.0, 10.0, 150.0, 100.0);
    var b := Bullets.RectBullet(Rectangle(200.0, 150.0, 4.0, 8.0));
    assert TrumpRect(t1, sin) == Rectangle(100.0, 100.0, TrumpWidth, TrumpHeight);
    assert TrumpRect(t2, sin) == Rectangle(150.0, 100.0, TrumpWidth, TrumpHeight);
    assert BulletHits(t1, b, sin) && BulletHits(t2, b, sin);
    var ship := Rectangle(0.0, 1000.0, PlayerW, PlayerH);
    assert TrumpDies(t1, [b], ship, sin) && TrumpDies(t2, [b], ship, sin) by {
      assert [b][0] == b;
      assert ShotDown(t1, [b], sin) && ShotDown(t2, [b], sin);
    }
    assert [t1, t2][..1] == [t1] && [t1][..0] == [];
    assert Survivors([t1, t2], [b], ship, sin) == [] by {
      assert Survivors([t1], [b], ship, sin) == [];
    }
    assert |Booms([t1, t2], [b], ship, sin, f)| == 2 by {
      assert |Booms([t1], [b], ship, sin, f)| == 1;
    }
    assert Spent(b, [t1, t2], sin) by {
      assert [t1, t2][0] == t1;
    }
    assert [b][..0] == [];
  }

  /** A bullet inside a trump kills it and is spent: the trump is gone, and
      one explosion sits on the trump's centre. The trump has the spawned
      amplitude 15, taken when its sine term vanishes. */
  lemma ShotTrumpExplodes(s: AnimatedSprite, f: ExplosionFactory, sin: real -> real)
    requires sin(10.0 * s.currentTime) == 0.0
    ensures var t := Trump(s, Rectangle(100.0, 100.0, TrumpWidth, TrumpHeight), 15.0, 10.0, 100.0, 100.0);
      var b := Bullets.RectBullet(Rectangle(105.0, 105.0, 4.0, 8.0));
      var ship := Rectangle(50.0, 1000.0, PlayerW, PlayerH);
      && Survivors([t], [b], ship, sin) == []
      && Booms([t], [b], ship, sin, f) == [AtCenter(f, (164.875, 200.0))]
      && Unspent([b], [t], sin) == []
  {
    var t := Trump(s, Rectangle(100.0, 100.0, TrumpWidth, TrumpHeight), 15.0, 10.0, 100.0, 100.0);
    var b := Bullets.RectBullet(Rectangle(105.0, 105.0, 4.0, 8.0));
    var ship := Rectangle(50.0, 1000.0, PlayerW, PlayerH);
    assert TrumpRect(t, sin) == Rectangle(100.0, 100.0, TrumpWidth, TrumpHeight);
    assert BulletHits(t, b, sin);
    assert [b][0] == b && [t][0] == t;
    assert ShotDown(t, [b], sin) && Spent(b, [t], sin);
    assert [t][..0] == [] && [b][..0] == [];
  }

  /** A trump that rams the ship dies and explodes, and `player_alive` ends
      false. The trump has the spawned amplitude 15, taken at a moment when
      its sine term vanishes. */
  lemma RammingTrumpExplodes(s: AnimatedSprite, f: ExplosionFactory, sin: real -> real)
    requires sin(10.0 * s.currentTime) == 0.0
    ensures var t := Trump(s, Rectangle(60.0, 40.0, TrumpWidth, TrumpHeight), 15.0, 10.0, 60.0, 40.0);
      var ship := Rectangle(50.0, 50.0, PlayerW, PlayerH);
      && Rams(t, ship, sin)
      && !ShipSurvives([t], ship, sin)
      && Survivors([t], [], ship, sin) == []
      && |Booms([t], [], ship, sin, f)| == 1
  {
    var t := Trump(s, Rectangle(60.0, 40.0, TrumpWidth, TrumpHeight), 15.0, 10.0, 60.0, 40.0);
    var ship := Rectangle(50.0, 50.0, PlayerW, PlayerH);
    assert TrumpRect(t, sin) == Rectangle(60.0, 40.0, TrumpWidth, TrumpHeight);
    assert [t][0] == t && [t][..0] == [];
  }

  // ---------------------------------------------------------------------
  // The player's ship

  predicate CannonDefined(c: Bullets.CannonType) {
    c.DivergentCannon? ==> c.b != 0.0
  }

  /** `Player::update`'s cannon selection: checked in the order 1, 2, 3,
      each pressed key overriding the previous choice. */
  function ChooseCannon(c: Bullets.CannonType, now: Input.Immediate): (r: Bullets.CannonType)
    ensures CannonDefined(c) ==> CannonDefined(r)
    ensures !now.Pressed(Input.Num1) && !now.Pressed(Input.Num2) && !now.Pressed(Input.Num3) ==> r == c
  {
    var c1 := if now.Pressed(Input.Num1) then Bullets.RectCannon else c;
    var c2 := if now.Pressed(Input.Num2) then Bullets.SineCannon(10.0, 15.0) else c1;
    if now.Pressed(Input.Num3) then Bullets.DivergentCannon(100.0, 1.2) else c2
  }

  /** The strip the ship may occupy: the full width, a tenth of the height
      from 59 pixels above the bottom edge. */
  function PlayerRegion(ctx: Phi.Context): (r: Rectangle)
    ensures r.x == 0.0 && r.w == ctx.W()
    ensures Rectangle(0.0, 0.0, ctx.W(), ctx.H()).Contains(r) <==> PlayerH + 20.0 <= ctx.H() <= 590.0
  {
    Rectangle(0.0, ctx.H() - PlayerH - 20.0, ctx.W(), ctx.H() * 0.1)
  }

  /** The ship fits its strip, so `move_inside(...).unwrap()` cannot panic. */
  predicate Fits(ctx: Phi.Context) {
    PlayerW <= ctx.W() && PlayerH <= ctx.H() * 0.1
  }

  /** The horizontal displacement; the vertical one is always 0. */
  function PlayerDx(held: set<Input.Key>, elapsed: real): (r: real)
    ensures elapsed >= 0.0 ==> -Views.PlayerSpeed * elapsed <= r <= Views.PlayerSpeed * elapsed
    ensures (Input.Left in held) == (Input.Right in held) ==> r == 0.0
  {
    Views.Axis(Input.Left in held, Input.Right in held, Views.Moved(held, elapsed))
  }

  /** The ship's new rectangle: moved sideways, then clamped into its strip. */
  function MovePlayer(rect: Rectangle, held: set<Input.Key>, ctx: Phi.Context, elapsed: real): (r: Rectangle)
    requires rect.w == PlayerW && rect.h == PlayerH && Fits(ctx)
    ensures r.w == PlayerW && r.h == PlayerH
    ensures PlayerRegion(ctx).Contains(r)
  {
    rect.(x := rect.x + PlayerDx(held, elapsed)).MoveInside(PlayerRegion(ctx)).value
  }

  /** The cannon positions of `Player::spawn_bullets` for a ship at `ship`:
      both cannons at its top edge, the first at its horizontal middle. */
  function SpawnFrom(cannon: Bullets.CannonType, ship: Rectangle): seq<Bullets.Bullet>
    requires CannonDefined(cannon)
  {
    Bullets.SpawnBullets(cannon, ship.w / 2.0 + ship.x, ship.x + PlayerW, ship.y)
  }

  class Player {
    var rect: Rectangle
    var current: PlayerFrame
    var cannon: Bullets.CannonType

    ghost predicate Valid()
      reads this
    {
      rect.w == PlayerW && rect.h == PlayerH && CannonDefined(cannon)
    }

    /** `Player::new` without the sprite sheet. */
    constructor (ctx: Phi.Context)
      ensures rect == Rectangle(64.0, (ctx.H() - PlayerH) + 20.0, PlayerW, PlayerH)
      ensures current == MidNorm && cannon == Bullets.RectCannon
      ensures Valid()
    {
      rect := Rectangle(64.0, (ctx.H() - PlayerH) + 20.0, PlayerW, PlayerH);
      current := MidNorm;
      cannon := Bullets.RectCannon;
    }

    /** `Player::spawn_bullets`: the new bullet starts at the ship's top
        edge, horizontally at its middle. */
    function SpawnBullets(): (r: seq<Bullets.Bullet>)
      reads this
      requires CannonDefined(cannon)
      ensures |r| == 1 && Bullets.Defined(r[0])
      ensures r[0].RectBullet? ==> r[0].rect.x == rect.x + rect.w / 2.0 && r[0].rect.y == rect.y
      ensures !r[0].RectBullet? ==> r[0].posX == rect.x + rect.w / 2.0 && r[0].originY == rect.y
    {
      SpawnFrom(cannon, rect)
    }

    method Update(input: Input.Tracker, ctx: Phi.Context, elapsed: real)
      modifies this
      requires Valid() && Fits(ctx)
      ensures Valid()
      ensures cannon == ChooseCannon(old(cannon), input.now)
      ensures rect == MovePlayer(old(rect), input.held, ctx, elapsed)
      ensures current == FrameFor(PlayerDx(input.held, elapsed), 0.0)
    {
      if input.now.Pressed(Input.Num1) {
        cannon := Bullets.RectCannon;
      }
      if input.now.Pressed(Input.Num2) {
        cannon := Bullets.SineCannon(10.0, 15.0);
      }
      if input.now.Pressed(Input.Num3) {
        cannon := Bullets.DivergentCannon(100.0, 1.2);
      }
      var moved := Views.Moved(input.held, elapsed);
      var dx := Views.Axis(Input.Left in input.held, Input.Right in input.held, moved);
      var dy := 0.0;
      rect := rect.(x := rect.x + dx, y := rect.y + dy);
      var region := Rectangle(0.0, ctx.H() - PlayerH - 20.0, ctx.W(), ctx.H() * 0.1);
      rect := rect.MoveInside(region).value;
      current := FrameFor(dx, dy);
    }
  }

  /** Of the cannon keys pressed in one pump, the highest-numbered wins;
      with none pressed the cannon is kept. */
  lemma CannonPriority(c: Bullets.CannonType, now: Input.Immediate)
    ensures now.Pressed(Input.Num3) ==> ChooseCannon(c, now) == Bullets.DivergentCannon(100.0, 1.2)
    ensures !now.Pressed(Input.Num3) && now.Pressed(Input.Num2) ==>
      ChooseCannon(c, now) == Bullets.SineCannon(10.0, 15.0)
    ensures !now.Pressed(Input.Num3) && !now.Pressed(Input.Num2) && now.Pressed(Input.Num1) ==>
      ChooseCannon(c, now) == Bullets.RectCannon
    ensures !now.Pressed(Input.Num3) && !now.Pressed(Input.Num2) && !now.Pressed(Input.Num1) ==>
      ChooseCannon(c, now) == c
    ensures CannonDefined(c) ==> CannonDefined(ChooseCannon(c, now))
  {
  }

  /** The frame index is `3 * row + column`, where the row is the sign of
      `dy` (up, level, down) and the column the sign of `dx` (still, right,
      left): every displacement gets one of the nine frames. */
  lemma FrameForIndex(dx: real, dy: real)
    ensures var row := if dy < 0.0 then 0 else if dy == 0.0 then 1 else 2;
      var col := if dx == 0.0 then 0 else if dx > 0.0 then 1 else 2;
      FrameIndex(FrameFor(dx, dy)) == 3 * row + col
  {
  }

  /** The game ship never moves vertically, so it only shows the middle
      row of frames, by the sign and size of its sideways step. */
  lemma PlayerFrameIsMiddleRow(held: set<Input.Key>, elapsed: real)
    requires elapsed > 0.0
    ensures var f := FrameFor(PlayerDx(held, elapsed), 0.0);
      && (f == MidNorm <==> (Input.Left in held) == (Input.Right in held))
      && (f == MidFast <==> Input.Right in held && Input.Left !in held)
      && (f == MidSlow <==> Input.Left in held && Input.Right !in held)
  {
    Views.AxisSign(Input.Left in held, Input.Right in held, Views.Moved(held, elapsed));
  }

  /** Up and down never move the game's ship, yet they still count for the
      diagonal test: holding one of them together with one sideways key
      slows the sideways step by the diagonal factor. */
  lemma VerticalKeysOnlySlow(held: set<Input.Key>, elapsed: real)
    ensures PlayerDx(held, elapsed)
      == (if Views.Diagonal(held) then Views.DiagonalFactor else 1.0) * PlayerDx(held - {Input.Up, Input.Down}, elapsed)
  {
    var straight := held - {Input.Up, Input.Down};
    assert !Views.Diagonal(straight);
    assert (Input.Left in held) == (Input.Left in straight) && (Input.Right in held) == (Input.Right in straight);
  }

  /** The update, cull and collision part of `GameView::render`, before
      firing and spawning: every collection is updated and culled first, so
      a culled entity is never tested for collision. */
  method Tick(bullets: seq<Bullets.Bullet>, trumps: seq<Trump>, explosions: seq<Explosion>,
              ship: Rectangle, f: ExplosionFactory, ctx: Phi.Context, elapsed: real)
    returns (survivors: seq<Trump>, es: seq<Explosion>, live: seq<Bullets.Bullet>, shipAlive: bool)
    requires AllDefined(bullets)
    ensures var bs := UpdateBullets(bullets, ctx, elapsed);
      var ts := StepTrumps(trumps, elapsed);
      && survivors == Survivors(ts, bs, ship, ctx.sin)
      && es == UpdateExplosions(explosions, elapsed) + Booms(ts, bs, ship, ctx.sin, f)
      && live == Unspent(bs, ts, ctx.sin)
      && (shipAlive <==> ShipSurvives(ts, ship, ctx.sin))
    ensures AllDefined(live)
  {
    var bs := UpdateBullets(bullets, ctx, elapsed);
    var ts: seq<Trump> := [];
    var k := 0;
    while k < |trumps|
      invariant 0 <= k <= |trumps|
      invariant ts == StepTrumps(trumps[..k], elapsed)
    {
      var r := UpdateTrump(trumps[k], elapsed);
      assert trumps[..k + 1][..k] == trumps[..k];
      if r.Some? {
        ts := ts + [r.value];
      }
      k := k + 1;
    }
    assert trumps[..k] == trumps;
    var booms, alive;
    survivors, booms, alive, shipAlive := Collide(ts, bs, ship, f, ctx.sin);
    KeepAliveIsUnspent(bs, alive, ts, ctx.sin);
    es := UpdateExplosions(explosions, elapsed) + booms;
    live := KeepAlive(bs, alive);
    UnspentDefined(bs, ts, ctx.sin);
  }

  lemma AllDefinedConcat(a: seq<Bullets.Bullet>, b: seq<Bullets.Bullet>)
    requires AllDefined(a) && AllDefined(b)
    ensures AllDefined(a + b)
  {
    forall j | 0 <= j < |a + b| ensures Bullets.Defined((a + b)[j]) {
      if j < |a| {
        assert (a + b)[j] == a[j];
      } else {
        assert (a + b)[j] == b[j - |a|];
      }
    }
  }

  lemma {:induction false} UnspentDefined(bs: seq<Bullets.Bullet>, ts: seq<Trump>, sin: real -> real)
    requires AllDefined(bs)
    ensures AllDefined(Unspent(bs, ts, sin))
    ensures |Unspent(bs, ts, sin)| <= |bs|
    decreases |bs|
  {
    if bs != [] {
      UnspentDefined(bs[..|bs| - 1], ts, sin);
    }
  }

  // ---------------------------------------------------------------------
  // The view

  class GameView {
    const player: Player
    var bullets: seq<Bullets.Bullet>
    var trumps: seq<Trump>
    var trumpFactory: TrumpFactory
    var explosions: seq<Explosion>
    var explosionFactory: ExplosionFactory
    var bg: Shared.BgSet

    ghost predicate Valid()
      reads this, player
    {
      player.Valid() && AllDefined(bullets)
    }

    /** `GameView::with_backgrounds`: a fresh ship, no entities. */
    constructor WithBackgrounds(ctx: Phi.Context, bg: Shared.BgSet, trumpSprite: AnimatedSprite,
                                explosionSprite: AnimatedSprite)
      ensures Valid() && fresh(player)
      ensures player.rect == Rectangle(64.0, (ctx.H() - PlayerH) + 20.0, PlayerW, PlayerH)
      ensures player.current == MidNorm && player.cannon == Bullets.RectCannon
      ensures bullets == [] && trumps == [] && explosions == []
      ensures trumpFactory == TrumpFactory(trumpSprite)
      ensures explosionFactory == ExplosionFactory(explosionSprite)
      ensures this.bg == bg
    {
      player := new Player(ctx);
      bullets := [];
      trumps := [];
      trumpFactory := TrumpFactory(trumpSprite);
      explosions := [];
      explosionFactory := ExplosionFactory(explosionSprite);
      this.bg := bg;
    }

    /** The logic of `GameView::render`. `draw` is the random spawn draw:
        `Some(r)` when the one-in-a-hundred check fires, with `r` the value
        that places the new trump. `shipAlive` is the `player_alive` flag. */
    method Render(input: Input.Tracker, ctx: Phi.Context, elapsed: real, draw: Option<real>)
      returns (action: Phi.ViewAction<Shared.NextView>, shipAlive: bool)
      modifies this, player
      requires Valid() && Fits(ctx)
      ensures Valid()
      ensures input.now.quit ==>
        action == Phi.Quit && unchanged(this, player)
      ensures !input.now.quit && input.now.Pressed(Input.Escape) ==>
        action == Phi.ChangeView(Shared.MainMenuWith(bg)) && unchanged(this, player)
      ensures !input.now.quit && !input.now.Pressed(Input.Escape) ==>
        action == Phi.None && Played(old(Snapshot()), Snapshot(), input, ctx, elapsed, draw, shipAlive)
    {
      if input.now.quit {
        return Phi.Quit, true;
      }
      if input.now.Pressed(Input.Escape) {
        return Phi.ChangeView(Shared.MainMenuWith(bg)), true;
      }
      shipAlive := Play(input, ctx, elapsed, draw);
      action := Phi.None;
    }

    /** The view's state as a value. */
    function Snapshot(): State
      reads this, player
    {
      State(bullets, trumps, explosions, trumpFactory, explosionFactory, bg,
            player.rect, player.current, player.cannon)
    }

    /** A frame that carries on: update and cull, collide, fire on a Space
        edge, maybe spawn a trump, then move the ship. */
    method Play(input: Input.Tracker, ctx: Phi.Context, elapsed: real, draw: Option<real>)
      returns (shipAlive: bool)
      modifies this, player
      requires Valid() && Fits(ctx)
      ensures Valid()
      ensures Played(old(Snapshot()), Snapshot(), input, ctx, elapsed, draw, shipAlive)
    {
      var bs0, ts0, es0, ship0 := bullets, trumps, explosions, player.rect;
      ghost var s := State(bs0, ts0, es0, trumpFactory, explosionFactory, bg, ship0, player.current, player.cannon);
      assert s == old(Snapshot());
      var fired := if input.now.Pressed(Input.Space) then player.SpawnBullets() else [];
      assert fired == if input.now.Pressed(Input.Space) then Fired(s) else [];
      var survivors, es, live, ok := Tick(bs0, ts0, es0, ship0, explosionFactory, ctx, elapsed);
      var spawned := if draw.Some? then [RandomTrump(trumpFactory, ctx, draw.value)] else [];
      shipAlive := ok;
      player.Update(input, ctx, elapsed);
      // The ship's own fields are final; the view's collections are
      // written after it, which the ship's update does not read.
      AllDefinedConcat(live, fired);
      trumps, explosions, bullets := survivors + spawned, es, live + fired;
      ghost var s' := State(bullets, trumps, explosions, trumpFactory, explosionFactory, bg,
                            player.rect, player.current, player.cannon);
      PlayedByParts(s, s', input, ctx, elapsed, draw, shipAlive, survivors, es, live, fired);
    }
  }

  /** `Played` holds once its parts do: what `Tick` computed from the old
      state, the bullets fired from the old ship, and the moved ship. */
  lemma PlayedByParts(s: State, s': State, input: Input.Tracker, ctx: Phi.Context, elapsed: real,
                      draw: Option<real>, shipAlive: bool, survivors: seq<Trump>, es: seq<Explosion>,
                      live: seq<Bullets.Bullet>, fired: seq<Bullets.Bullet>)
    requires AllDefined(s.bullets) && CannonDefined(s.cannon) && Fits(ctx)
    requires s.shipRect.w == PlayerW && s.shipRect.h == PlayerH
    requires var bs := UpdateBullets(s.bullets, ctx, elapsed);
      var ts := StepTrumps(s.trumps, elapsed);
      && survivors == Survivors(ts, bs, s.shipRect, ctx.sin)
      && es == UpdateExplosions(s.explosions, elapsed) + Booms(ts, bs, s.shipRect, ctx.sin, s.explosionFactory)
      && live == Unspent(bs, ts, ctx.sin)
      && (shipAlive <==> ShipSurvives(ts, s.shipRect, ctx.sin))
    requires fired == if input.now.Pressed(Input.Space) then Fired(s) else []
    requires s'.trumps == survivors + (if draw.Some? then [RandomTrump(s.trumpFactory, ctx, draw.value)] else [])
    requires s'.explosions == es && s'.bullets == live + fired
    requires s'.shipRect == MovePlayer(s.shipRect, input.held, ctx, elapsed)
    requires s'.cannon == ChooseCannon(s.cannon, input.now)
    requires s'.shipFrame == FrameFor(PlayerDx(input.held, elapsed), 0.0)
    requires s'.trumpFactory == s.trumpFactory && s'.explosionFactory == s.explosionFactory && s'.bg == s.bg
    ensures Played(s, s', input, ctx, elapsed, draw, shipAlive)
  {
  }

  /** The game view's state, as `GameView::render` leaves it. */
  datatype State = State(bullets: seq<Bullets.Bullet>, trumps: seq<Trump>, explosions: seq<Explosion>,
                         trumpFactory: TrumpFactory, explosionFactory: ExplosionFactory, bg: Shared.BgSet,
                         shipRect: Rectangle, shipFrame: PlayerFrame, cannon: Bullets.CannonType)

  /** The bullets `spawn_bullets` fires from a ship in state `s`. */
  function Fired(s: State): seq<Bullets.Bullet>
    requires CannonDefined(s.cannon)
  {
    SpawnFrom(s.cannon, s.shipRect)
  }

  /** What a frame that carries on does to the state: entities updated and
      culled, then collided against one another and the ship as it was at
      the start of the frame; a Space edge fires from that same ship; a
      spawn draw adds a trump at the end; the ship moves last. */
  ghost predicate Played(s: State, s': State, input: Input.Tracker, ctx: Phi.Context, elapsed: real,
                         draw: Option<real>, shipAlive: bool)
  {
    AllDefined(s.bullets) && CannonDefined(s.cannon) && s.shipRect.w == PlayerW && s.shipRect.h == PlayerH
    && Fits(ctx) &&
    var bs := UpdateBullets(s.bullets, ctx, elapsed);
    var ts := StepTrumps(s.trumps, elapsed);
    && s'.trumps == Survivors(ts, bs, s.shipRect, ctx.sin)
                    + (if draw.Some? then [RandomTrump(s.trumpFactory, ctx, draw.value)] else [])
    && s'.explosions == UpdateExplosions(s.explosions, elapsed)
                        + Booms(ts, bs, s.shipRect, ctx.sin, s.explosionFactory)
    && s'.bullets == Unspent(bs, ts, ctx.sin) + (if input.now.Pressed(Input.Space) then Fired(s) else [])
    && (shipAlive <==> ShipSurvives(ts, s.shipRect, ctx.sin))
    && s'.shipRect == MovePlayer(s.shipRect, input.held, ctx, elapsed)
    && s'.cannon == ChooseCannon(s.cannon, input.now)
    && s'.shipFrame == FrameFor(PlayerDx(input.held, elapsed), 0.0)
    && s'.trumpFactory == s.trumpFactory && s'.explosionFactory == s.explosionFactory && s'.bg == s.bg
  }
}
