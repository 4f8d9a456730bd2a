/** The scrolling background shared by the views (src/views/shared.rs). */
module Shared {
  import opened Geometry

  /** A loaded image, seen only through `Sprite::size()`. */
  datatype Sprite = Sprite(width: real, height: real)

  /** A background layer: a logical scroll position, a velocity in
      pixels per second, and its image. */
  datatype Background = Background(pos: real, vel: real, sprite: Sprite)

  /** The set of background layers; only `back` is live in the source. */
  datatype BgSet = BgSet(back: Background)

  /** `BgSet::new`, given the size of the image it loads. */
  function NewBgSet(sprite: Sprite): (r: BgSet)
    ensures r.back.pos == 0.0 && r.back.vel == 20.0 && r.back.sprite == sprite
  {
    BgSet(Background(0.0, 20.0, sprite))
  }

  /** The view a `ChangeView` hands back to the loop, with the backgrounds
      it carries over (the source boxes the constructed view itself). */
  datatype NextView = MainMenuWith(bg: BgSet) | GameWith(bg: BgSet)

  /** The scale from image to window: `win_h / size.1`. */
  function Scale(bg: Background, winH: nat): real
    requires bg.sprite.height != 0.0
  {
    winH as real / bg.sprite.height
  }

  /** The left edge of the `n`-th tile: `n` steps of `step` from `left`,
      accumulated one addition at a time as the loop does. */
  function TileX(left: real, step: real, n: nat): (r: real)
    ensures step >= 0.0 ==> r >= left
    decreases n
  {
    if n == 0 then left else TileX(left, step, n - 1) + step
  }

  /** The first tile's left edge, `-pos * scale`. */
  function Left(bg: Background, winH: nat): real
    requires bg.sprite.height != 0.0
  {
    -bg.pos * Scale(bg, winH)
  }

  /** The scaled tile width, `size.0 * scale`. */
  function Step(bg: Background, winH: nat): real
    requires bg.sprite.height != 0.0
  {
    bg.sprite.width * Scale(bg, winH)
  }

  lemma {:induction false} TileXIsLinear(left: real, step: real, n: nat)
    ensures TileX(left, step, n) == left + n as real * step
    decreases n
  {
    if n > 0 {
      TileXIsLinear(left, step, n - 1);
      assert (n - 1) as real * step + step == n as real * step;
    }
  }

  /** How many more tiles the loop emits at most from edge `x`: its
      termination measure. */
  function TilesLeft(x: real, winW: real, step: real): int
    requires step > 0.0
  {
    if x < winW then ((winW - x) / step).Floor + 1 else 0
  }

  lemma TilesLeftDecreases(x: real, winW: real, step: real)
    requires step > 0.0 && x < winW
    ensures 0 <= TilesLeft(x + step, winW, step) < TilesLeft(x, winW, step)
  {
    var q := (winW - x) / step;
    assert q > 0.0;
    calc {
      (winW - (x + step)) / step;
      (winW - x) / step - step / step;
      q - 1.0;
    }
  }

  /** The loop of `Background::render`: tiles of width `step` and height
      `tileH` along the top edge, from `left` on, while the left edge is
      still less than `winW`. */
  method TileRow(left: real, step: real, tileH: real, winW: real) returns (tiles: seq<Rectangle>)
    requires step > 0.0
    ensures forall i :: 0 <= i < |tiles| ==> tiles[i] == Rectangle(TileX(left, step, i), 0.0, step, tileH)
    ensures forall i :: 0 <= i < |tiles| ==> tiles[i].x < winW
    ensures TileX(left, step, |tiles|) >= winW
  {
    var physicalLeft := left;
    tiles := [];
    while physicalLeft < winW
      invariant physicalLeft == TileX(left, step, |tiles|)
      invariant forall i :: 0 <= i < |tiles| ==> tiles[i] == Rectangle(TileX(left, step, i), 0.0, step, tileH)
      invariant forall i :: 0 <= i < |tiles| ==> tiles[i].x < winW
      decreases TilesLeft(physicalLeft, winW, step)
    {
      TilesLeftDecreases(physicalLeft, winW, step);
      tiles := tiles + [Rectangle(physicalLeft, 0.0, step, tileH)];
      physicalLeft := physicalLeft + step;
    }
  }

  /** `Background::render`: as many copies of the image, scaled to the
      window height, as it takes to cover the width from `-pos * scale` on.
      The position is only read, since its update is commented out in the
      source. The source loops forever when the scaled tile width is not
      positive; that case is excluded. */
  method RenderBackground(bg: Background, winW: nat, winH: nat) returns (tiles: seq<Rectangle>)
    requires bg.sprite.height != 0.0
    requires Step(bg, winH) > 0.0
    ensures forall i :: 0 <= i < |tiles| ==>
      tiles[i] == Rectangle(TileX(Left(bg, winH), Step(bg, winH), i), 0.0,
                            Step(bg, winH), bg.sprite.height * Scale(bg, winH))
    ensures forall i :: 0 <= i < |tiles| ==> tiles[i].x < winW as real
    ensures TileX(Left(bg, winH), Step(bg, winH), |tiles|) >= winW as real
  {
    var size := (bg.sprite.width, bg.sprite.height);
    var scale := winH as real / size.1;
    assert scale == Scale(bg, winH);
    assert -bg.pos * scale == Left(bg, winH) && size.0 * scale == Step(bg, winH);
    tiles := TileRow(-bg.pos * scale, size.0 * scale, size.1 * scale, winW as real);
  }

  /** The tile count is the least `n` with `left + n * step >= win_w`: every
      earlier tile starts left of the window's right edge. */
  lemma TileCountIsLeast(left: real, step: real, winW: real, n: nat)
    requires step > 0.0
    requires TileX(left, step, n) >= winW
    requires n == 0 || TileX(left, step, n - 1) < winW
    ensures forall k: nat :: k < n ==> TileX(left, step, k) < winW
    ensures left + n as real * step >= winW
  {
    TileXIsLinear(left, step, n);
    if n > 0 {
      forall k: nat | k < n ensures TileX(left, step, k) < winW {
        TileXMonotone(left, step, k, n - 1);
      }
    }
  }

  /** Later tiles start no further left, for a non-negative step. */
  lemma {:induction false} TileXMonotone(left: real, step: real, k: nat, m: nat)
    requires step >= 0.0 && k <= m
    ensures TileX(left, step, k) <= TileX(left, step, m)
    decreases m - k
  {
    if k < m {
      TileXMonotone(left, step, k, m - 1);
    }
  }
}
