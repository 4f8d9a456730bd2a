# arcade-rs, modelled in Dafny

This repository is the per-frame logic of a small SDL arcade shooter. The
model covers the deterministic bookkeeping behind the screen, in nine
modules that follow the program's own files:

- `Geometry` (`src/phi/data.rs`): the `Rectangle` record and its `move_inside`
  (clamp or fail), `contains` and `overlaps` operations.
- `Input` (`src/phi/events.rs` and the key set in `src/phi/mod.rs`): the
  `Events` tracker as a class. Each key has a level-triggered `held` flag and
  an edge entry that is reset at every pump.
- `Phi` (`src/phi/mod.rs`): the `spawn` loop as a method over a sequence of
  timer readings. It covers frame pacing, the FPS window counter and
  `ViewAction` dispatch.
- `Shared` (`src/views/shared.rs`): the background tiling loop and `BgSet::new`.
- `Bullets` (`src/views/bullets.rs`): bullet kinematics, culling, hitboxes and
  `spawn_bullets`.
- `Views` (`src/views/mod.rs`): the `ShipView` class and the steering
  arithmetic that `ShipView` and the game's ship share.
- `Game` (`src/views/game.rs`): trumps, explosions and the collision pass,
  plus the `Player` and `GameView` classes and the per-frame protocol of
  `GameView::render`.
- `MainMenu` (`src/views/main_menu.rs`): the `MainMenuView` class, with its
  wraparound selection and early-return priorities.
- `Wrappers`: the `Option` type.

Modelling choices:
- `f64` is modelled as `real`.
- `sin` is a field of `Phi.Context`, an arbitrary function passed in.
- `powi(3)` and `powi(2)` are written as products.
- `1.0 / 2.0f64.sqrt()` is the decimal constant `0.7071067811865475`.
- Timer readings (`u32` ticks) are integers.
- A view's `render` is a parameter of `Phi.Spawn`. That parameter takes the
  view, the event snapshot and the elapsed time, and returns the next view
  and the action.
- `ChangeView(Box<View>)` is modelled as the value `Shared.NextView`. It names
  the view to build and the backgrounds carried over to it.

Where the code behaves otherwise than a reader might expect, the model
follows the code:
- **Collisions.** One might expect the first bullet found to win, so that each
  trump is brought down by exactly one bullet. The nested loop at
  `src/views/game.rs:335-340` has no `break`, so every overlapping bullet is
  spent. A bullet already marked dead is still tested against later trumps,
  so one bullet can bring down several trumps (`Game.OneBulletTwoTrumps`).
- **Self-overlap.** One might expect every rectangle with `w, h >= 0` to
  overlap itself. The strict comparisons at `src/phi/data.rs:56-59` make it
  false when a side is 0 (`Geometry.SelfOverlap`).
- **Collision scenarios.** The trump hitbox is always 129.75 by 200
  (`src/views/game.rs:145-153`), so the scenario lemmas use that size. Their
  trumps have the amplitude 15 and angular velocity 10 that
  `TrumpFactory::random` gives (`src/views/game.rs:161-182`), taken at a
  moment when the sine term is 0. A trump at (100, 100) then explodes
  around (164.875, 200).
- **Player region.** The comment at `src/views/game.rs:513-517` speaks of the
  full height and 70 % of the width. The code at lines 518-523 uses the full
  width and a strip a tenth of the window high, starting `PLAYER_H + 20`
  above the bottom. That strip lies inside the window only when
  59 <= h <= 590; a 600-pixel-high window leaves it 1 pixel below the bottom
  edge (`Game.PlayerRegion`). Only `ShipView` uses 70 %.
- **Up and down keys.** In the game, `dy` is 0 in every case
  (`src/views/game.rs:504-508`), but up and down still count in the diagonal
  test at lines 490-492. Holding one of them slows sideways motion by the
  diagonal factor (`Game.VerticalKeysOnlySlow`).

## Model

| member | source | states |
|---|---|---|
| Geometry.Rectangle.MoveInside | src/phi/data.rs:26-41 | fails exactly when the rectangle is wider or taller than the parent; on success keeps `w` and `h`, lies at or right of/below the parent's origin, and (for `w,h >= 0`) is contained in the parent |
| Geometry.MoveInsideIdempotent | src/phi/data.rs:34-39 | clamping an already clamped rectangle into the same parent returns it unchanged |
| Geometry.MoveInsideKeepsInterior | src/phi/data.rs:34-39 | a rectangle with `x >= parent.x`, `x + w < parent.x + parent.w` (likewise for `y`) is returned unmoved |
| Geometry.MoveInsideExactFit | src/phi/data.rs:27-36 | a rectangle exactly as wide as the parent is pinned to the parent's left edge |
| Geometry.Rectangle.Contains | src/phi/data.rs:43-53 | a rectangle contains another only if it is well formed and at least as wide and as tall. A contained rectangle with positive sides overlaps its container. `ContainsReflexive` and `ContainsTransitive` are its partners |
| Geometry.Rectangle.Overlaps | src/phi/data.rs:55-60 | overlapping rectangles have positive summed widths and summed heights. `OverlapsSymmetric`, `TouchingDoNotOverlap` and `SelfOverlap` are its partners |
| Geometry.OverlapsSymmetric | src/phi/data.rs:55-60 | `a.overlaps(b)` iff `b.overlaps(a)` |
| Geometry.TouchingDoNotOverlap | src/phi/data.rs:55-60 | rectangles that only meet at an edge, or lie further apart, overlap in neither order |
| Geometry.SelfOverlap | src/phi/data.rs:55-60 | a rectangle overlaps itself iff both sides are positive |
| Geometry.ContainsReflexive | src/phi/data.rs:43-53 | a rectangle contains itself iff `w,h >= 0` |
| Geometry.ContainsTransitive | src/phi/data.rs:43-53 | containment composes |
| Geometry.Rectangle.CenterAt | src/views/game.rs:264-265 | the assumed `center_at` keeps the size and puts the centre at the given point |
| Geometry.WithSize | src/views/game.rs:264 | the assumed `with_size` gives a rectangle of that size at the origin |
| Input.ImmediateNew | src/phi/events.rs:16-23 | a fresh snapshot has no resize, no quit and every key's edge `None` |
| Input.Step | src/phi/events.rs:55-91 | one event changes the edge and the held flag of its own key only. After a key event that key is held iff the event was a KeyDown. `quit` ends set iff it was set or the event is the quit event. `PressReleasedKey`, `PressHeldKey`, `ReleaseKey` and `IgnoredEvents` pin each branch |
| Input.Run | src/phi/events.rs:50-93 | the resize entry becomes the output size iff the events include a resize, and is otherwise unchanged. `RunSilentKey`, `RunLastRelease` and `RunQuit` state the key and quit outcomes |
| Input.Pump | src/phi/events.rs:47-94 | after a pump the resize entry is the output size iff the batch held a resize event, and `None` otherwise (the reset at line 48). `PumpSilentKey`, `PumpPressRelease` and `PumpQuit` state the rest |
| Input.Events.constructor | src/phi/events.rs:37-45 | a fresh tracker has an empty snapshot and no key held |
| Input.Events.PumpEvents | src/phi/events.rs:47-94 | `pump` resets the snapshot and then applies the batch event by event; the new state is the pure `Pump` of the old held set and the batch |
| Input.PressReleasedKey | src/phi/events.rs:63-68 | a KeyDown of a released key sets its edge to `Some(true)` and holds it |
| Input.PressHeldKey | src/phi/events.rs:64-68 | a KeyDown of a held key changes nothing (no auto-repeat edge) |
| Input.ReleaseKey | src/phi/events.rs:76-79 | a KeyUp always sets the edge to `Some(false)` and releases the key |
| Input.IgnoredEvents | src/phi/events.rs:60-91 | untracked keycodes, key events without a keycode and other events change nothing |
| Input.RunSilentKey | src/phi/events.rs:50-93 | events about other keys leave a key's edge and held flag alone |
| Input.PumpSilentKey | src/phi/events.rs:47-94 | a key not mentioned in the batch ends the pump with edge `None` and its held flag kept |
| Input.RunLastRelease | src/phi/events.rs:60-82 | if the last event about a key is a release, the pump ends with `Some(false)` and the key released |
| Input.PumpPressRelease | src/phi/events.rs:60-82 | down then up in one batch ends with `Some(false)`, not held |
| Input.RunQuit | src/phi/events.rs:84-88 | `quit` ends up set iff it was set or the batch holds a quit event |
| Input.PumpQuit | src/phi/events.rs:47-88 | after a pump `now.quit` is true exactly when that batch held a quit event |
| Input.HeldAcrossSilentPumps | src/phi/events.rs:47-94 | a held key not mentioned in N pumps shows edge `None` in each and stays held |
| Input.PressThenSilentPumps | src/phi/events.rs:47-94 | one press, then silent pumps: one `Some(true)` on the press frame, `None` afterwards, held throughout |
| Phi.Spawn | src/phi/mod.rs:99-134 | the scheduling loop produces exactly the passes and final state of the pure `Run` over the readings |
| Phi.Start | src/phi/mod.rs:97-103 | the loop starts with `before` and `last_second` at the first two timer readings, `fps = 0`, no key held and the initial view |
| Phi.Iterate | src/phi/mod.rs:105-133 | a pass is delayed iff `now - before < interval`. A delayed pass waits a positive time and leaves the state as it was. A rendered pass sets `before := now` and keeps the held keys of the pump it made. `DelayedPass`, `AcceptedPass` and `FpsWindow` state the rest |
| Phi.Run | src/phi/mod.rs:105-134 | a loop that never quits makes one pass per remaining reading. `RunStopsOnlyOnQuit` states when it stops early |
| Phi.DelayedPass | src/phi/mod.rs:107-113 | a reading less than 16 ms after `before` delays by `interval - dt` and leaves the state untouched; otherwise a frame runs |
| Phi.AcceptedPass | src/phi/mod.rs:107-133 | an accepted frame sets `before := now`, passes `elapsed = dt/1000`, pumps events once before `render`, and takes the `ChangeView` target or the rendered view as the next view |
| Phi.FpsWindow | src/phi/mod.rs:115-122 | the counter goes up by one per accepted frame and is reset to 0 with `last_second := now` only when more than 1000 ms have passed |
| Phi.PacingExample | src/phi/mod.rs:100-113 | with `before = 100`, a reading of 105 waits 11 ms and a reading of 120 renders with 0.02 s elapsed |
| Phi.RunStopsOnlyOnQuit | src/phi/mod.rs:105-134 | the loop stops before the readings run out exactly when the last pass rendered `Quit`, and no earlier pass did |
| Phi.FpsBounded | src/phi/mod.rs:99-122 | with monotone readings the frame counter stays within 63, so the `u16` never overflows |
| Phi.SpawnFpsBounded | src/phi/mod.rs:99-122 | the same bound for the loop as `spawn` starts it |
| Shared.NewBgSet | src/views/shared.rs:55-61 | the back layer starts at `pos = 0`, `vel = 20` |
| Shared.TileX | src/views/shared.rs:31-41 | with a non-negative step no tile edge lies left of the first. `TileXIsLinear` gives its closed form |
| Shared.TileXMonotone | src/views/shared.rs:31-41 | with a non-negative step the tile edges never move left as the loop runs |
| Shared.TileXIsLinear | src/views/shared.rs:31-41 | the accumulated tile edge after `n` steps is `left + n * step` |
| Shared.TilesLeftDecreases | src/views/shared.rs:33-41 | each iteration decreases the termination measure when the step is positive |
| Shared.TileRow | src/views/shared.rs:31-42 | the loop emits tiles at successive steps with `y = 0`, each starting left of `win_w`, and stops at the first edge `>= win_w` |
| Shared.RenderBackground | src/views/shared.rs:16-43 | tiles start at `-pos * scale`, step by `size.0 * scale`, have size `(size.0 * scale, size.1 * scale)` with `scale = win_h / size.1`; `pos` is never changed |
| Shared.TileCountIsLeast | src/views/shared.rs:31-42 | the tile count is the least `n` with `-pos * scale + n * step >= win_w` |
| Bullets.Update | src/views/bullets.rs:66-164 | the model's `update`: a bullet is dropped exactly when its advanced state is culled, and a survivor is the advanced bullet. The clause the source's culling promises is that every survivor's rect has `x <= width`. The per-kind motion is stated by `RectBulletMotion`, `SineBulletUpdate` and `DivergentBulletUpdate`, and `RectBulletNeverLeavesByTheTop` follows a straight bullet over many frames |
| Bullets.Rect | src/views/bullets.rs:91-177 | a straight bullet's hitbox is its stored rect. Sine and divergent bullets have a 4 by 8 hitbox at row `origin_y` |
| Bullets.Advance | src/views/bullets.rs:66-156 | the motion half of `update`. It keeps the bullet's kind and whether its parameters are defined. A straight bullet keeps `x`, `w` and `h`. Sine and divergent bullets keep `pos_x` and their parameters, and add `dt` to `total_time` |
| Bullets.Culled | src/views/bullets.rs:70-163 | a bullet whose hitbox starts right of the window width is culled. A culled straight or sine bullet starts right of the width. A divergent bullet is also culled when it leaves by the other three edges (`DivergentBulletUpdate`) |
| Bullets.SpawnBullets | src/views/bullets.rs:181-239 | exactly one bullet, of the cannon's kind, at `(cannon1_x, cannons_y)`, 4 by 8, with `total_time = 0` and the Divergent `a` negated |
| Bullets.SpawnIgnoresSecondCannon | src/views/bullets.rs:181-239 | `cannon2_x` does not affect the spawned bullets |
| Bullets.UpdateKeepsHitbox | src/views/bullets.rs:91-101 | every bullet's hitbox stays 4 by 8 across updates |
| Bullets.RectBulletMotion | src/views/bullets.rs:154-156 | a straight bullet is lowered in `y` by `600 * dt` with `x`, `w`, `h` unchanged |
| Bullets.RectBulletNeverLeavesByTheTop | src/views/bullets.rs:154-164 | a straight bullet left of the right edge survives any number of frames, moved by `600` times their total time |
| Bullets.SineBulletUpdate | src/views/bullets.rs:106-136 | a sine bullet adds `dt` to `total_time`, lowers `origin_y` by `600 * dt`, and is culled iff its rect `x > width` |
| Bullets.DivergentBulletUpdate | src/views/bullets.rs:66-80 | a divergent bullet adds `dt` to `total_time`, lowers `origin_y` by `300 * dt`, and survives iff its rect corner lies in `[0,w] x [0,h]` |
| Bullets.DivergentBulletReturns | src/views/bullets.rs:91-101 | the divergent rect has `x == pos_x` at `total_time = 0` and at `total_time = b` |
| Views.ShipView.constructor | src/views/mod.rs:28-37 | the ship starts as a 32 by 32 rectangle at (64, 64) |
| Views.ShipView.Render | src/views/mod.rs:44-103 | the ship is clamped into the left 70 % of the window, and the clamp cannot fail. Quit or an Escape edge then returns `Quit`. Otherwise the clamped rect is drawn and then displaced by `(dx, dy)` keeping its size |
| Views.ShipRegion | src/views/mod.rs:48-53 | the left-70 % region is well formed and lies inside the window |
| Views.Moved | src/views/mod.rs:79-85 | the step length is between 0 and `360 * elapsed`, and, for a positive `elapsed`, strictly less on the diagonal |
| Views.Axis | src/views/mod.rs:87-97 | an axis does not move when both or neither of its keys are held, and otherwise moves by plus or minus the step |
| Views.Displacement | src/views/mod.rs:79-97 | each component lies within `360 * elapsed` of 0, and off the diagonal one of them is 0. `DiagonalIffBothAxesMove` and `DiagonalNotFaster` complete it |
| Views.AxisSign | src/views/mod.rs:87-97 | an axis moves forward iff only its plus key is held, backward iff only its minus key, and not at all when both or neither are held |
| Views.AxisAntisymmetric | src/views/mod.rs:87-97 | swapping the two keys of an axis negates the displacement |
| Views.DiagonalIffBothAxesMove | src/views/mod.rs:79-97 | the diagonal factor applies iff exactly one of up/down and one of left/right is held, that is iff both displacements are non-zero |
| Views.DiagonalNotFaster | src/views/mod.rs:79-97 | the displacement's squared length never exceeds `(360 * elapsed)^2` |
| Game.TrumpRect | src/views/game.rs:145-153 | a trump's hitbox is 129.75 by 200 at column `pos_x` |
| Game.RandomTrump | src/views/game.rs:161-182 | a spawned trump is in mid-window (`origin_y = h/2 - 20`), with amplitude 15, angular velocity 10 and its rect at its position |
| Game.RandomTrumpInWindow | src/views/game.rs:165 | for a draw in [0, 1] the spawned trump lies horizontally inside the window |
| Game.TrumpStep | src/views/game.rs:101-130 | a trump is dropped iff its clock plus `dt` reaches 8. Otherwise its clock advances by `dt` and its hitbox and motion parameters are unchanged. A resting trump keeps its frames and stays resting |
| Game.UpdateTrump | src/views/game.rs:101-130 | the update loop, which copies the rest frames one by one, computes `TrumpStep`. `TrumpExpires`, `TrumpRestGate` and `TrumpFramesCutAtMostOnce` state what that step does |
| Game.TrumpExpires | src/views/game.rs:103-107 | the trump is dropped iff its sprite time plus `dt` reaches 8.0 |
| Game.TrumpEntersRest | src/views/game.rs:113-125 | the first update past the rest time cuts a 16-frame sheet to its last 4 frames and marks it resting |
| Game.TrumpRestGate | src/views/game.rs:106-128 | the gate at `0.21500000000000008` s, for a sheet of any length. Below the rest time, a trump that is not resting keeps its whole sheet and stays not resting, its clock advanced by `dt`. The first update at or past it keeps only the frames from index 12 on and marks the trump resting |
| Game.TrumpFramesCutAtMostOnce | src/views/game.rs:101-130 | over any run of frames the frames are either untouched or cut once; a resting trump keeps its frames; position parameters never change |
| Game.ExplosionDurationIs17Over16 | src/views/game.rs:39-42 | the explosion duration is 17/16 s |
| Game.ExplosionUpdate | src/views/game.rs:241-250 | an explosion is dropped iff its age plus `dt` reaches the duration. Otherwise it keeps its rect and frames, and its age and sprite clock advance by `dt` |
| Game.ExplosionLifetime | src/views/game.rs:241-250 | over frames of non-negative length an explosion survives iff its accumulated age stays below 17/16 s, its age being the sum of the frame times |
| Game.AtCenter | src/views/game.rs:259-268 | a new explosion is 96 by 96, centred on the point, with `alive_since = 0` |
| Game.UpdateBullets | src/views/game.rs:308-311 | the update-and-cull pass keeps no more bullets than it had, each inside the right edge |
| Game.StepTrumpsShrinks | src/views/game.rs:313-316 | the trump pass keeps no more trumps than it had, and each one kept is younger than 8 s |
| Game.UpdateExplosions | src/views/game.rs:318-321 | every surviving explosion is younger than the duration |
| Game.Collide | src/views/game.rs:323-361 | every trump is tested against every bullet, dead-marked ones included. A bullet's flag ends true iff no trump overlaps it. The survivors are `Survivors`: exactly the trumps neither shot nor ramming, in order. The explosions are `Booms`: one per dead trump, in order. `player_alive` holds iff no trump overlaps the ship (`ShipSurvives`) |
| Game.ShootAt | src/views/game.rs:333-340 | the inner loop: the trump stays alive iff no bullet overlaps it. Each bullet's flag becomes its old flag and not overlapping, whether or not it was already dead |
| Game.Spent | src/views/game.rs:335-340 | the reference definition of a spent bullet: some tested trump overlaps it. `Collide`'s bullet flags and `KeepAliveIsUnspent` are stated against it. Its own ensures adds only that no bullet is spent when no trump is tested |
| Game.CollisionAccounting | src/views/game.rs:330-357 | `Survivors` plus `Booms` number exactly the trumps tested, so neither has more entries than there were trumps |
| Game.SurvivorsAreUntouched | src/views/game.rs:330-357 | a trump survives iff it was tested and neither a bullet nor the ship overlaps it |
| Game.BoomsComeFromDeadTrumps | src/views/game.rs:347-356 | each explosion is the fresh one centred on some dead trump, and each dead trump has one |
| Game.KeepAliveIsUnspent | src/views/game.rs:359-361 | dropping the dead-flagged bullets leaves exactly the bullets no trump overlapped, in order |
| Game.Unspent | src/views/game.rs:359-361 | the unspent bullets number no more than the bullets |
| Game.KeepAlive | src/views/game.rs:359-361 | `as_option` keeps no more bullets than it had, and keeps all of them when every flag is true |
| Game.OneBulletTwoTrumps | src/views/game.rs:335-340 | one bullet overlapping two spawned-shape trumps (amplitude 15, sine term 0) kills both, leaves two explosions and is itself spent |
| Game.ShotTrumpExplodes | src/views/game.rs:335-356 | a spawned-shape trump (amplitude 15, sine term 0) with a bullet inside it is removed, the bullet too, and one explosion lands on the trump's centre |
| Game.RammingTrumpExplodes | src/views/game.rs:342-356 | a spawned-shape trump (amplitude 15, sine term 0) overlapping the ship dies, leaves one explosion, and `player_alive` ends false |
| Game.Tick | src/views/game.rs:308-361 | bullets, trumps and explosions are updated and culled before the collision pass, so a culled entity is never tested. The trump pass is the `filter_map` of `TrumpStep`, `StepTrumps`, computed by the loop. The result is the collision outcome over the updated collections |
| Game.MovePlayer | src/views/game.rs:510-527 | the moved ship keeps its 43 by 39 size and lies inside its strip |
| Game.Player.constructor | src/views/game.rs:429-439 | the ship starts 43 by 39 at `(64, (h - 39) + 20)`, frame `MidNorm`, straight cannon |
| Game.ChooseCannon | src/views/game.rs:471-487 | a cannon with a non-zero divergence parameter stays so, and with none of 1, 2, 3 pressed the cannon is kept. `CannonPriority` states the choice |
| Game.PlayerDx | src/views/game.rs:490-502 | the sideways step lies within `360 * elapsed` of 0, and is 0 when both or neither sideways key is held |
| Game.PlayerRegion | src/views/game.rs:518-523 | the strip starts at `x = 0` and spans the window's width. It lies inside the window iff `59 <= h <= 590` |
| Game.FrameFor | src/views/game.rs:531-541 | the frame is `MidNorm` iff there is no motion, an Up frame iff `dy < 0`, and a Down frame iff `dy > 0`. `FrameForIndex` gives the index |
| Game.Player.SpawnBullets | src/views/game.rs:462-468 | one bullet, starting at the ship's top edge and horizontal middle |
| Game.Player.Update | src/views/game.rs:470-543 | the keys pick the cannon, the ship moves sideways only and is clamped into its strip, and the frame follows the sign of `dx` |
| Game.CannonPriority | src/views/game.rs:471-487 | of keys 1, 2, 3 pressed in one pump the highest-numbered wins, giving `SineBullet(10, 15)` for 2 and `DivergentBullet(100, 1.2)` for 3; with none pressed the cannon is kept |
| Game.FrameForIndex | src/views/game.rs:531-541 | the chosen frame's index is `3 * row + column` from the signs of `dy` and `dx`, so every displacement gets one of the nine frames |
| Game.PlayerFrameIsMiddleRow | src/views/game.rs:494-541 | the game ship always shows `MidNorm`, `MidFast` or `MidSlow`, by which sideways key alone is held |
| Game.VerticalKeysOnlySlow | src/views/game.rs:490-508 | up/down never move the game ship but scale its sideways step by the diagonal factor |
| Game.GameView.WithBackgrounds | src/views/game.rs:281-293 | a new game has a fresh ship, no bullets, trumps or explosions, and the carried backgrounds |
| Game.GameView.Render | src/views/game.rs:297-402 | quit returns `Quit`, and an Escape edge returns to the menu with the same backgrounds; both leave the state untouched. Otherwise the frame is played and the action is `None` |
| Game.GameView.Play | src/views/game.rs:308-395 | the new state is the collision outcome of the updated collections. Fire adds bullets from the ship before it moved. A spawn draw appends a trump. Last, the ship moves |
| MainMenu.Perform | src/views/main_menu.rs:49-55 | "New Game" opens a game carrying the backgrounds, "Quit" quits |
| MainMenu.MainMenuView.WithBackgrounds | src/views/main_menu.rs:46-61 | the menu has the two entries and selects the top one |
| MainMenu.MainMenuView.Render | src/views/main_menu.rs:66-90 | Quit or Escape returns `Quit` first, and Space or Enter returns the selected entry's action. Otherwise only the Up/Down wraparound moves the selection, and the action is `None` |
| MainMenu.Navigate | src/views/main_menu.rs:75-90 | a selection in `[0, len)` stays in `[0, len)`, so the lookup at line 75 is in bounds |
| MainMenu.NavigateIsModular | src/views/main_menu.rs:78-90 | Up is `(s - 1) mod len`, Down is `(s + 1) mod len` |
| MainMenu.UpDownCancel | src/views/main_menu.rs:78-90 | Up and Down in the same frame leave the selection unchanged |
| MainMenu.NavigateIdle | src/views/main_menu.rs:78-90 | with neither edge the selection is unchanged |
| MainMenu.InitialMenu | src/views/main_menu.rs:48-58 | in the initial menu, entry 0 opens a game and entry 1 quits. Up from 0 wraps to 1, and Down from 1 wraps to 0 |

## Left out

- Audio (`src/phi/audio.rs`): it runs on SDL's audio thread, and its only call site is commented out.
- Rendering is left out: clearing, drawing sprites and rectangles, presenting, and the menu's box and label layout.
- `Rectangle::to_sdl`'s integer casts are left out; only its `w, h >= 0` assertion is kept, as `Rectangle.WellFormed`.
- Asset loading and its panics are left out, including the sprite-sheet slicing in `Player::new`.
- `phi::gfx` is not part of this model. `AnimatedSprite` keeps only its clock, its frames and the `is_resting` flag.
- `add_time` is assumed to add `dt` to the sprite clock; frame selection and `set_fps` are not modelled.
- `Rectangle::with_size`, `center` and `center_at`, and `MaybeAlive` with its `as_option`, are used by the game, which imports `Rectangle` and `MaybeAlive` from `phi::data` (`src/views/game.rs:2`). None of them is defined in `src/phi/data.rs`. The model assumes they behave as their names say; for `as_option`, that it yields the value exactly when `alive` is set (`Game.KeepAlive`).
- Randomness: the `random % 100 == 0` spawn check and the value `TrumpFactory::random` draws become the parameter `draw` of `Game.GameView.Render`. The random sprite frame rate is not modelled.
- Floating-point rounding, NaN and infinities are left out; `real` arithmetic is exact.
- `sin` is an arbitrary function of `Phi.Context`, and `sqrt(2)` appears only as its reciprocal constant.
- A divergent bullet with `b = 0` would divide by zero (NaN in `f64`); the model requires `b != 0`. Every cannon sets `b = 1.2`.
- SDL initialisation and window and renderer creation are left out. So are `timer.delay`, which is a recorded `Delayed` pass, and the FPS and ship-destroyed `println!`.
- Phi.Spawn: the source loops until the view quits. The model also stops when the timer readings run out.
- Phi.Spawn: the views reach the loop only through the `render` parameter. The concrete view classes are not plugged into it, and `ChangeView` carries a `NextView` value instead of a boxed view.
- Phi.FpsBounded: the timer readings are assumed monotone. `u32` wrap-around of `now - before` is not modelled.
- `fps` is an unbounded integer; the bound lemma shows it stays far below the `u16` limit.
- A resize event records the `outputSize` the caller passes, standing in for the renderer query.
- Views.ShipView.Render, Game.Player.Update, Game.MovePlayer, Game.GameView.Render, Game.GameView.Play: `move_inside(...).unwrap()` panics when the ship does not fit its region; the model requires that it fits (`Game.Fits` for the game ship).
- Game.GameView.Render: the menu view built on Escape is described by `Shared.NextView`, not constructed.
- MainMenu.MainMenuView.Render: `selected` is an `i8`. The model requires at most 127 entries, so increments never overflow.
- Shared.RenderBackground: the source loops forever when the scaled tile width is not positive and the first edge `-pos * scale` is left of `win_w`. The second condition holds in the program for any window of positive width, since `pos` stays 0. With a zero-height image, `scale` is infinite or NaN in `f64`, and the loop at `src/views/shared.rs:33` does not run at all. The model requires a positive tile width and a non-zero image height, so neither case is modelled.
- The key set of `struct_events!` in `src/phi/mod.rs` lacks `key_1`, `key_2`, `key_3` and `key_enter`, which the views read; `Input.Key` includes them.
- The `macro_rules!` expansion itself is not modelled; `Input.Events` is written for the fixed key set.
- The unused `Asteroid` and `AsteroidFactory` structs are left out.
- `GameView::new` and `MainMenuView::new` load their backgrounds from an asset; only `with_backgrounds` is modelled.
