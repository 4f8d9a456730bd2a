/** The frame scheduler and view dispatch of `spawn` (src/phi/mod.rs). */
module Phi {
  import Wrappers
  import Input

  /** What the views read from `Phi` besides its events: the renderer's
      output size (unsigned, as `Phi::output_size` converts it) and the sine
      function that entity positions use, given here as a parameter. */
  datatype Context = Context(width: nat, height: nat, sin: real -> real)
  {
    function W(): real { width as real }
    function H(): real { height as real }
  }

  /** What a view asks of the loop after a frame. */
  datatype ViewAction<V> = None | Quit | ChangeView(view: V)

  /** The target frame interval, in milliseconds: integer `1000 / 60`. */
  const Interval: int := 1000 / 60

  /** The frame-timing locals of `spawn`. */
  datatype Clock = Clock(before: int, lastSecond: int, fps: int)

  /** Everything one pass of the loop reads and writes: the clock, the
      current view and the held keys of the event tracker. */
  datatype LoopState<V> = LoopState(clock: Clock, view: V, held: set<Input.Key>)

  /** What one pass over one timer reading did: wait, or run a frame. */
  datatype Pass<V> =
    | Delayed(ms: int)
    | Rendered(elapsed: real, input: Input.Tracker, action: ViewAction<V>)

  /** One pass of the loop body over the timer reading `now`, the `i`-th
      reading, when `poll(i)` is the batch of events queued by then and
      `render` is the current view's `render`. */
  function Iterate<V>(st: LoopState<V>, i: nat, now: int, poll: nat -> seq<Input.Event>,
                      size: (nat, nat), render: (V, Input.Tracker, real) -> (V, ViewAction<V>))
    : (r: (LoopState<V>, Pass<V>))
    ensures r.1.Delayed? <==> now - st.clock.before < Interval
    ensures r.1.Delayed? ==> r.0 == st && r.1.ms > 0
    ensures r.1.Rendered? ==> r.0.clock.before == now && r.0.held == r.1.input.held
  {
    var dt := now - st.clock.before;
    if dt < Interval then
      (st, Delayed(Interval - dt))
    else
      var fps := st.clock.fps + 1;
      var clock :=
        if now - st.clock.lastSecond > 1000 then Clock(now, now, 0)
        else Clock(now, st.clock.lastSecond, fps);
      var input := Input.Pump(st.held, poll(i), size);
      var elapsed := dt as real / 1000.0;
      var (current, action) := render(st.view, input, elapsed);
      var next := if action.ChangeView? then action.view else current;
      (LoopState(clock, next, input.held), Rendered(elapsed, input, action))
  }

  /** The passes over the readings from index `i` on, and the state the
      loop is left in when the readings run out (`None` once it quit). */
  function Run<V>(st: LoopState<V>, readings: seq<int>, i: nat, poll: nat -> seq<Input.Event>,
                  size: (nat, nat), render: (V, Input.Tracker, real) -> (V, ViewAction<V>))
    : (r: (seq<Pass<V>>, Wrappers.Option<LoopState<V>>))
    requires i <= |readings|
    ensures r.1.Some? ==> |r.0| == |readings| - i
    decreases |readings| - i
  {
    if i == |readings| then
      ([], Wrappers.Some(st))
    else
      var (st', p) := Iterate(st, i, readings[i], poll, size, render);
      if p.Rendered? && p.action.Quit? then
        ([p], Wrappers.None)
      else
        var (ps, final) := Run(st', readings, i + 1, poll, size, render);
        ([p] + ps, final)
  }

  /** The loop's starting state: `before` and `last_second` are the first
      two timer readings, no frame counted, no key held. */
  function Start<V>(init: V, readings: seq<int>): (r: LoopState<V>)
    requires |readings| >= 2
    ensures r.clock.before == readings[0] && r.clock.lastSecond == readings[1]
    ensures r.clock.fps == 0 && r.held == {} && r.view == init
  {
    LoopState(Clock(readings[0], readings[1], 0), init, {})
  }

  /** `spawn` after the SDL set-up: `readings` are the successive values of
      `timer.ticks()`, `init` is the first view. The source loops until the
      view quits; here the loop also stops when the readings run out. */
  method Spawn<V>(init: V, readings: seq<int>, poll: nat -> seq<Input.Event>, size: (nat, nat),
                  render: (V, Input.Tracker, real) -> (V, ViewAction<V>))
    returns (passes: seq<Pass<V>>, final: Wrappers.Option<LoopState<V>>)
    requires |readings| >= 2
    ensures (passes, final) == Run(Start(init, readings), readings, 2, poll, size, render)
  {
    var events := new Input.Events();
    var before := readings[0];
    var lastSecond := readings[1];
    var fps := 0;
    var view := init;
    passes := [];
    var i := 2;
    assert passes + Run(Start(init, readings), readings, 2, poll, size, render).0
        == Run(Start(init, readings), readings, 2, poll, size, render).0;
    while i < |readings|
      invariant 2 <= i <= |readings|
      invariant Run(Start(init, readings), readings, 2, poll, size, render)
        == (passes + Run(LoopState(Clock(before, lastSecond, fps), view, events.held), readings, i, poll, size, render).0,
            Run(LoopState(Clock(before, lastSecond, fps), view, events.held), readings, i, poll, size, render).1)
      decreases |readings| - i
    {
      ghost var done := passes;
      ghost var cur := LoopState(Clock(before, lastSecond, fps), view, events.held);
      ghost var step := Iterate(cur, i, readings[i], poll, size, render);
      var now := readings[i];
      var dt := now - before;
      var elapsed := dt as real / 1000.0;
      if dt < Interval {
        // timer.delay(interval - dt)
        passes := passes + [Delayed(Interval - dt)];
        i := i + 1;
        ghost var rest := Run(step.0, readings, i, poll, size, render);
        assert passes + rest.0 == done + ([step.1] + rest.0);
        continue;
      }
      before := now;
      fps := fps + 1;
      if now - lastSecond > 1000 {
        lastSecond := now;
        fps := 0;
      }
      events.PumpEvents(poll(i), size);
      var input := events.State();
      var (current, action) := render(view, input, elapsed);
      passes := passes + [Rendered(elapsed, input, action)];
      match action {
        case None =>
          view := current;
        case Quit =>
          final := Wrappers.None;
          assert Run(cur, readings, i, poll, size, render) == ([step.1], Wrappers.None);
          return;
        case ChangeView(next) =>
          view := next;
      }
      i := i + 1;
      assert step.0 == LoopState(Clock(before, lastSecond, fps), view, events.held);
      ghost var rest := Run(step.0, readings, i, poll, size, render);
      assert passes + rest.0 == done + ([step.1] + rest.0);
    }
    final := Wrappers.Some(LoopState(Clock(before, lastSecond, fps), view, events.held));
    assert passes + [] == passes;
  }

  // ---------------------------------------------------------------------
  // One pass

  /** A reading less than one interval after `before` only delays, by the
      rest of the interval, and leaves the state untouched. */
  lemma DelayedPass<V>(st: LoopState<V>, i: nat, now: int, poll: nat -> seq<Input.Event>,
                       size: (nat, nat), render: (V, Input.Tracker, real) -> (V, ViewAction<V>))
    ensures var (st', p) := Iterate(st, i, now, poll, size, render);
      && (p.Delayed? <==> now - st.clock.before < Interval)
      && (p.Delayed? ==> st' == st && p.ms == Interval - (now - st.clock.before))
      && (p.Delayed? && st.clock.before <= now ==> 0 < p.ms <= Interval)
  {
  }

  /** An accepted frame: `before` becomes the reading, the view gets the
      measured delta in seconds, events are pumped once, before `render`,
      and the action decides the next view. */
  lemma AcceptedPass<V>(st: LoopState<V>, i: nat, now: int, poll: nat -> seq<Input.Event>,
                        size: (nat, nat), render: (V, Input.Tracker, real) -> (V, ViewAction<V>))
    requires now - st.clock.before >= Interval
    ensures var (st', p) := Iterate(st, i, now, poll, size, render);
      && p.Rendered?
      && st'.clock.before == now
      && p.elapsed == (now - st.clock.before) as real / 1000.0
      && p.input == Input.Pump(st.held, poll(i), size)
      && st'.held == p.input.held
      && render(st.view, p.input, p.elapsed).1 == p.action
      && (p.action.ChangeView? ==> st'.view == p.action.view)
      && (!p.action.ChangeView? ==> st'.view == render(st.view, p.input, p.elapsed).0)
  {
  }

  /** The frame counter: one more per accepted frame, reset to 0 together
      with `last_second` only when more than a second has gone by. */
  lemma FpsWindow<V>(st: LoopState<V>, i: nat, now: int, poll: nat -> seq<Input.Event>,
                     size: (nat, nat), render: (V, Input.Tracker, real) -> (V, ViewAction<V>))
    requires now - st.clock.before >= Interval
    ensures var st' := Iterate(st, i, now, poll, size, render).0;
      if now - st.clock.lastSecond > 1000 then st'.clock.fps == 0 && st'.clock.lastSecond == now
      else st'.clock.fps == st.clock.fps + 1 && st'.clock.lastSecond == st.clock.lastSecond
  {
  }

  /** With a 16 ms interval: 5 ms after `before` the loop waits 11 ms;
      20 ms after, it runs one frame with 0.02 s elapsed. */
  lemma PacingExample<V>(st: LoopState<V>, poll: nat -> seq<Input.Event>, size: (nat, nat),
                         render: (V, Input.Tracker, real) -> (V, ViewAction<V>))
    requires st.clock.before == 100
    ensures Iterate(st, 0, 105, poll, size, render) == (st, Delayed(11))
    ensures Iterate(st, 0, 120, poll, size, render).1.Rendered?
    ensures Iterate(st, 0, 120, poll, size, render).1.elapsed == 0.02
  {
  }

  // ---------------------------------------------------------------------
  // The whole loop

  /** The loop stops early only through `Quit`: it has stopped exactly when
      the last pass rendered a frame whose action was `Quit`, and no earlier
      pass did. */
  lemma {:induction false} RunStopsOnlyOnQuit<V>(st: LoopState<V>, readings: seq<int>, i: nat,
                                                 poll: nat -> seq<Input.Event>, size: (nat, nat),
                                                 render: (V, Input.Tracker, real) -> (V, ViewAction<V>))
    requires i <= |readings|
    ensures var (ps, final) := Run(st, readings, i, poll, size, render);
      && |ps| <= |readings| - i
      && (final.None? <==> |ps| > 0 && ps[|ps| - 1].Rendered? && ps[|ps| - 1].action.Quit?)
      && (final.Some? ==> |ps| == |readings| - i)
      && forall j :: 0 <= j < |ps| - 1 ==> !(ps[j].Rendered? && ps[j].action.Quit?)
    decreases |readings| - i
  {
    if i < |readings| {
      var (st', p) := Iterate(st, i, readings[i], poll, size, render);
      if !(p.Rendered? && p.action.Quit?) {
        RunStopsOnlyOnQuit(st', readings, i + 1, poll, size, render);
        var (ps, final) := Run(st', readings, i + 1, poll, size, render);
        assert Run(st, readings, i, poll, size, render) == ([p] + ps, final);
      }
    }
  }

  /** What the clock keeps between frames: the count of frames since the
      last reset, each at least one interval after the one before, within a
      second of `last_second`. */
  ghost predicate ClockInvariant(c: Clock) {
    && 0 <= c.fps
    && (c.fps > 0 ==> Interval * (c.fps - 1) <= c.before - c.lastSecond <= 1000)
  }

  /** With monotone readings the frame counter never exceeds 63, so the
      `u16` in the source cannot overflow. */
  lemma {:induction false} FpsBounded<V>(st: LoopState<V>, readings: seq<int>, i: nat,
                                         poll: nat -> seq<Input.Event>, size: (nat, nat),
                                         render: (V, Input.Tracker, real) -> (V, ViewAction<V>))
    requires i <= |readings|
    requires ClockInvariant(st.clock)
    requires forall j :: i <= j < |readings| ==> st.clock.before <= readings[j] && st.clock.lastSecond <= readings[j]
    requires forall j, k :: i <= j <= k < |readings| ==> readings[j] <= readings[k]
    ensures var final := Run(st, readings, i, poll, size, render).1;
      final.Some? ==> ClockInvariant(final.value.clock) && final.value.clock.fps <= 63
    decreases |readings| - i
  {
    if i < |readings| {
      var (st', p) := Iterate(st, i, readings[i], poll, size, render);
      if !(p.Rendered? && p.action.Quit?) {
        assert ClockInvariant(st'.clock);
        assert st'.clock.before == st.clock.before || st'.clock.before == readings[i];
        assert st'.clock.lastSecond == st.clock.lastSecond || st'.clock.lastSecond == readings[i];
        FpsBounded(st', readings, i + 1, poll, size, render);
        var (ps, final) := Run(st', readings, i + 1, poll, size, render);
        assert Run(st, readings, i, poll, size, render).1 == final;
      }
    } else {
      var c := st.clock;
      assert c.fps > 0 ==> Interval * (c.fps - 1) <= 1000;
    }
  }

  /** The counter bound holds for the loop as `spawn` starts it. */
  lemma SpawnFpsBounded<V>(init: V, readings: seq<int>, poll: nat -> seq<Input.Event>, size: (nat, nat),
                           render: (V, Input.Tracker, real) -> (V, ViewAction<V>))
    requires |readings| >= 2
    requires forall j, k :: 0 <= j <= k < |readings| ==> readings[j] <= readings[k]
    ensures var final := Run(Start(init, readings), readings, 2, poll, size, render).1;
      final.Some? ==> final.value.clock.fps <= 63
  {
    FpsBounded(Start(init, readings), readings, 2, poll, size, render);
  }
}
