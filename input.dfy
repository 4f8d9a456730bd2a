/** The input tracker that `struct_events!` generates (src/phi/events.rs),
    for the key set of src/phi/mod.rs plus the keys the views read. */
module Input {
  import opened Wrappers

  /** The logical keys. `Num1`, `Num2`, `Num3` and `Enter` are read by the
      views (`key_1`, `key_2`, `key_3`, `key_enter`) but are missing from the
      macro invocation; they are tracked here like the others. */
  datatype Key = Escape | Up | Down | Left | Right | Space | Num1 | Num2 | Num3 | Enter

  /** An SDL keycode: one that names a tracked key, or any other. */
  datatype Keycode = Tracked(key: Key) | Untracked(code: int)

  /** The raw events the pump distinguishes. */
  datatype Event =
    | WindowResized
    | KeyDown(keycode: Option<Keycode>)
    | KeyUp(keycode: Option<Keycode>)
    | QuitEvent
    | OtherEvent

  /** `ImmediateEvents`: what happened during one pump. A key absent from
      `edges` has the entry `None`; `edges[k]` is the `Some` payload. */
  datatype Immediate = Immediate(resize: Option<(nat, nat)>, edges: map<Key, bool>, quit: bool)
  {
    function Edge(k: Key): Option<bool> {
      if k in edges then Some(edges[k]) else None
    }

    /** The views' test `now.key_<k> == Some(true)`: pressed during this pump. */
    predicate Pressed(k: Key) {
      Edge(k) == Some(true)
    }
  }

  /** `ImmediateEvents::new`: no resize, no edge, no quit. */
  function ImmediateNew(): (r: Immediate)
    ensures r.resize == None && !r.quit
    ensures forall k: Key :: r.Edge(k) == None
  {
    Immediate(None, map[], false)
  }

  /** The whole observable state of an `Events`: this pump's snapshot and the
      set of keys held down. */
  datatype Tracker = Tracker(now: Immediate, held: set<Key>)

  /** The key an event is about, if it is a key event for a tracked key. */
  function KeyOf(e: Event): Option<Key> {
    match e
    case KeyDown(Some(Tracked(k))) => Some(k)
    case KeyUp(Some(Tracked(k))) => Some(k)
    case _ => None
  }

  /** The effect of one polled event; `outputSize` is what the renderer
      reports when a resize is seen. */
  function Step(t: Tracker, e: Event, outputSize: (nat, nat)): (r: Tracker)
    ensures forall k: Key :: KeyOf(e) != Some(k) ==>
      r.now.Edge(k) == t.now.Edge(k) && (k in r.held <==> k in t.held)
    ensures KeyOf(e).Some? ==> (KeyOf(e).value in r.held <==> e.KeyDown?)
    ensures r.now.quit <==> t.now.quit || e == QuitEvent
  {
    match e
    case WindowResized =>
      t.(now := t.now.(resize := Some(outputSize)))
    case KeyDown(Some(Tracked(k))) =>
      Tracker(if k !in t.held then t.now.(edges := t.now.edges[k := true]) else t.now,
              t.held + {k})
    case KeyUp(Some(Tracked(k))) =>
      Tracker(t.now.(edges := t.now.edges[k := false]), t.held - {k})
    case QuitEvent =>
      t.(now := t.now.(quit := true))
    case _ =>
      t
  }

  /** The effect of the events `es`, in order. */
  function Run(t: Tracker, es: seq<Event>, outputSize: (nat, nat)): (r: Tracker)
    ensures r.now.resize == (if WindowResized in es then Some(outputSize) else t.now.resize)
    decreases |es|
  {
    if es == [] then t
    else
      assert es == [es[0]] + es[1..];
      Run(Step(t, es[0], outputSize), es[1..], outputSize)
  }

  /** One pump: a fresh snapshot, the persistent held set, then the batch. */
  function Pump(held: set<Key>, batch: seq<Event>, outputSize: (nat, nat)): (r: Tracker)
    ensures r.now.resize == (if WindowResized in batch then Some(outputSize) else None)
  {
    Run(Tracker(ImmediateNew(), held), batch, outputSize)
  }

  /** The snapshots and held sets after each of several pumps in a row. */
  function PumpEach(held: set<Key>, batches: seq<seq<Event>>, outputSize: (nat, nat)): seq<Tracker>
    decreases |batches|
  {
    if batches == [] then []
    else
      var t := Pump(held, batches[0], outputSize);
      [t] + PumpEach(t.held, batches[1..], outputSize)
  }

  /** `Events`: the snapshot `now` and the level-triggered held keys. */
  class Events {
    var now: Immediate
    var held: set<Key>

    function State(): Tracker
      reads this
    {
      Tracker(now, held)
    }

    /** `Events::new`: every key starts released. */
    constructor ()
      ensures now == ImmediateNew() && held == {}
    {
      now := ImmediateNew();
      held := {};
    }

    /** `Events::pump`: reset the snapshot, then apply every polled event. */
    method PumpEvents(batch: seq<Event>, outputSize: (nat, nat))
      modifies this
      ensures State() == Pump(old(held), batch, outputSize)
    {
      now := ImmediateNew();
      var i := 0;
      while i < |batch|
        invariant 0 <= i <= |batch|
        invariant Run(State(), batch[i..], outputSize) == Pump(old(held), batch, outputSize)
      {
        var event := batch[i];
        assert batch[i..] == [event] + batch[i + 1..];
        match event {
          case WindowResized =>
            now := now.(resize := Some(outputSize));
          case KeyDown(Some(Tracked(k))) =>
            if k !in held {
              now := now.(edges := now.edges[k := true]);
            }
            held := held + {k};
          case KeyUp(Some(Tracked(k))) =>
            now := now.(edges := now.edges[k := false]);
            held := held - {k};
          case QuitEvent =>
            now := now.(quit := true);
          case _ =>
        }
        i := i + 1;
      }
    }
  }

  // ---------------------------------------------------------------------
  // One event

  /** A press of a released key is an edge `Some(true)` and holds the key. */
  lemma PressReleasedKey(t: Tracker, k: Key, size: (nat, nat))
    requires k !in t.held
    ensures var t' := Step(t, KeyDown(Some(Tracked(k))), size);
      t'.now.Edge(k) == Some(true) && k in t'.held
  {
  }

  /** A repeated press of a held key changes nothing (no auto-repeat edge). */
  lemma PressHeldKey(t: Tracker, k: Key, size: (nat, nat))
    requires k in t.held
    ensures Step(t, KeyDown(Some(Tracked(k))), size) == t
  {
  }

  /** A release is always an edge `Some(false)` and releases the key. */
  lemma ReleaseKey(t: Tracker, k: Key, size: (nat, nat))
    ensures var t' := Step(t, KeyUp(Some(Tracked(k))), size);
      t'.now.Edge(k) == Some(false) && k !in t'.held
  {
  }

  /** Keycodes the tracker does not know, key events without a keycode and
      other events change nothing. */
  lemma IgnoredEvents(t: Tracker, code: int, size: (nat, nat))
    ensures Step(t, KeyDown(Some(Untracked(code))), size) == t
    ensures Step(t, KeyUp(Some(Untracked(code))), size) == t
    ensures Step(t, KeyDown(None), size) == t
    ensures Step(t, KeyUp(None), size) == t
    ensures Step(t, OtherEvent, size) == t
  {
  }

  // ---------------------------------------------------------------------
  // Batches

  /** Events about other keys leave a key's edge and held state alone. */
  lemma {:induction false} RunSilentKey(t: Tracker, es: seq<Event>, k: Key, size: (nat, nat))
    requires forall i :: 0 <= i < |es| ==> KeyOf(es[i]) != Some(k)
    ensures Run(t, es, size).now.Edge(k) == t.now.Edge(k)
    ensures k in Run(t, es, size).held <==> k in t.held
    decreases |es|
  {
    if es != [] {
      RunSilentKey(Step(t, es[0], size), es[1..], k, size);
    }
  }

  /** A key no event of the batch mentions keeps its held value and ends the
      pump with edge `None`. */
  lemma PumpSilentKey(held: set<Key>, es: seq<Event>, k: Key, size: (nat, nat))
    requires forall i :: 0 <= i < |es| ==> KeyOf(es[i]) != Some(k)
    ensures Pump(held, es, size).now.Edge(k) == None
    ensures k in Pump(held, es, size).held <==> k in held
  {
    RunSilentKey(Tracker(ImmediateNew(), held), es, k, size);
  }

  /** When the last event about `k` in a batch is a release, the pump ends
      with edge `Some(false)` and `k` released, whatever came before. */
  lemma {:induction false} RunLastRelease(t: Tracker, es: seq<Event>, i: nat, k: Key, size: (nat, nat))
    requires i < |es| && es[i] == KeyUp(Some(Tracked(k)))
    requires forall j :: i < j < |es| ==> KeyOf(es[j]) != Some(k)
    ensures Run(t, es, size).now.Edge(k) == Some(false) && k !in Run(t, es, size).held
    decreases |es|
  {
    if i == 0 {
      RunSilentKey(Step(t, es[0], size), es[1..], k, size);
    } else {
      RunLastRelease(Step(t, es[0], size), es[1..], i - 1, k, size);
    }
  }

  /** Down then up in one batch: edge `Some(false)`, not held. */
  lemma PumpPressRelease(held: set<Key>, k: Key, size: (nat, nat))
    ensures var t := Pump(held, [KeyDown(Some(Tracked(k))), KeyUp(Some(Tracked(k)))], size);
      t.now.Edge(k) == Some(false) && k !in t.held
  {
    RunLastRelease(Tracker(ImmediateNew(), held),
                   [KeyDown(Some(Tracked(k))), KeyUp(Some(Tracked(k)))], 1, k, size);
  }

  /** `quit` is set by the pump exactly when a quit event was polled in it. */
  lemma {:induction false} RunQuit(t: Tracker, es: seq<Event>, size: (nat, nat))
    ensures Run(t, es, size).now.quit <==> t.now.quit || QuitEvent in es
    decreases |es|
  {
    if es != [] {
      RunQuit(Step(t, es[0], size), es[1..], size);
      assert QuitEvent in es <==> es[0] == QuitEvent || QuitEvent in es[1..] by {
        assert es == [es[0]] + es[1..];
      }
    }
  }

  lemma PumpQuit(held: set<Key>, es: seq<Event>, size: (nat, nat))
    ensures Pump(held, es, size).now.quit <==> QuitEvent in es
  {
    RunQuit(Tracker(ImmediateNew(), held), es, size);
  }

  /** A key held and not mentioned in any of several pumps stays held and
      shows edge `None` in every one of them. */
  lemma {:induction false} HeldAcrossSilentPumps(held: set<Key>, batches: seq<seq<Event>>, k: Key, size: (nat, nat))
    requires k in held
    requires forall b, i :: 0 <= b < |batches| && 0 <= i < |batches[b]| ==> KeyOf(batches[b][i]) != Some(k)
    ensures |PumpEach(held, batches, size)| == |batches|
    ensures forall b :: 0 <= b < |batches| ==>
      PumpEach(held, batches, size)[b].now.Edge(k) == None && k in PumpEach(held, batches, size)[b].held
    decreases |batches|
  {
    if batches != [] {
      PumpSilentKey(held, batches[0], k, size);
      HeldAcrossSilentPumps(Pump(held, batches[0], size).held, batches[1..], k, size);
    }
  }

  /** A single press followed by silent pumps: exactly one `Some(true)`, on the
      press frame, and `None` on every later one, the key held throughout. */
  lemma PressThenSilentPumps(held: set<Key>, rest: seq<seq<Event>>, k: Key, size: (nat, nat))
    requires k !in held
    requires forall b, i :: 0 <= b < |rest| && 0 <= i < |rest[b]| ==> KeyOf(rest[b][i]) != Some(k)
    ensures var ts := PumpEach(held, [[KeyDown(Some(Tracked(k)))]] + rest, size);
      && |ts| == 1 + |rest|
      && ts[0].now.Edge(k) == Some(true) && k in ts[0].held
      && forall b :: 1 <= b < |ts| ==> ts[b].now.Edge(k) == None && k in ts[b].held
  {
    var batches := [[KeyDown(Some(Tracked(k)))]] + rest;
    assert batches[1..] == rest;
    var t0 := Pump(held, batches[0], size);
    assert batches[0] == [KeyDown(Some(Tracked(k)))];
    var press := KeyDown(Some(Tracked(k)));
    var t1 := Step(Tracker(ImmediateNew(), held), press, size);
    assert batches[0][1..] == [];
    assert Run(t1, [], size) == t1;
    assert t0 == Run(t1, batches[0][1..], size);
    assert t0 == Step(Tracker(ImmediateNew(), held), KeyDown(Some(Tracked(k))), size);
    HeldAcrossSilentPumps(t0.held, rest, k, size);
  }
}
