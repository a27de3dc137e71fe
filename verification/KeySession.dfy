/**
 The whole key path: a raw key event passes the routing guard, the arbiter and
 the router. Every session is a run of the key machine, so its theorems apply.
 */
module KeySession {
  import opened KeyTypes
  import opened KeySpec
  import opened KeyTrace
  import opened KeyShape
  import opened KeySafety
  import opened KeyRuns
  import opened ArbiterSpec

  /** A raw key event with what the environment says about it. */
  datatype KeyInput = KeyInput(
    pressed: bool, key: nat, keysym: nat, unicode: nat, time: nat,
    xkb: Mods, focused: bool, failSafe: bool)

  function Orphans(events: seq<KeyEvent>): seq<Step> {
    if events == [] then []
    else
      var n := |events| - 1;
      Orphans(events[..n]) + if events[n].isPress then [] else [Orphan(events[n])]
  }

  function StepsOfAct(act: Act): seq<Step> {
    match act
    case Pass(e) => [Deliver(e)]
    case Swallow(events) => Orphans(events) + [SwitchEngine]
  }

  function StepsOf(acts: seq<Act>): seq<Step> {
    if acts == [] then [] else StepsOf(acts[..|acts| - 1]) + StepsOfAct(acts[|acts| - 1])
  }

  /** The key event the arbiter sees, with the modifiers before and after this key. */
  function ArrivalOf(s: State, x: KeyInput): Arrival
    requires s.grab.Some?
  {
    var physical := s.grab.value.physical;
    Arrival(KeyEvent(x.pressed, x.key, x.keysym, EffectiveMods(physical, x.xkb, s.owned, x.keysym, x.pressed),
                     x.unicode, x.time),
            WithKey(physical, x.keysym, x.pressed), s.shortcuts.switchEngine.mods)
  }

  /** Accepted by the routing guard. */
  predicate Allowed(s: State, x: KeyInput) {
    s.phase == Active && x.focused
  }

  /** on_key: the key-machine steps it takes and the arbiter it leaves. */
  function KeySteps(s: State, a: Arb, x: KeyInput): (seq<Step>, Arb)
    requires s.grab.Some?
  {
    var arrival := ArrivalOf(s, x);
    if !s.grab.value.xkbLoaded then ([], a)
    else if x.pressed && ReservedAction(s.shortcuts, x.keysym, arrival.e.mods) == EmergencyExit then
      ([EarlyExit(x.key)], a)
    else if !Allowed(s, x) then ([Reject(x.key, x.pressed, x.failSafe)], a)
    else
      var r := ArbStep(a, arrival);
      ([SetPhysical(arrival.phys)] + StepsOf(r.1), r.0)
  }

  function OnKey(w: World, s: State, a: Arb, x: KeyInput): (State, Arb)
    requires s.grab.Some?
  {
    var r := KeySteps(s, a, x);
    (Run(w, s, r.0), r.1)
  }

  lemma {:induction false} RunAppend(w: World, s: State, a: seq<Step>, b: seq<Step>)
    ensures Run(w, s, a + b) == Run(w, Run(w, s, a), b)
  {
    hide Apply;
    if b == [] {
      assert a + b == a;
    } else {
      var n := |b| - 1;
      RunAppend(w, s, a, b[..n]);
      assert (a + b)[..|a| + n] == a + b[..n];
    }
  }

  lemma RunOne(w: World, s: State, m: Step)
    ensures Run(w, s, [m]) == Apply(w, s, m) && Run(w, s, []) == s
  {
    assert [m][..0] == [];
    assert Run(w, s, []) == s;
  }

  lemma RunAfter(w: World, s: State, m: Step, rest: seq<Step>)
    ensures Run(w, s, [m] + rest) == Run(w, Apply(w, s, m), rest)
    ensures Run(w, s, [m]) == Apply(w, s, m)
  {
    hide Apply, Run;
    RunAppend(w, s, [m], rest);
    RunOne(w, s, m);
  }

  // ---- sessions ----

  /** The daemon's inputs: raw keys, and every other step of the key machine. */
  datatype Input = Key(x: KeyInput) | Other(m: Step)

  /** Deliveries and consumed chords come from the arbiter only. */
  predicate FromOutside(m: Step) {
    !m.Deliver? && !m.Orphan? && !m.SwitchEngine? && !m.SetPhysical? && !m.Reject? && !m.EarlyExit?
  }

  /** A session so far; `held` are the keys whose raw press came since the last boundary and whose raw
      release has not. */
  datatype Session = Session(s: State, a: Arb, steps: seq<Step>, held: set<nat>)

  function RawHeld(held: set<nat>, x: KeyInput): set<nat> {
    if x.pressed then held + {x.key} else held - {x.key}
  }

  /** A boundary destroys the keyboard and with it whatever its arbiter was holding back. */
  function SessionStep(w: World, t: Session, i: Input): Session {
    match i
    case Key(x) =>
      if t.s.grab.None? then t
      else
        var r := KeySteps(t.s, t.a, x);
        Session(Run(w, t.s, r.0), r.1, t.steps + r.0, RawHeld(t.held, x))
    case Other(m) =>
      if FromOutside(m) then
        Session(Apply(w, t.s, m), if IsBoundary(m) then IDLE else t.a, t.steps + [m],
                if IsBoundary(m) then {} else t.held)
      else t
  }

  function RunSession(w: World, s: State, inputs: seq<Input>): Session {
    if inputs == [] then Session(s, IDLE, [], {})
    else SessionStep(w, RunSession(w, s, inputs[..|inputs| - 1]), inputs[|inputs| - 1])
  }

  /** Every session is the key-machine run of the steps it recorded, and its arbiter is well formed:
      so coverage, pairing, the fence and the guard accounting hold of whole sessions. */
  lemma {:induction false} SessionIsRun(w: World, s: State, inputs: seq<Input>)
    ensures var t := RunSession(w, s, inputs);
            t.s == Run(w, s, t.steps) && ArbOk(t.a)
  {
    hide Apply, ArbStep, StepsOf, ArrivalOf, Run;
    if inputs == [] {
      RunOne(w, s, Dispatched);
    } else {
      var n := |inputs| - 1;
      var t := RunSession(w, s, inputs[..n]);
      SessionIsRun(w, s, inputs[..n]);
      match inputs[n]
      case Key(x) =>
        if t.s.grab.Some? {
          RunAppend(w, s, t.steps, KeySteps(t.s, t.a, x).0);
          StepConserves(t.a, ArrivalOf(t.s, x), []);
        }
      case Other(m) =>
        RunAppend(w, s, t.steps, [m]);
        RunOne(w, t.s, m);
    }
  }

  /** No stuck key, for sessions: if the steps of a session alternate at the router, its keys are
      covered throughout exactly when none of its steps is exceptional. */
  lemma SessionNoStuckKey(w: World, s: State, inputs: seq<Input>)
    requires Initial(s) && OrderlyRun(w, s, RunSession(w, s, inputs).steps)
    ensures var t := RunSession(w, s, inputs);
            && (AlwaysCovered(w, s, t.steps) <==>
                forall i :: 0 <= i < |t.steps| ==> !Exceptional(w, At(w, s, t.steps, i), t.steps[i]))
            && (AlwaysCovered(w, s, t.steps) ==> Covered(t.s))
  {
    hide Exceptional, Run, Covered;
    var t := RunSession(w, s, inputs);
    SessionIsRun(w, s, inputs);
    NoStuckKey(w, s, t.steps);
    assert t.steps[..|t.steps|] == t.steps;
    assert At(w, s, t.steps, |t.steps|) == t.s;
  }

  // ---- a consumed chord ----

  /** The forwarded keys released inside the chord, each once, in order of their first release. */
  function Settled(track: seq<Track>, events: seq<KeyEvent>): seq<nat> {
    if events == [] then []
    else
      var n := |events| - 1;
      var before := Settled(track, events[..n]);
      var e := events[n];
      if !e.isPress && e.key < |track| && track[e.key] == Forwarded && e.key !in before then before + [e.key]
      else before
  }

  lemma {:induction false} SettledMeans(track: seq<Track>, events: seq<KeyEvent>)
    ensures var ks := Settled(track, events);
            && (forall i, j :: 0 <= i < j < |ks| ==> ks[i] != ks[j])
            && (forall k: nat :: k in ks <==>
                  k < |track| && track[k] == Forwarded &&
                  exists i :: 0 <= i < |events| && !events[i].isPress && events[i].key == k)
  {
    if events != [] {
      var n := |events| - 1;
      SettledMeans(track, events[..n]);
      var before := Settled(track, events[..n]);
      forall k | k in Settled(track, events)
        ensures exists i :: 0 <= i < |events| && !events[i].isPress && events[i].key == k
      {
        if k in before {
          var i :| 0 <= i < n && !events[..n][i].isPress && events[..n][i].key == k;
          assert events[i].key == k;
        } else {
          assert events[n].key == k;
        }
      }
      forall k, i |
        0 <= i < |events| && !events[i].isPress && events[i].key == k && k < |track| && track[k] == Forwarded
        ensures k in Settled(track, events)
      {
        if i < n {
          assert events[..n][i].key == k;
        }
      }
    }
  }

  function WireReleases(ks: seq<nat>): Log {
    seq(|ks|, i requires 0 <= i < |ks| => WireKey(ks[i], false))
  }

  /** What swallowing leaves behind: the settled keys idle, everything else as it was. */
  ghost predicate SwallowEffect(s: State, events: seq<KeyEvent>, r: State) {
    var ks := Settled(s.track, events);
    && r.grab.Some? && |r.track| == |s.track| && |r.gens| == |s.gens|
    && (VkUsable(r) <==> VkUsable(s))
    && KeyWire(r.log) == KeyWire(s.log) + (if VkUsable(s) then WireReleases(ks) else [])
    && (forall k: nat :: TrackOf(r, k) == if k in ks then Idle else TrackOf(s, k))
    && (forall k: nat :: GenerationOf(r, k) == if k in ks then 0 else GenerationOf(s, k))
    && (forall k: nat :: k in AppDown(r.log) <==> k in AppDown(s.log) && !(k in ks && VkUsable(s)))
  }

  /** One release event of a swallowed chord. */
  lemma OneOrphan(s: State, e: KeyEvent)
    requires s.grab.Some? && |s.track| == |s.gens|
    ensures var r := OrphanRelease(s, e);
            && TrackOf(s, e.key) != Forwarded ==> r == s
    ensures var r := OrphanRelease(s, e);
            TrackOf(s, e.key) == Forwarded ==>
              && r.grab.Some? && |r.track| == |s.track| && |r.gens| == |s.gens| && (VkUsable(r) <==> VkUsable(s))
              && KeyWire(r.log) == KeyWire(s.log) + (if VkUsable(s) then [WireKey(e.key, false)] else [])
              && AppDown(r.log) == AppDown(s.log) - (if VkUsable(s) then {e.key} else {})
              && r.track == s.track[e.key := Idle] && r.gens == s.gens[e.key := 0]
  {
    hide Send, AppDown, Entitled, RouterHeld, KeyWire, Paired;
    SendFrame(s, WireKey(e.key, false));
  }

  /** The swallowed chord, whole: every forwarded key with a release inside it gets exactly one
      release on the wire (if the keyboard is usable) and ends idle with generation 0; nothing else
      is sent, and no other key moves. */
  lemma {:induction false} SwallowSettles(w: World, s: State, events: seq<KeyEvent>)
    requires s.grab.Some? && |s.track| == |s.gens|
    ensures SwallowEffect(s, events, Run(w, s, Orphans(events)))
  {
    hide OrphanRelease, VkUsable, TrackOf, GenerationOf, SwallowEffect;
    if events == [] {
      SwallowNothing(w, s);
    } else {
      var n := |events| - 1;
      var before := Run(w, s, Orphans(events[..n]));
      SwallowSettles(w, s, events[..n]);
      if events[n].isPress {
        assert Orphans(events[..n]) + [] == Orphans(events[..n]);
        SwallowPress(s, events, before);
      } else {
        RunAppend(w, s, Orphans(events[..n]), [Orphan(events[n])]);
        RunOne(w, before, Orphan(events[n]));
        assert before.grab.Some? && |before.track| == |before.gens| by { SwallowSizes(s, events[..n], before); }
        SwallowRelease(s, events, before);
      }
    }
  }

  lemma SwallowNothing(w: World, s: State)
    requires s.grab.Some?
    ensures SwallowEffect(s, [], Run(w, s, Orphans([])))
  {
    assert KeyWire(s.log) + [] == KeyWire(s.log);
  }

  lemma SwallowSizes(s: State, events: seq<KeyEvent>, r: State)
    requires SwallowEffect(s, events, r)
    ensures r.grab.Some? && |r.track| == |s.track| && |r.gens| == |s.gens|
  {
  }

  lemma SwallowPress(s: State, events: seq<KeyEvent>, r: State)
    requires events != [] && events[|events| - 1].isPress && SwallowEffect(s, events[..|events| - 1], r)
    ensures SwallowEffect(s, events, r)
  {
  }

  lemma SwallowRelease(s: State, events: seq<KeyEvent>, m: State)
    requires events != [] && !events[|events| - 1].isPress && SwallowEffect(s, events[..|events| - 1], m)
    requires s.grab.Some? && |s.track| == |s.gens|
    ensures SwallowEffect(s, events, OrphanRelease(m, events[|events| - 1]))
  {
    hide OrphanRelease, VkUsable, AppDown, KeyWire;
    var n := |events| - 1;
    var e := events[n];
    var before := Settled(s.track, events[..n]);
    OneOrphan(m, e);
    if TrackOf(m, e.key) == Forwarded {
      assert Settled(s.track, events) == before + [e.key];
      assert WireReleases(before + [e.key]) == WireReleases(before) + [WireKey(e.key, false)];
    } else {
      assert Settled(s.track, events) == before;
    }
  }

  /** A chord that swallows the release of a key the router had passed as text or as a shortcut
      leaves that key down in the application. */
  lemma SwallowedLetterStaysDown(w: World, s: State, events: seq<KeyEvent>, k: nat)
    requires s.grab.Some? && |s.track| == |s.gens| && k in AppDown(s.log) && TrackOf(s, k) != Forwarded
    ensures var r := Run(w, s, Orphans(events)); k in AppDown(r.log) && TrackOf(r, k) == TrackOf(s, k)
  {
    hide Run;
    SwallowSettles(w, s, events);
    SettledMeans(s.track, events);
  }

  /** A chord that settles the key still auto-repeating leaves the timer running, and its next tick
      presses in the application a key that is not held at the router. */
  lemma SettledKeyRepeats(w: World, s: State, e: KeyEvent, keysym: nat, unicode: nat, xkb: Mods)
    requires Shape(s) && GhostRepeat(s, Orphan(e)) && VkUsable(s) && s.phase == Active && s.grab.value.xkbLoaded
    requires (forall log, ev, again :: !w.engineHandles(log, ev, again)) && (forall log :: !w.hasCandidates(log))
    ensures var t := DispatchRepeat(w, OrphanRelease(s, e), keysym, unicode, xkb, true, true);
            e.key in AppDown(t.log) && e.key !in RouterHeld(t.log) && TrackOf(t, e.key) == Forwarded
  {
    hide OrphanRelease, DispatchRepeat, Shape, AppDown, RouterHeld, ArrowSym;
    var r := OrphanRelease(s, e);
    SettledStillRepeats(s, e);
    OrphanShape(s, e);
    ShapeSizes(s);
    ShapeSizes(r);
    TickTrace(w, r, keysym, unicode, xkb, true, true);
    TickEffect(w, r, Repeat(keysym, unicode, xkb, true, true));
  }
}
