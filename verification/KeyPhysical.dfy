/**
 From the keyboard to the application: a key the application sees as down is
 physically held, or its release is still waiting in the arbiter. For every
 session, with no assumption on it, the inputs that break this are named exactly.
 */
module KeyPhysical {
  import opened KeyTypes
  import opened KeySpec
  import opened KeyShape
  import opened KeySafety
  import opened KeyBoundary
  import opened KeyRuns
  import opened ArbiterSpec
  import opened KeySession
  import opened KeyTrace
  import opened KeyState

  /** Keys with a release among these events. */
  function ReleasedKeys(events: seq<KeyEvent>): set<nat> {
    set i | 0 <= i < |events| && !events[i].isPress :: events[i].key
  }

  /** Every tracked key the application sees as down is accounted for. */
  ghost predicate Accounted(s: State, owed: set<nat>) {
    forall k: nat :: k < MAX_TRACKED_KEYS && k in AppDown(s.log) ==> k in owed
  }

  /** Physically held since the last boundary, or the release is waiting in the arbiter. */
  ghost predicate Physical(t: Session) {
    Accounted(t.s, t.held + ReleasedKeys(t.a.buffer))
  }

  // ---- which inputs break it ----

  /** Delivering this event leaves its key down although nothing accounts for it any more: a press on
      the wire of a key already let go, or the release of a down key that is not sent. */
  ghost predicate DeliverStrands(w: World, s: State, e: KeyEvent, owed: set<nat>) {
    && s.grab.Some? && e.key < MAX_TRACKED_KEYS && e.key !in owed
    && if e.isPress then WireKey(e.key, true) in PressEntries(w, s, e)
       else e.key in AppDown(s.log) && WireKey(e.key, false) !in ReleaseEntries(w, s, e)
  }

  /** Some delivery of this queue does. */
  ghost predicate QueueStrands(w: World, s: State, held: set<nat>, q: seq<KeyEvent>)
    decreases |q|
  {
    q != [] &&
    (DeliverStrands(w, s, q[0], held + ReleasedKeys(q[1..])) ||
     QueueStrands(w, Apply(w, s, Deliver(q[0])), held, q[1..]))
  }

  /** Swallowing these events leaves a key down: its release is among those that arrived, but the key
      is not one the chord settles on a usable keyboard. */
  ghost predicate SwallowStrands(s: State, held: set<nat>, arrived: seq<KeyEvent>, swallowed: seq<KeyEvent>) {
    exists k: nat :: k < MAX_TRACKED_KEYS && k in AppDown(s.log) && k in ReleasedKeys(arrived) && k !in held &&
      !(VkUsable(s) && TrackOf(s, k) == Forwarded && k in ReleasedKeys(swallowed))
  }

  /** The release of a down key is thrown away on arrival. */
  ghost predicate ReleaseDiscarded(t: Session, x: KeyInput) {
    && !x.pressed && x.key < MAX_TRACKED_KEYS && x.key in AppDown(t.s.log)
    && x.key !in ReleasedKeys(t.a.buffer)
  }

  /** A boundary leaves a key down that it cannot, or does not, release. */
  ghost predicate BoundaryStrands(s: State) {
    exists k: nat :: k < MAX_TRACKED_KEYS && k in AppDown(s.log) && !(VkCanRelease(s) && AppHeld(TrackOf(s, k)))
  }

  /** The repeat timer presses a key that is no longer held. */
  ghost predicate RepeatStrands(w: World, t: Session, m: Step)
    requires m.Repeat?
  {
    MovesKeys(t.s, m) &&
    var e := TimerEvent(t.s.grab.value, m.keysym, m.unicode, m.xkb);
    && e.key < MAX_TRACKED_KEYS && e.key !in t.held + ReleasedKeys(t.a.buffer)
    && WireKey(e.key, true) in TickEntries(w, t.s, e)
  }

  /** The state in which the arbiter decides. */
  function Noted(s: State, x: KeyInput): State
    requires s.grab.Some?
  {
    s.(grab := Some(s.grab.value.(physical := WithKey(s.grab.value.physical, x.keysym, x.pressed))))
  }

  /** The key event gets as far as the arbiter. */
  predicate Arbitrated(s: State, x: KeyInput)
    requires s.grab.Some?
  {
    && s.grab.value.xkbLoaded && Allowed(s, x)
    && !(x.pressed && ReservedAction(s.shortcuts, x.keysym, ArrivalOf(s, x).e.mods) == EmergencyExit)
  }

  /** A raw key event leaves some key down: its release is ignored or rejected before the arbiter, lost
      at a full buffer, swallowed with a chord, or delivered and not sent; or its press is replayed
      after the key was let go unnoticed. */
  ghost predicate KeyStrands(w: World, t: Session, x: KeyInput) {
    t.s.grab.Some? &&
    if !Arbitrated(t.s, x) then ReleaseDiscarded(t, x)
    else
      var arrival := ArrivalOf(t.s, x);
      var held := RawHeld(t.held, x);
      var arrived := t.a.buffer + [arrival.e];
      var acts := ArbStep(t.a, arrival).1;
      if acts == [] then Lost(t.a, arrival) && ReleaseDiscarded(t, x)
      else if acts[0].Swallow? then SwallowStrands(t.s, held, arrived, acts[0].events)
      else QueueStrands(w, Noted(t.s, x), held, arrived)
  }

  /** This input leaves a key down in the application that is neither held nor about to be released. */
  ghost predicate Strands(w: World, t: Session, i: Input) {
    match i
    case Key(x) => KeyStrands(w, t, x)
    case Other(m) =>
      if IsBoundary(m) then BoundaryStrands(t.s)
      else m.Repeat? && RepeatStrands(w, t, m)
  }

  // ---- deliveries ----

  lemma ReleasedHead(q: seq<KeyEvent>)
    requires q != []
    ensures ReleasedKeys(q) == (if q[0].isPress then {} else {q[0].key}) + ReleasedKeys(q[1..])
  {
    forall k | k in ReleasedKeys(q) ensures k in (if q[0].isPress then {} else {q[0].key}) + ReleasedKeys(q[1..]) {
      var i :| 0 <= i < |q| && !q[i].isPress && q[i].key == k;
      assert i > 0 ==> q[1..][i - 1] == q[i];
    }
    forall k | k in ReleasedKeys(q[1..]) ensures k in ReleasedKeys(q) {
      var i :| 0 <= i < |q| - 1 && !q[1..][i].isPress && q[1..][i].key == k;
      assert q[i + 1] == q[1..][i];
    }
  }

  lemma ReleasedLast(q: seq<KeyEvent>, e: KeyEvent)
    ensures ReleasedKeys(q + [e]) == ReleasedKeys(q) + (if e.isPress then {} else {e.key})
  {
    forall k | k in ReleasedKeys(q) ensures k in ReleasedKeys(q + [e]) {
      var i :| 0 <= i < |q| && !q[i].isPress && q[i].key == k;
      assert (q + [e])[i] == q[i];
    }
    if !e.isPress {
      assert (q + [e])[|q|] == e;
    }
  }

  lemma DeliveredDown(w: World, s: State, e: KeyEvent)
    requires Shape(s) && s.grab.Some?
    ensures var r := Apply(w, s, Deliver(e));
            && Shape(r) && r.grab.Some?
            && AppDown(r.log) ==
               if e.isPress then
                 AppDown(s.log) + (if WireKey(e.key, true) in PressEntries(w, s, e) then {e.key} else {})
               else AppDown(s.log) - (if WireKey(e.key, false) in ReleaseEntries(w, s, e) then {e.key} else {})
  {
    hide Shape, ProcessPress, ProcessRelease, PressEntries, ReleaseEntries, VkUsable, AppDown, Beside;
    if e.isPress {
      PressShape(w, s, e);
      PressEffect(w, s, e);
    } else {
      ReleaseShape(w, s, e);
      ReleaseEffect(w, s, e);
    }
  }

  lemma OneDelivery(w: World, s: State, e: KeyEvent, owed: set<nat>)
    requires Shape(s) && s.grab.Some? && Accounted(s, owed + if e.isPress then {} else {e.key})
    ensures Accounted(Apply(w, s, Deliver(e)), owed) <==> !DeliverStrands(w, s, e, owed)
  {
    hide Shape, Apply, PressEntries, ReleaseEntries, VkUsable, AppDown;
    DeliveredDown(w, s, e);
    if DeliverStrands(w, s, e, owed) {
      assert e.key in AppDown(Apply(w, s, Deliver(e)).log);
    }
  }

  function Delivers(q: seq<KeyEvent>): seq<Step> {
    seq(|q|, i requires 0 <= i < |q| => Deliver(q[i]))
  }

  lemma {:induction false} PassesDeliver(q: seq<KeyEvent>)
    ensures StepsOf(Passes(q)) == Delivers(q)
  {
    if q != [] {
      var n := |q| - 1;
      PassesDeliver(q[..n]);
      assert Passes(q)[..n] == Passes(q[..n]);
      assert Delivers(q) == Delivers(q[..n]) + [Deliver(q[n])];
    }
  }

  lemma DeliversHead(w: World, s: State, q: seq<KeyEvent>)
    requires q != []
    ensures Run(w, s, Delivers(q)) == Run(w, Apply(w, s, Deliver(q[0])), Delivers(q[1..]))
  {
    hide Run, Apply;
    assert Delivers(q) == [Deliver(q[0])] + Delivers(q[1..]);
    RunAfter(w, s, Deliver(q[0]), Delivers(q[1..]));
  }

  /** A key that is down stays down while no release of it is delivered. */
  lemma {:induction false} StaysDown(w: World, s: State, q: seq<KeyEvent>, k: nat)
    requires Shape(s) && s.grab.Some? && k in AppDown(s.log) && k !in ReleasedKeys(q)
    ensures k in AppDown(Run(w, s, Delivers(q)).log)
    decreases |q|
  {
    hide Shape, Apply, PressEntries, ReleaseEntries, VkUsable, AppDown, Run;
    if q == [] {
      assert Delivers(q) == [];
      RunOne(w, s, Dispatched);
    } else {
      ReleasedHead(q);
      DeliveredDown(w, s, q[0]);
      StaysDown(w, Apply(w, s, Deliver(q[0])), q[1..], k);
      DeliversHead(w, s, q);
    }
  }

  /** A replay, whole: all keys are accounted for afterwards exactly if no delivery strands one. */
  lemma {:induction false} QueuePhysical(w: World, s: State, held: set<nat>, q: seq<KeyEvent>)
    requires Shape(s) && s.grab.Some? && Accounted(s, held + ReleasedKeys(q))
    ensures Accounted(Run(w, s, Delivers(q)), held) <==> !QueueStrands(w, s, held, q)
    decreases |q|
  {
    hide Shape, Apply, AppDown, Run, DeliverStrands, Accounted;
    if q == [] {
      assert Delivers(q) == [] && held + ReleasedKeys(q) == held;
      RunOne(w, s, Dispatched);
    } else {
      var e := q[0];
      var m := Apply(w, s, Deliver(e));
      var owed := held + ReleasedKeys(q[1..]);
      ReleasedHead(q);
      assert held + ReleasedKeys(q) == owed + if e.isPress then {} else {e.key};
      OneDelivery(w, s, e, owed);
      DeliveredDown(w, s, e);
      DeliversHead(w, s, q);
      if DeliverStrands(w, s, e, owed) {
        var k := Unaccounted(m, owed);
        StaysDown(w, m, q[1..], k);
        NotAccounted(Run(w, s, Delivers(q)), held, k);
      } else {
        QueuePhysical(w, m, held, q[1..]);
      }
    }
  }

  ghost function Unaccounted(s: State, owed: set<nat>): (k: nat)
    requires !Accounted(s, owed)
    ensures k < MAX_TRACKED_KEYS && k in AppDown(s.log) && k !in owed
  {
    var k: nat :| k < MAX_TRACKED_KEYS && k in AppDown(s.log) && k !in owed;
    k
  }

  lemma NotAccounted(s: State, owed: set<nat>, k: nat)
    requires k < MAX_TRACKED_KEYS && k in AppDown(s.log) && k !in owed
    ensures !Accounted(s, owed)
  {
  }

  // ---- one input ----

  /** What was accounted for before the raw event still is, once the event itself is counted. */
  lemma RawAccounted(t: Session, x: KeyInput, e: KeyEvent)
    requires Physical(t) && e.key == x.key && e.isPress == x.pressed
    ensures Accounted(t.s, RawHeld(t.held, x) + ReleasedKeys(t.a.buffer + [e]))
  {
    hide AppDown, ReleasedKeys;
    ReleasedLast(t.a.buffer, e);
  }

  lemma SameDown(s: State, r: State, owed: set<nat>)
    requires AppDown(r.log) == AppDown(s.log)
    ensures Accounted(r, owed) <==> Accounted(s, owed)
  {
  }

  /** The event never reaches the arbiter. */
  lemma RefusedPhysical(w: World, t: Session, x: KeyInput)
    requires t.s.grab.Some? && Physical(t) && !Arbitrated(t.s, x)
    ensures Physical(SessionStep(w, t, Key(x))) <==> !KeyStrands(w, t, x)
  {
    hide AppDown, ReleasedKeys, ReservedAction, Apply, Run, ArbStep, EffectiveMods, ArrivalOf, StepsOf;
    var r := SessionStep(w, t, Key(x));
    assert AppDown(r.s.log) == AppDown(t.s.log) && r.a == t.a by { RefusedDown(w, t, x); }
    SameDown(t.s, r.s, r.held + ReleasedKeys(t.a.buffer));
    if ReleaseDiscarded(t, x) {
      NotAccounted(t.s, r.held + ReleasedKeys(t.a.buffer), x.key);
    }
  }

  lemma RefusedDown(w: World, t: Session, x: KeyInput)
    requires t.s.grab.Some? && !Arbitrated(t.s, x)
    ensures var r := SessionStep(w, t, Key(x)); AppDown(r.s.log) == AppDown(t.s.log) && r.a == t.a
  {
    hide AppDown, ReservedAction, Apply, Run, ArbStep, EffectiveMods, StepsOf, Inert;
    RunOne(w, t.s, Dispatched);
    RunOne(w, t.s, EarlyExit(x.key));
    RunOne(w, t.s, Reject(x.key, x.pressed, x.failSafe));
    InertDown(w, t.s, EarlyExit(x.key));
    InertDown(w, t.s, Reject(x.key, x.pressed, x.failSafe));
  }

  lemma InertDown(w: World, s: State, m: Step)
    requires !MovesKeys(s, m)
    ensures AppDown(Apply(w, s, m).log) == AppDown(s.log)
  {
    hide Apply;
    InertStep(w, s, m);
  }

  /** Noting the modifiers changes nothing that is accounted for. */
  lemma NotedFacts(w: World, s: State, x: KeyInput)
    requires Shape(s) && s.grab.Some?
    ensures var r := Noted(s, x);
            && r == Apply(w, s, SetPhysical(ArrivalOf(s, x).phys)) && Shape(r) && r.grab.Some?
            && r.log == s.log && r.track == s.track && r.gens == s.gens && VkUsable(r) == VkUsable(s)
  {
    hide WithKey, EffectiveMods;
    GrabShape(s, s.grab.value.(physical := WithKey(s.grab.value.physical, x.keysym, x.pressed)));
  }

  /** The session after an arbitrated event. */
  lemma ArbitratedStep(w: World, t: Session, x: KeyInput)
    requires t.s.grab.Some? && Shape(t.s) && Arbitrated(t.s, x)
    ensures var r := SessionStep(w, t, Key(x));
            var step := ArbStep(t.a, ArrivalOf(t.s, x));
            r.s == Run(w, Noted(t.s, x), StepsOf(step.1)) && r.a == step.0 && r.held == RawHeld(t.held, x)
  {
    hide Run, Apply, ArbStep, StepsOf, EffectiveMods, ReservedAction, WithKey, Shape, RawHeld;
    NotedFacts(w, t.s, x);
    RunAfter(w, t.s, SetPhysical(ArrivalOf(t.s, x).phys), StepsOf(ArbStep(t.a, ArrivalOf(t.s, x)).1));
  }

  /** The four things an arbiter step can be. */
  lemma ArbCases(a: Arb, x: Arrival)
    requires ArbOk(a)
    ensures Lost(a, x) ==> !x.e.isPress
    ensures var r := ArbStep(a, x);
            || (r.1 == [] && r.0.buffer == (if Lost(a, x) then a.buffer else a.buffer + [x.e]))
            || (r.0 == IDLE && exists es :: r.1 == [Swallow(es)])
            || (r.0 == IDLE && r.1 == Passes(a.buffer + [x.e]))
  {
    hide ShouldStart, ShouldCancel, ChordComplete;
    assert a.buffer == [] ==> a.buffer + [x.e] == [x.e] && Passes([x.e]) == [Pass(x.e)];
  }

  lemma HeldBackPhysical(w: World, t: Session, x: KeyInput)
    requires t.s.grab.Some? && Shape(t.s) && Physical(t) && Arbitrated(t.s, x)
    requires ArbOk(t.a) && ArbStep(t.a, ArrivalOf(t.s, x)).1 == []
    ensures Physical(SessionStep(w, t, Key(x))) <==> !KeyStrands(w, t, x)
  {
    hide AppDown, ReleasedKeys, Run, ArbStep, SessionStep, Shape, EffectiveMods, ReservedAction, Arbitrated, Lost,
         StepsOf;
    var arrival := ArrivalOf(t.s, x);
    var r := SessionStep(w, t, Key(x));
    ArbitratedStep(w, t, x);
    NotedFacts(w, t.s, x);
    assert r.s == Noted(t.s, x) by {
      assert StepsOf([]) == [] by { NoSteps(); }
      RunOne(w, Noted(t.s, x), Dispatched);
    }
    ArbCases(t.a, arrival);
    RawAccounted(t, x, arrival.e);
    if Lost(t.a, arrival) {
      assert r.a.buffer == t.a.buffer;
      if ReleaseDiscarded(t, x) {
        NotAccounted(r.s, r.held + ReleasedKeys(t.a.buffer), x.key);
      }
    }
  }

  lemma NoSteps()
    ensures StepsOf([]) == [] && ReleasedKeys([]) == {}
  {
  }

  lemma PassedPhysical(w: World, t: Session, x: KeyInput)
    requires t.s.grab.Some? && Shape(t.s) && Physical(t) && Arbitrated(t.s, x)
    requires var arrival := ArrivalOf(t.s, x);
             ArbStep(t.a, arrival) == (IDLE, Passes(t.a.buffer + [arrival.e]))
    ensures Physical(SessionStep(w, t, Key(x))) <==> !KeyStrands(w, t, x)
  {
    hide AppDown, Run, ArbStep, SessionStep, Shape, EffectiveMods, ReservedAction, Arbitrated, Lost, StepsOf,
         QueueStrands, Accounted, Noted, RawHeld;
    var arrival := ArrivalOf(t.s, x);
    var q := t.a.buffer + [arrival.e];
    var r := SessionStep(w, t, Key(x));
    ArbitratedStep(w, t, x);
    NotedFacts(w, t.s, x);
    PassesDeliver(q);
    RawAccounted(t, x, arrival.e);
    SameDown(t.s, Noted(t.s, x), r.held + ReleasedKeys(q));
    QueuePhysical(w, Noted(t.s, x), r.held, q);
    assert ReleasedKeys([]) == {} && r.held + {} == r.held;
    assert Passes(q)[0] == Pass(q[0]);
  }

  lemma SwallowedPhysical(w: World, t: Session, x: KeyInput, events: seq<KeyEvent>)
    requires t.s.grab.Some? && Shape(t.s) && Physical(t) && Arbitrated(t.s, x)
    requires ArbStep(t.a, ArrivalOf(t.s, x)) == (IDLE, [Swallow(events)])
    ensures Physical(SessionStep(w, t, Key(x))) <==> !KeyStrands(w, t, x)
  {
    hide AppDown, Run, ArbStep, SessionStep, Shape, EffectiveMods, ReservedAction, Arbitrated, Lost, StepsOf, Noted,
         RawHeld, VkUsable, TrackOf, ReleasedKeys, Settled;
    var arrival := ArrivalOf(t.s, x);
    var r := SessionStep(w, t, Key(x));
    ArbitratedStep(w, t, x);
    NotedFacts(w, t.s, x);
    ShapeSizes(t.s);
    SwallowedDown(w, Noted(t.s, x), events);
    RawAccounted(t, x, arrival.e);
    assert ReleasedKeys([]) == {} by { NoSteps(); }
    forall k: nat ensures TrackOf(Noted(t.s, x), k) == TrackOf(t.s, k) { SameEntry(t.s, Noted(t.s, x), k); }
    if SwallowStrands(t.s, r.held, t.a.buffer + [arrival.e], events) {
      var k: nat :| k < MAX_TRACKED_KEYS && k in AppDown(t.s.log) && k in ReleasedKeys(t.a.buffer + [arrival.e]) &&
        k !in r.held && !(VkUsable(t.s) && TrackOf(t.s, k) == Forwarded && k in ReleasedKeys(events));
      NotAccounted(r.s, r.held + ReleasedKeys(r.a.buffer), k);
    }
  }

  lemma SettledKeys(s: State, events: seq<KeyEvent>, k: nat)
    ensures k in Settled(s.track, events) <==> TrackOf(s, k) == Forwarded && k in ReleasedKeys(events)
  {
    hide Settled;
    SettledMeans(s.track, events);
  }

  lemma OrphansDown(w: World, s: State, events: seq<KeyEvent>, k: nat)
    requires s.grab.Some? && |s.track| == |s.gens|
    ensures k in AppDown(Run(w, s, Orphans(events)).log) <==>
            k in AppDown(s.log) && !(k in Settled(s.track, events) && VkUsable(s))
  {
    hide Run, AppDown, VkUsable, Settled, KeyWire, TrackOf, GenerationOf;
    SwallowSettles(w, s, events);
  }

  /** What swallowing a chord leaves down. */
  lemma SwallowedDown(w: World, s: State, events: seq<KeyEvent>)
    requires s.grab.Some? && |s.track| == |s.gens|
    ensures var r := Run(w, s, StepsOf([Swallow(events)]));
            forall k: nat :: k in AppDown(r.log) <==>
              k in AppDown(s.log) && !(VkUsable(s) && TrackOf(s, k) == Forwarded && k in ReleasedKeys(events))
  {
    hide Run, AppDown, Apply, VkUsable, Settled, Inert, ReleasedKeys, TrackOf, StepsOf, Orphans;
    var m := Run(w, s, Orphans(events));
    SwallowSteps(events);
    RunAppend(w, s, Orphans(events), [SwitchEngine]);
    RunOne(w, m, SwitchEngine);
    assert AppDown(Apply(w, m, SwitchEngine).log) == AppDown(m.log) by { InertDown(w, m, SwitchEngine); }
    forall k: nat
      ensures k in AppDown(m.log) <==>
              k in AppDown(s.log) && !(VkUsable(s) && TrackOf(s, k) == Forwarded && k in ReleasedKeys(events))
    {
      OrphansDown(w, s, events, k);
      SettledKeys(s, events, k);
    }
  }

  lemma SwallowSteps(events: seq<KeyEvent>)
    ensures StepsOf([Swallow(events)]) == Orphans(events) + [SwitchEngine]
  {
    var acts := [Swallow(events)];
    assert acts[..0] == [] && StepsOf(acts) == [] + (Orphans(events) + [SwitchEngine]);
  }

  lemma KeyPhysically(w: World, t: Session, x: KeyInput)
    requires Shape(t.s) && ArbOk(t.a) && Physical(t)
    ensures Physical(SessionStep(w, t, Key(x))) <==> !KeyStrands(w, t, x)
  {
    hide Shape, Physical, KeyStrands, Arbitrated, ArbStep, ArrivalOf;
    if t.s.grab.None? {
      assert !KeyStrands(w, t, x) by { QuietStrands(w, t, Key(x)); }
    } else if !Arbitrated(t.s, x) {
      RefusedPhysical(w, t, x);
    } else {
      var step := ArbStep(t.a, ArrivalOf(t.s, x));
      ArbCases(t.a, ArrivalOf(t.s, x));
      if step.1 == [] {
        HeldBackPhysical(w, t, x);
      } else if es :| step.1 == [Swallow(es)] {
        SwallowedPhysical(w, t, x, es);
      } else {
        PassedPhysical(w, t, x);
      }
    }
  }

  lemma BoundaryPhysical(w: World, t: Session, m: Step)
    requires Shape(t.s) && Quiescent(t.s) && IsBoundary(m)
    ensures Physical(SessionStep(w, t, Other(m))) <==> !BoundaryStrands(t.s)
  {
    hide Apply, Shape, Quiescent, AppDown, VkCanRelease, BoundaryEffect;
    var r := SessionStep(w, t, Other(m));
    BoundaryStep(w, t.s, m);
    BoundaryDown(t.s, r.s);
    assert r.held + ReleasedKeys(r.a.buffer) == {};
    ShapeSizes(t.s);
    if BoundaryStrands(t.s) {
      var k: nat :| k < MAX_TRACKED_KEYS && k in AppDown(t.s.log) && !(VkCanRelease(t.s) && AppHeld(TrackOf(t.s, k)));
      NotAccounted(r.s, r.held + ReleasedKeys(r.a.buffer), k);
    }
  }

  lemma BoundaryDown(s: State, r: State)
    requires BoundaryEffect(s, r)
    ensures forall k: nat ::
              k in AppDown(r.log) <==> k in AppDown(s.log) && !(VkCanRelease(s) && AppHeld(TrackOf(s, k)))
  {
    hide AppDown, VkCanRelease, KeyWire, Entitled, RouterHeld, Paired;
  }

  lemma RepeatPhysical(w: World, t: Session, m: Step)
    requires Shape(t.s) && Physical(t) && m.Repeat? && MovesKeys(t.s, m)
    ensures Physical(SessionStep(w, t, Other(m))) <==> !RepeatStrands(w, t, m)
  {
    hide DispatchRepeat, TickEntries, VkUsable, AppDown, Shape, ReleasedKeys, Beside;
    var e := TimerEvent(t.s.grab.value, m.keysym, m.unicode, m.xkb);
    TickEffect(w, t.s, m);
    TickTrace(w, t.s, m.keysym, m.unicode, m.xkb, m.timerRead, m.focused);
    TickState(w, t.s, m.keysym, m.unicode, m.xkb, m.timerRead, m.focused);
    var r := SessionStep(w, t, Other(m));
    assert r.a == t.a && r.held == t.held;
    if RepeatStrands(w, t, m) {
      NotAccounted(r.s, r.held + ReleasedKeys(r.a.buffer), e.key);
    }
  }

  /** One input of any kind: the account stays right if and only if the input is not a stranding one. */
  lemma StepPhysical(w: World, t: Session, i: Input)
    requires Shape(t.s) && Quiescent(t.s) && ArbOk(t.a) && Physical(t)
    ensures Physical(SessionStep(w, t, i)) <==> !Strands(w, t, i)
  {
    hide Shape, Quiescent, Physical, KeyStrands, BoundaryStrands, RepeatStrands, Apply;
    match i
    case Key(x) => KeyPhysically(w, t, x);
    case Other(m) =>
      if IsBoundary(m) {
        BoundaryPhysical(w, t, m);
      } else if m.Repeat? && MovesKeys(t.s, m) {
        RepeatPhysical(w, t, m);
      } else {
        if m.Repeat? {
          QuietStrands(w, t, i);
        }
        OtherPhysical(w, t, m);
      }
  }

  lemma QuietStrands(w: World, t: Session, i: Input)
    ensures i.Key? && t.s.grab.None? ==> !KeyStrands(w, t, i.x)
    ensures i.Other? && i.m.Repeat? && !MovesKeys(t.s, i.m) ==> !RepeatStrands(w, t, i.m)
  {
  }

  lemma OtherPhysical(w: World, t: Session, m: Step)
    requires Physical(t) && !IsBoundary(m) && !(m.Repeat? && MovesKeys(t.s, m))
    ensures Physical(SessionStep(w, t, Other(m)))
  {
    hide Apply, AppDown, ReleasedKeys, Inert;
    if FromOutside(m) {
      InertDown(w, t.s, m);
    }
  }

  // ---- whole sessions ----

  ghost predicate AlwaysPhysical(w: World, s: State, inputs: seq<Input>) {
    forall n :: 0 <= n <= |inputs| ==> Physical(RunSession(w, s, inputs[..n]))
  }

  ghost predicate NeverStrands(w: World, s: State, inputs: seq<Input>) {
    forall n :: 0 <= n < |inputs| ==> !Strands(w, RunSession(w, s, inputs[..n]), inputs[n])
  }

  lemma SessionInvariants(w: World, s: State, inputs: seq<Input>)
    requires Initial(s)
    ensures var t := RunSession(w, s, inputs); Shape(t.s) && Quiescent(t.s) && ArbOk(t.a)
  {
    hide Shape, Run;
    var t := RunSession(w, s, inputs);
    SessionIsRun(w, s, inputs);
    assert t.steps[..|t.steps|] == t.steps;
    RunInvariants(w, s, t.steps, |t.steps|);
  }

  lemma SessionNext(w: World, s: State, inputs: seq<Input>, n: nat)
    requires n < |inputs|
    ensures RunSession(w, s, inputs[..n + 1]) == SessionStep(w, RunSession(w, s, inputs[..n]), inputs[n])
  {
    hide SessionStep;
    assert inputs[..n + 1][..n] == inputs[..n];
  }

  lemma {:induction false} PhysicalUpTo(w: World, s: State, inputs: seq<Input>, n: nat)
    requires Initial(s) && n <= |inputs| && NeverStrands(w, s, inputs)
    ensures Physical(RunSession(w, s, inputs[..n]))
  {
    hide SessionStep, Strands, Physical, Shape;
    if n == 0 {
      assert Physical(RunSession(w, s, inputs[..0])) by { FreshPhysical(w, s); }
    } else {
      PhysicalUpTo(w, s, inputs, n - 1);
      SessionInvariants(w, s, inputs[..n - 1]);
      SessionNext(w, s, inputs, n - 1);
      StepPhysical(w, RunSession(w, s, inputs[..n - 1]), inputs[n - 1]);
    }
  }

  lemma FreshPhysical(w: World, s: State)
    requires Initial(s)
    ensures Physical(RunSession(w, s, []))
  {
  }

  /** From any initial state, over every session: each tracked key the application sees as down is
      physically held since the last boundary, or has its release waiting in the arbiter, at every
      moment, if and only if no input of the session is a stranding one. */
  lemma PhysicallyHeld(w: World, s: State, inputs: seq<Input>)
    requires Initial(s)
    ensures AlwaysPhysical(w, s, inputs) <==> NeverStrands(w, s, inputs)
  {
    hide SessionStep, Strands, Physical, Shape, RunSession;
    if NeverStrands(w, s, inputs) {
      forall n | 0 <= n <= |inputs| ensures Physical(RunSession(w, s, inputs[..n])) {
        PhysicalUpTo(w, s, inputs, n);
      }
    }
    if AlwaysPhysical(w, s, inputs) {
      forall n | 0 <= n < |inputs| ensures !Strands(w, RunSession(w, s, inputs[..n]), inputs[n]) {
        SessionInvariants(w, s, inputs[..n]);
        SessionNext(w, s, inputs, n);
        assert Physical(RunSession(w, s, inputs[..n])) && Physical(RunSession(w, s, inputs[..n + 1]));
        StepPhysical(w, RunSession(w, s, inputs[..n]), inputs[n]);
      }
    }
  }
}
