/**
 The main results about whole runs of the key machine, over any environment:
 which steps leave a key stuck in the application, which releases the engine
 may see, and what a boundary cuts off.
 */
module KeyRuns {
  import opened KeyTypes
  import opened KeySpec
  import opened KeyTrace
  import opened KeyState
  import opened KeyShape
  import opened KeySafety
  import opened KeyBoundary

  // ---- repeat timer and consumed chords ----

  lemma TickOwn(w: World, s: State, e: KeyEvent)
    requires s.grab.Some?
    ensures var xs := TickEntries(w, s, e); var t := TickTrack(w, s, e);
            && (forall i :: 0 <= i < |xs| ==> OwnPress(xs[i], e.key))
            && (WireKey(e.key, true) in xs ==> AppHeld(t))
            && (t == TrackOf(s, e.key) || (t == Forwarded && Granting(xs)))
  {
    hide Open, TickDeclined;
    var xs := TickEntries(w, s, e);
    assert TrackOf(s, e.key) in {Idle, VoicePtt, VoicePttUnavailable} ==> xs[0].ToEngine?;
  }

  /** A dispatched tick, whole, in the views of the log. */
  lemma TickEffect(w: World, s: State, m: Step)
    requires m.Repeat? && s.grab.Some? && Ticks(s, m.timerRead, m.focused)
    ensures var r := DispatchRepeat(w, s, m.keysym, m.unicode, m.xkb, m.timerRead, m.focused);
            var e := TimerEvent(s.grab.value, m.keysym, m.unicode, m.xkb);
            && AppDown(r.log) == AppDown(s.log) + (if WireKey(e.key, true) in TickEntries(w, s, e) then {e.key} else {})
            && Entitled(r.log) == Entitled(s.log) + (if Granting(TickEntries(w, s, e)) then {e.key} else {})
            && RouterHeld(r.log) == RouterHeld(s.log) && (Paired(r.log) <==> Paired(s.log))
            && Beside(s, r, e.key)
  {
    hide DispatchRepeat, TickEntries, TickTrack, TickTries, Tried, TrackOf, GenerationOf, AppDown, Entitled,
         RouterHeld, KeyWire, Paired, Granting;
    var e := TimerEvent(s.grab.value, m.keysym, m.unicode, m.xkb);
    TickTrace(w, s, m.keysym, m.unicode, m.xkb, m.timerRead, m.focused);
    TickState(w, s, m.keysym, m.unicode, m.xkb, m.timerRead, m.focused);
    TickOwn(w, s, e);
    PressViews(s.log, TickEntries(w, s, e), e.key);
    PutAt(s, DispatchRepeat(w, s, m.keysym, m.unicode, m.xkb, m.timerRead, m.focused), e.key, TickTrack(w, s, e), 0);
  }

  lemma RepeatCovered(w: World, s: State, m: Step)
    requires Shape(s) && m.Repeat? && s.grab.Some? && Ticks(s, m.timerRead, m.focused)
    ensures var r := DispatchRepeat(w, s, m.keysym, m.unicode, m.xkb, m.timerRead, m.focused);
            && (Covered(s) ==> Covered(r)) && (Held(s) ==> Held(r)) && (EngineOk(s) ==> EngineOk(r))
            && (TextHeld(s) ==> TextHeld(r)) && r.grab.Some?
  {
    hide DispatchRepeat, TickEntries, TickTrack, TickTries, TickStops, Tried, TrackOf, GenerationOf, Beside, Covered,
         Held, EngineOk, TextHeld, AppDown, Entitled, RouterHeld, Paired, Granting;
    var r := DispatchRepeat(w, s, m.keysym, m.unicode, m.xkb, m.timerRead, m.focused);
    var e := TimerEvent(s.grab.value, m.keysym, m.unicode, m.xkb);
    ShapeSizes(s);
    TickEffect(w, s, m);
    TickOwn(w, s, e);
    TickTrace(w, s, m.keysym, m.unicode, m.xkb, m.timerRead, m.focused);
    TickState(w, s, m.keysym, m.unicode, m.xkb, m.timerRead, m.focused);
    PutAt(s, r, e.key, TickTrack(w, s, e), 0);
    KeyInvariants(s, e.key);
    if Covered(s) {
      CoveredAfter(s, r, e.key);
    }
    if Held(s) {
      HeldAfter(s, r, e.key);
    }
    if TextHeld(s) {
      TextAfter(s, r, e.key);
    }
    if EngineOk(s) {
      EngineAfter(s, r, e.key);
    }
  }

  /** A consumed chord holds a key whose release the application cannot be given. */
  ghost predicate OrphanUncovers(s: State, e: KeyEvent) {
    TrackOf(s, e.key) == Forwarded && e.key in AppDown(s.log) && !VkUsable(s)
  }

  /** A consumed chord settles the key that is still auto-repeating. */
  predicate GhostRepeat(s: State, m: Step) {
    m.Orphan? && TrackOf(s, m.e.key) == Forwarded &&
    s.grab.Some? && s.grab.value.repeating && s.grab.value.repeatKey == m.e.key
  }

  /** A settled key, whole, in the views of the log. */
  lemma OrphanEffect(s: State, e: KeyEvent)
    requires s.grab.Some? && TrackOf(s, e.key) == Forwarded
    ensures var r := OrphanRelease(s, e);
            && AppDown(r.log) == AppDown(s.log) - (if VkUsable(s) then {e.key} else {})
            && Entitled(r.log) == Entitled(s.log) - {e.key} && RouterHeld(r.log) == RouterHeld(s.log) - {e.key}
            && (Paired(r.log) <==> Paired(s.log))
            && TrackOf(r, e.key) == Idle && GenerationOf(r, e.key) == 0 && Beside(s, r, e.key)
  {
    hide OrphanRelease, Tried, TrackOf, GenerationOf, AppDown, Entitled, RouterHeld, KeyWire, Paired;
    OrphanTrace(s, e);
    OrphanState(s, e);
    var wire := Wire(Open(s), e.key, false);
    ReleaseViews(s.log, wire, e.key);
    LogStep(s.log + wire, Freed(e.key));
    assert s.log + (wire + [Freed(e.key)]) == s.log + wire + [Freed(e.key)];
    PutAt(s, OrphanRelease(s, e), e.key, Idle, 0);
  }

  lemma OrphanSafe(s: State, e: KeyEvent)
    requires Shape(s) && s.grab.Some?
    ensures var r := OrphanRelease(s, e);
            && (Covered(s) ==> (Covered(r) <==> !OrphanUncovers(s, e)))
            && (Held(s) ==> (Held(r) <==> !GhostRepeat(s, Orphan(e))))
            && (EngineOk(s) ==> EngineOk(r)) && (TextHeld(s) ==> TextHeld(r)) && r.grab.Some?
  {
    hide OrphanRelease, Tried, TrackOf, GenerationOf, Beside, Covered, Held, EngineOk, TextHeld, AppDown, Entitled,
         RouterHeld, Paired, VkUsable;
    var r := OrphanRelease(s, e);
    OrphanState(s, e);
    KeyInvariants(s, e.key);
    KeyInvariants(r, e.key);
    if TrackOf(s, e.key) == Forwarded {
      OrphanEffect(s, e);
      TrackedOwned(s, e.key);
      if Covered(s) {
        CoveredAfter(s, r, e.key);
      }
      if Held(s) && !GhostRepeat(s, Orphan(e)) {
        HeldAfter(s, r, e.key);
      }
      if TextHeld(s) {
        TextAfter(s, r, e.key);
      }
      if EngineOk(s) {
        EngineAfter(s, r, e.key);
      }
    }
  }

  /** Settling a key leaves its repeat timer running, on a key no longer held. */
  lemma SettledStillRepeats(s: State, e: KeyEvent)
    requires s.grab.Some? && TrackOf(s, e.key) == Forwarded
    ensures var r := OrphanRelease(s, e);
            && r.grab.Some? && r.grab.value.repeating == s.grab.value.repeating
            && r.grab.value.repeatKey == s.grab.value.repeatKey
            && TrackOf(r, e.key) == Idle && e.key !in RouterHeld(r.log)
            && (VkUsable(r) <==> VkUsable(s)) && r.phase == s.phase
            && r.grab.value.xkbLoaded == s.grab.value.xkbLoaded
  {
    hide OrphanRelease, TrackOf, RouterHeld;
    OrphanEffect(s, e);
    OrphanState(s, e);
  }

  // ---- steps that touch neither keys nor the engine ----

  /** A step that leaves tracking and every key view alone. */
  ghost predicate Inert(s: State, r: State) {
    && r.track == s.track && r.gens == s.gens && AppDown(r.log) == AppDown(s.log)
    && Entitled(r.log) == Entitled(s.log) && RouterHeld(r.log) == RouterHeld(s.log)
    && (Paired(r.log) <==> Paired(s.log)) && r.grab.Some? == s.grab.Some?
    && (r.grab.Some? && r.grab.value.repeating ==>
          s.grab.value.repeating && r.grab.value.repeatKey == s.grab.value.repeatKey)
  }

  lemma InertSafe(s: State, r: State)
    requires Inert(s, r)
    ensures (Covered(s) <==> Covered(r)) && (EngineOk(s) <==> EngineOk(r)) && (Held(s) ==> Held(r))
    ensures (Quiescent(s) ==> Quiescent(r)) && (TextHeld(s) ==> TextHeld(r))
  {
    assert forall j: nat :: TrackOf(r, j) == TrackOf(s, j) && GenerationOf(r, j) == GenerationOf(s, j);
  }

  predicate MovesKeys(s: State, m: Step) {
    m.Deliver? || m.Orphan? || m.Reset? || m.Regrab? || m.Resume? || (m.Repeat? && Ticks(s, m.timerRead, m.focused))
  }

  lemma InertStep(w: World, s: State, m: Step)
    requires !MovesKeys(s, m)
    ensures Inert(s, Apply(w, s, m))
  {
    hide OnModifiers, OnKeymap, DispatchRepeat, HardReset, Rebuild, OnResume, ProcessPress, ProcessRelease,
         OrphanRelease, AppDown, Entitled, RouterHeld, KeyWire, Paired, Inert, RejectKey, HealthCheck, ReleaseGrab,
         Open;
    if s.grab.None? {
      assert Inert(s, Apply(w, s, m)) by { GrablessInert(w, s, m); }
    } else if m.ModifierUpdate? {
      ModifierState(s, m.depressed, m.latched, m.locked, m.group, m.before, m.after);
      ModifierTrace(s, m.depressed, m.latched, m.locked, m.group, m.before, m.after);
      MaskViews(s.log, Open(s), m.depressed, m.latched, m.locked, m.group);
      assert Inert(s, Apply(w, s, m)) by { TriedInert(s, Apply(w, s, m)); }
    } else if m.Repeat? {
      TickTrace(w, s, m.keysym, m.unicode, m.xkb, m.timerRead, m.focused);
      TickState(w, s, m.keysym, m.unicode, m.xkb, m.timerRead, m.focused);
      assert Inert(s, Apply(w, s, m)) by { TriedInert(s, Apply(w, s, m)); }
    } else {
      assert Inert(s, Apply(w, s, m)) by { FlagInert(w, s, m); }
    }
  }

  lemma GrablessInert(w: World, s: State, m: Step)
    requires s.grab.None? && !MovesKeys(s, m)
    ensures Inert(s, Apply(w, s, m))
  {
    hide AppDown, Entitled, RouterHeld, KeyWire, Paired;
  }

  lemma TriedInert(s: State, r: State)
    requires s.grab.Some? && r.track == s.track && r.gens == s.gens && SameViews(s.log, r.log)
    requires r.grab.Some? && r.grab.value.repeatKey == s.grab.value.repeatKey
    requires r.grab.value.repeating ==> s.grab.value.repeating
    ensures Inert(s, r)
  {
  }

  lemma FlagInert(w: World, s: State, m: Step)
    requires s.grab.Some? && !MovesKeys(s, m) && !m.ModifierUpdate? && !m.Repeat?
    ensures Inert(s, Apply(w, s, m))
  {
    hide AppDown, Entitled, RouterHeld, KeyWire, Paired, OnKeymap, RejectKey, HealthCheck;
    if m.Keymap? {
      KeymapState(s, m.duplicated, m.compiled);
    } else if m.Reject? {
      RejectState(s, m.key, m.pressed, m.failSafe);
    } else if m.Health? {
      HealthState(s, m.now);
    }
  }

  // ---- boundaries ----

  predicate IsBoundary(m: Step) {
    m.Reset? || m.Regrab? || m.Resume?
  }

  lemma BoundaryStep(w: World, s: State, m: Step)
    requires Shape(s) && Quiescent(s) && IsBoundary(m)
    ensures var r := Apply(w, s, m);
            BoundaryEffect(s, r) && Quiescent(r) && (r.grab.Some? ==> !r.grab.value.repeating)
  {
    hide HardReset, Rebuild, OnResume, BoundaryEffect;
    HardResetBoundary(s);
    ResumeBoundary(s);
    if m.Regrab? {
      RebuildBoundary(s, m.now, m.created);
    }
    BoundaryMeans(s, Apply(w, s, m));
  }

  lemma BoundaryMeans(s: State, r: State)
    requires BoundaryEffect(s, r)
    ensures Quiescent(r) && Entitled(r.log) == {} && r.track == Idles()
  {
  }

  /** A boundary strands a key exactly when the virtual keyboard cannot send releases. */
  ghost predicate BoundaryUncovers(s: State) {
    !VkCanRelease(s) && exists k: nat :: k < MAX_TRACKED_KEYS && k in AppDown(s.log)
  }

  lemma BoundarySafe(s: State, r: State)
    requires Shape(s) && BoundaryEffect(s, r) && (r.grab.Some? ==> !r.grab.value.repeating)
    ensures Covered(s) ==> (Covered(r) <==> !BoundaryUncovers(s))
    ensures Held(r) && TextHeld(r) && (EngineOk(s) ==> EngineOk(r))
  {
    hide VkCanRelease, Paired, Entitled, RouterHeld;
    forall k: nat ensures !AppHeld(TrackOf(r, k)) {}
    if Covered(s) {
      forall k: nat | k < MAX_TRACKED_KEYS
        ensures k in AppDown(r.log) <==> k in AppDown(s.log) && !VkCanRelease(s)
      {
        if k in AppDown(s.log) {
          assert AppHeld(TrackOf(s, k));
          assert k in HeldKeys(s.track);
        }
      }
      if BoundaryUncovers(s) {
        var k: nat :| k < MAX_TRACKED_KEYS && k in AppDown(s.log);
        assert k in AppDown(r.log) && !AppHeld(TrackOf(r, k));
      }
    }
  }

  // ---- every step ----

  /** Some key that the application holds loses its tracking in this step. */
  ghost predicate Uncovers(w: World, s: State, m: Step) {
    match m
    case Deliver(e) =>
      s.grab.Some? && if e.isPress then PressUncovers(w, s, e) else ReleaseUncovers(w, s, e)
    case Orphan(e) => s.grab.Some? && OrphanUncovers(s, e)
    case Reset => BoundaryUncovers(s)
    case Regrab(_, _) => BoundaryUncovers(s)
    case Resume => BoundaryUncovers(s)
    case _ => false
  }

  /** Presses alternate with releases at the router. */
  ghost predicate Orderly(s: State, m: Step) {
    m.Deliver? && m.e.isPress ==> m.e.key !in RouterHeld(s.log)
  }

  /** One step, any state: what it does to the invariants, exactly where it matters. */
  lemma StepSafe(w: World, s: State, m: Step)
    requires Shape(s) && Quiescent(s)
    ensures var r := Apply(w, s, m);
            && Shape(r) && Quiescent(r)
            && (Covered(s) ==> (Covered(r) <==> !Uncovers(w, s, m)))
            && (Held(s) ==> (Held(r) <==> !GhostRepeat(s, m)))
            && (EngineOk(s) ==> EngineOk(r)) && (TextHeld(s) ==> TextHeld(r))
  {
    hide Shape, Covered, Held, EngineOk, TextHeld, Apply, BoundaryUncovers, BoundaryEffect, Inert, Uncovers;
    var r := Apply(w, s, m);
    StepShape(w, s, m);
    assert Uncovers(w, s, m) ==> MovesKeys(s, m) && !m.Repeat? by { UncoversMoves(w, s, m); }
    if !MovesKeys(s, m) {
      InertStep(w, s, m);
      InertSafe(s, r);
    } else if IsBoundary(m) {
      BoundaryStep(w, s, m);
      BoundarySafe(s, r);
      assert Uncovers(w, s, m) == BoundaryUncovers(s) by { UncoversMoves(w, s, m); }
    } else {
      KeyStep(w, s, m);
    }
  }

  lemma UncoversMoves(w: World, s: State, m: Step)
    ensures Uncovers(w, s, m) ==> MovesKeys(s, m) && !m.Repeat?
    ensures IsBoundary(m) ==> Uncovers(w, s, m) == BoundaryUncovers(s)
  {
  }

  lemma KeyStep(w: World, s: State, m: Step)
    requires Shape(s) && Quiescent(s) && MovesKeys(s, m) && !IsBoundary(m)
    ensures var r := Apply(w, s, m);
            && Quiescent(r)
            && (Covered(s) ==> (Covered(r) <==> !Uncovers(w, s, m)))
            && (Held(s) ==> (Held(r) <==> !GhostRepeat(s, m)))
            && (EngineOk(s) ==> EngineOk(r)) && (TextHeld(s) ==> TextHeld(r))
  {
    hide Shape, Covered, Held, EngineOk, TextHeld, ProcessPress, ProcessRelease, OrphanRelease, DispatchRepeat,
         OrphanUncovers, PressUncovers, ReleaseUncovers;
    if s.grab.Some? {
      match m {
        case Deliver(e) =>
          if e.isPress {
            PressSafe(w, s, e);
            PressShape(w, s, e);
          } else {
            ReleaseSafe(w, s, e);
            ReleaseShape(w, s, e);
          }
        case Orphan(e) => OrphanSafe(s, e);
        case Repeat(_, _, _, _, _) => RepeatCovered(w, s, m);
        case _ =>
      }
    }
  }

  // ---- whole runs ----

  /** The state after the first i steps. */
  function At(w: World, s: State, ms: seq<Step>, i: nat): State
    requires i <= |ms|
  {
    Run(w, s, ms[..i])
  }

  lemma AtNext(w: World, s: State, ms: seq<Step>, i: nat)
    requires i < |ms|
    ensures At(w, s, ms, i + 1) == Apply(w, At(w, s, ms, i), ms[i])
    ensures At(w, s, ms, 0) == s
  {
    assert ms[..i + 1][..i] == ms[..i] && ms[..i + 1][i] == ms[i];
  }

  lemma RunFour(w: World, s: State, ms: seq<Step>)
    requires |ms| == 4
    ensures Run(w, s, ms) == Apply(w, Apply(w, Apply(w, Apply(w, s, ms[0]), ms[1]), ms[2]), ms[3])
  {
    hide Apply;
    AtNext(w, s, ms, 0);
    AtNext(w, s, ms, 1);
    AtNext(w, s, ms, 2);
    AtNext(w, s, ms, 3);
    assert ms[..4] == ms;
  }

  /** On every run, whatever the order of presses and releases: shape and engine pairing. */
  lemma {:induction false} RunInvariants(w: World, s: State, ms: seq<Step>, i: nat)
    requires Initial(s) && i <= |ms|
    ensures Shape(At(w, s, ms, i)) && Quiescent(At(w, s, ms, i)) && EngineOk(At(w, s, ms, i))
  {
    hide Shape, Apply;
    if i == 0 {
      InitialShape(s);
      assert ms[..0] == [];
    } else {
      RunInvariants(w, s, ms, i - 1);
      AtNext(w, s, ms, i - 1);
      StepSafe(w, At(w, s, ms, i - 1), ms[i - 1]);
    }
  }

  ghost predicate AlwaysCovered(w: World, s: State, ms: seq<Step>) {
    forall i :: 0 <= i <= |ms| ==> Covered(At(w, s, ms, i))
  }

  ghost predicate NeverUncovers(w: World, s: State, ms: seq<Step>) {
    forall i :: 0 <= i < |ms| ==> !Uncovers(w, At(w, s, ms, i), ms[i])
  }

  lemma {:induction false} CoveredUpTo(w: World, s: State, ms: seq<Step>, i: nat)
    requires Initial(s) && i <= |ms| && forall j :: 0 <= j < i ==> !Uncovers(w, At(w, s, ms, j), ms[j])
    ensures Covered(At(w, s, ms, i))
  {
    hide Apply, Uncovers;
    if i == 0 {
      assert ms[..0] == [];
    } else {
      CoveredUpTo(w, s, ms, i - 1);
      RunInvariants(w, s, ms, i - 1);
      AtNext(w, s, ms, i - 1);
      StepSafe(w, At(w, s, ms, i - 1), ms[i - 1]);
    }
  }

  /** No assumption on the run at all: the application's held keys are always tracked as such
      if and only if no step of the run is an uncovering one. */
  lemma RunCovered(w: World, s: State, ms: seq<Step>)
    requires Initial(s)
    ensures AlwaysCovered(w, s, ms) <==> NeverUncovers(w, s, ms)
  {
    hide Apply, Uncovers, Covered, Shape, EngineOk, Quiescent, At;
    if NeverUncovers(w, s, ms) {
      forall i | 0 <= i <= |ms| ensures Covered(At(w, s, ms, i)) { CoveredUpTo(w, s, ms, i); }
    }
    if AlwaysCovered(w, s, ms) {
      forall i | 0 <= i < |ms| ensures !Uncovers(w, At(w, s, ms, i), ms[i]) {
        RunInvariants(w, s, ms, i);
        AtNext(w, s, ms, i);
        assert Covered(At(w, s, ms, i)) && Covered(At(w, s, ms, i + 1));
        StepSafe(w, At(w, s, ms, i), ms[i]);
      }
    }
  }

  // ---- what is held at the router ----

  /** Only keys held at the router are tracked or repeating, throughout. */
  ghost predicate AlwaysHeld(w: World, s: State, ms: seq<Step>) {
    forall i :: 0 <= i <= |ms| ==> Held(At(w, s, ms, i))
  }

  ghost predicate NeverGhosts(w: World, s: State, ms: seq<Step>) {
    forall i :: 0 <= i < |ms| ==> !GhostRepeat(At(w, s, ms, i), ms[i])
  }

  lemma {:induction false} HeldUpTo(w: World, s: State, ms: seq<Step>, i: nat)
    requires Initial(s) && i <= |ms| && NeverGhosts(w, s, ms)
    ensures Held(At(w, s, ms, i))
  {
    hide Apply, Shape;
    if i == 0 {
      assert ms[..0] == [];
    } else {
      HeldUpTo(w, s, ms, i - 1);
      RunInvariants(w, s, ms, i - 1);
      AtNext(w, s, ms, i - 1);
      StepSafe(w, At(w, s, ms, i - 1), ms[i - 1]);
    }
  }

  /** Again on any run at all: every tracked or repeating key stays held at the router if and only if
      no chord ever settles the key that is auto-repeating. */
  lemma RunHeld(w: World, s: State, ms: seq<Step>)
    requires Initial(s)
    ensures AlwaysHeld(w, s, ms) <==> NeverGhosts(w, s, ms)
  {
    hide Apply, Covered, Held, Shape, EngineOk, Quiescent, At, GhostRepeat;
    if NeverGhosts(w, s, ms) {
      forall i | 0 <= i <= |ms| ensures Held(At(w, s, ms, i)) { HeldUpTo(w, s, ms, i); }
    }
    if AlwaysHeld(w, s, ms) {
      forall i | 0 <= i < |ms| ensures !GhostRepeat(At(w, s, ms, i), ms[i]) {
        RunInvariants(w, s, ms, i);
        AtNext(w, s, ms, i);
        assert Held(At(w, s, ms, i)) && Held(At(w, s, ms, i + 1));
        StepSafe(w, At(w, s, ms, i), ms[i]);
      }
    }
  }

  lemma {:induction false} RunText(w: World, s: State, ms: seq<Step>, i: nat)
    requires Initial(s) && i <= |ms|
    ensures TextHeld(At(w, s, ms, i))
  {
    hide Apply, Shape;
    if i == 0 {
      assert ms[..0] == [];
    } else {
      RunText(w, s, ms, i - 1);
      RunInvariants(w, s, ms, i - 1);
      AtNext(w, s, ms, i - 1);
      StepSafe(w, At(w, s, ms, i - 1), ms[i - 1]);
    }
  }

  // ---- no stuck key ----

  ghost predicate OrderlyRun(w: World, s: State, ms: seq<Step>) {
    forall i :: 0 <= i < |ms| ==> Orderly(At(w, s, ms, i), ms[i])
  }

  /** The forwarded arrow key whose release is kept for the candidates the engine shows. */
  predicate KeptForCandidates(w: World, s: State, e: KeyEvent) {
    var log := s.log + [Routed(e)];
    TrackOf(s, e.key) == Forwarded && !w.engineHandles(log, e, false) && ArrowSym(e.keysym) &&
    w.hasCandidates(log + [ToEngine(e.key, false, false)])
  }

  /** The ways a key can be left down in the application on an orderly run. */
  ghost predicate Exceptional(w: World, s: State, m: Step) {
    match m
    case Deliver(e) =>
      s.grab.Some? && !e.isPress && e.key < MAX_TRACKED_KEYS && e.key in AppDown(s.log) &&
      (!VkUsable(s) || KeptForCandidates(w, s, e))
    case Orphan(e) =>
      s.grab.Some? && TrackOf(s, e.key) == Forwarded && e.key in AppDown(s.log) && !VkUsable(s)
    case Reset => BoundaryUncovers(s)
    case Regrab(_, _) => BoundaryUncovers(s)
    case Resume => BoundaryUncovers(s)
    case _ => false
  }

  lemma ExceptionsOnly(w: World, s: State, m: Step)
    requires Shape(s) && Covered(s) && TextHeld(s) && Orderly(s, m)
    ensures Uncovers(w, s, m) <==> Exceptional(w, s, m)
  {
    hide BoundaryUncovers, PressTrack, ReleaseEntries, Shape, KeptForCandidates, VkUsable, AppDown, RouterHeld;
    if m.Deliver? && s.grab.Some? && m.e.key < MAX_TRACKED_KEYS && m.e.key in AppDown(s.log) {
      assert AppHeld(TrackOf(s, m.e.key));
      HeldKeyStays(w, s, m.e);
    }
  }

  /** A key the application holds: a press of it is latched, unless it is text; its release is sent but
      for an unusable keyboard and the candidates. */
  lemma HeldKeyStays(w: World, s: State, e: KeyEvent)
    requires s.grab.Some? && AppHeld(TrackOf(s, e.key))
    ensures TrackOf(s, e.key) != BasicPassthrough ==> AppHeld(PressTrack(w, s, e))
    ensures WireKey(e.key, false) !in ReleaseEntries(w, s, e) <==> !VkUsable(s) || KeptForCandidates(w, s, e)
  {
    hide ArrowSym;
  }

  /** No stuck key. On every run in which presses and releases of each key alternate at the router,
      the application's tracked keys are covered throughout if and only if no exceptional step is
      taken. */
  lemma NoStuckKey(w: World, s: State, ms: seq<Step>)
    requires Initial(s) && OrderlyRun(w, s, ms)
    ensures AlwaysCovered(w, s, ms) <==>
            forall i :: 0 <= i < |ms| ==> !Exceptional(w, At(w, s, ms, i), ms[i])
  {
    hide Shape, Exceptional, Uncovers, At;
    if AlwaysCovered(w, s, ms) {
      forall i | 0 <= i < |ms| ensures !Exceptional(w, At(w, s, ms, i), ms[i]) {
        RunCovered(w, s, ms);
        RunInvariants(w, s, ms, i);
        RunText(w, s, ms, i);
        ExceptionsOnly(w, At(w, s, ms, i), ms[i]);
      }
    }
    if forall i :: 0 <= i < |ms| ==> !Exceptional(w, At(w, s, ms, i), ms[i]) {
      forall i: nat | i <= |ms| ensures Covered(At(w, s, ms, i)) { UnexceptionalCovered(w, s, ms, i); }
    }
  }

  lemma {:induction false} UnexceptionalCovered(w: World, s: State, ms: seq<Step>, i: nat)
    requires Initial(s) && OrderlyRun(w, s, ms) && i <= |ms|
    requires forall j :: 0 <= j < |ms| ==> !Exceptional(w, At(w, s, ms, j), ms[j])
    ensures Covered(At(w, s, ms, i))
  {
    hide Shape, Exceptional, Uncovers, At, Apply, Held, TextHeld, EngineOk, Quiescent, Orderly;
    if i == 0 {
      CoveredUpTo(w, s, ms, 0);
    } else {
      var t := At(w, s, ms, i - 1);
      UnexceptionalCovered(w, s, ms, i - 1);
      RunInvariants(w, s, ms, i - 1);
      RunText(w, s, ms, i - 1);
      assert Orderly(t, ms[i - 1]);
      ExceptionsOnly(w, t, ms[i - 1]);
      AtNext(w, s, ms, i - 1);
      StepSafe(w, t, ms[i - 1]);
    }
  }

  /** And if no chord settles an auto-repeating key either, each key the application sees as down is
      held at the router under the current grab: pressed there and its release not yet accepted. */
  lemma DownHeldAtRouter(w: World, s: State, ms: seq<Step>, i: nat, k: nat)
    requires Initial(s) && AlwaysCovered(w, s, ms) && NeverGhosts(w, s, ms)
    requires i <= |ms| && k < MAX_TRACKED_KEYS && k in AppDown(At(w, s, ms, i).log)
    ensures k in RouterHeld(At(w, s, ms, i).log)
  {
    hide At;
    HeldUpTo(w, s, ms, i);
    assert AppHeld(TrackOf(At(w, s, ms, i), k));
  }

  /** Keys outside the table: nothing remembers their press, so a release clears the application
      only when it qualifies for boundary cleanup. */
  lemma UntrackedKeyStuck(w: World, s: State, e: KeyEvent)
    requires Shape(s) && s.grab.Some? && !e.isPress && e.key >= MAX_TRACKED_KEYS && e.key in AppDown(s.log)
    ensures e.key in AppDown(ProcessRelease(w, s, e).log) <==> !(OrphanForwarded(s, e) && VkUsable(s))
  {
    hide ProcessRelease, OrphanForwarded, Entitled, RouterHeld, KeyWire, Paired;
    ReleaseAfterBoundary(w, s, e);
    var mid := s.log + [Routed(e)];
    LogStep(s.log, Routed(e));
    if OrphanForwarded(s, e) && VkUsable(s) {
      LogStep(mid, WireKey(e.key, false));
      LogStep(mid + [WireKey(e.key, false)], Freed(e.key));
    } else {
      LogStep(mid, Freed(e.key));
      assert mid + [] == mid;
    }
  }

  // ---- the engine over whole runs ----

  /** Entry j gave the engine key k, and nothing since took it back. */
  ghost predicate Grants(log: Log, j: nat, k: nat) {
    && j < |log|
    && ((log[j].ToEngine? && log[j].press && log[j].key == k) || log[j] == Stopped(k))
    && forall i :: j < i < |log| ==> log[i] != Freed(k) && log[i] != Boundary
  }

  /** What entitlement means in terms of the log alone. */
  lemma {:induction false} EntitledMeans(log: Log, k: nat)
    ensures k in Entitled(log) <==> exists j :: Grants(log, j, k)
  {
    if log != [] {
      var n := |log| - 1;
      EntitledMeans(log[..n], k);
      if j: nat :| Grants(log[..n], j, k) && log[n] != Freed(k) && log[n] != Boundary {
        assert Grants(log, j, k);
      }
      if (log[n].ToEngine? && log[n].press && log[n].key == k) || log[n] == Stopped(k) {
        assert Grants(log, n, k);
      }
      if j: nat :| Grants(log, j, k) && j < n {
        assert Grants(log[..n], j, k);
      }
    }
  }

  /** Engine pairing. On every run, each release handed to the engine follows a press of that key
      handed to the engine (or an emergency exit) with no settled release and no boundary between. */
  lemma EnginePairing(w: World, s: State, ms: seq<Step>, i: nat)
    requires Initial(s)
    requires var log := Run(w, s, ms).log; i < |log| && log[i].ToEngine? && !log[i].press
    ensures exists j :: Grants(Run(w, s, ms).log[..i], j, Run(w, s, ms).log[i].key)
  {
    hide Shape, Run;
    assert ms[..|ms|] == ms;
    RunInvariants(w, s, ms, |ms|);
    EntitledMeans(Run(w, s, ms).log[..i], Run(w, s, ms).log[i].key);
  }
}
