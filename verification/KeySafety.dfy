/**
 Safety of whole runs: the application never keeps a key the daemon no longer
 tracks, the engine never gets a release it is not entitled to, and the
 tracking table agrees with what is held at the router.
 */
module KeySafety {
  import opened KeyTypes
  import opened KeySpec
  import opened KeyTrace
  import opened KeyState
  import opened KeyShape

  /** Every tracked key the application sees as down is in an application-held state. */
  ghost predicate Covered(s: State) {
    forall k :: k in AppDown(s.log) && k < MAX_TRACKED_KEYS ==> AppHeld(TrackOf(s, k))
  }

  /** Only keys held at the router are tracked or repeating. */
  ghost predicate Held(s: State) {
    && (forall k :: 0 <= k < MAX_TRACKED_KEYS && TrackOf(s, k) != Idle ==> k in RouterHeld(s.log))
    && (s.grab.Some? && s.grab.value.repeating ==> s.grab.value.repeatKey in RouterHeld(s.log))
  }

  /** Every key passed on as plain text is held at the router. Unlike Held, no step breaks this. */
  ghost predicate TextHeld(s: State) {
    forall k :: 0 <= k < MAX_TRACKED_KEYS && TrackOf(s, k) == BasicPassthrough ==> k in RouterHeld(s.log)
  }

  /** Every key whose release would go to the engine is entitled to it. */
  ghost predicate EngineOk(s: State) {
    && Paired(s.log)
    && (forall k :: 0 <= k < MAX_TRACKED_KEYS && TrackOf(s, k) == Forwarded ==> k in Entitled(s.log))
    && (forall k :: 0 <= k < MAX_TRACKED_KEYS && TrackOf(s, k) == Idle && GenerationOf(s, k) != 0 ==>
          k in Entitled(s.log))
  }

  // ---- one key at a time ----

  /** Nothing changed about any key but this one. */
  ghost predicate Beside(s: State, r: State, k: nat) {
    && (forall j: nat :: j != k ==> TrackOf(r, j) == TrackOf(s, j))
    && (forall j: nat :: j != k ==> GenerationOf(r, j) == GenerationOf(s, j))
    && AppDown(r.log) - {k} == AppDown(s.log) - {k}
    && Entitled(r.log) - {k} == Entitled(s.log) - {k}
    && RouterHeld(r.log) - {k} == RouterHeld(s.log) - {k}
  }

  lemma BesideSets(s: State, r: State, k: nat)
    requires Beside(s, r, k)
    ensures forall j: nat :: j != k ==> (j in AppDown(r.log) <==> j in AppDown(s.log))
    ensures forall j: nat :: j != k ==> (j in Entitled(r.log) <==> j in Entitled(s.log))
    ensures forall j: nat :: j != k ==> (j in RouterHeld(r.log) <==> j in RouterHeld(s.log))
  {
    hide AppDown, Entitled, RouterHeld;
    forall j: nat | j != k
      ensures (j in AppDown(r.log) <==> j in AppDown(s.log)) && (j in Entitled(r.log) <==> j in Entitled(s.log)) &&
              (j in RouterHeld(r.log) <==> j in RouterHeld(s.log))
    {
      assert j in AppDown(r.log) - {k} <==> j in AppDown(s.log) - {k};
      assert j in Entitled(r.log) - {k} <==> j in Entitled(s.log) - {k};
      assert j in RouterHeld(r.log) - {k} <==> j in RouterHeld(s.log) - {k};
    }
  }

  lemma CoveredAfter(s: State, r: State, k: nat)
    requires Beside(s, r, k) && Covered(s)
    ensures Covered(r) <==> (k < MAX_TRACKED_KEYS && k in AppDown(r.log) ==> AppHeld(TrackOf(r, k)))
  {
    hide TrackOf, GenerationOf, AppDown, Entitled, RouterHeld, Paired;
    BesideSets(s, r, k);
  }

  lemma HeldAfter(s: State, r: State, k: nat)
    requires Beside(s, r, k) && Held(s)
    requires k < MAX_TRACKED_KEYS && TrackOf(r, k) != Idle ==> k in RouterHeld(r.log)
    requires r.grab.Some? && r.grab.value.repeating ==> r.grab.value.repeatKey in RouterHeld(r.log)
    ensures Held(r)
  {
    hide TrackOf, GenerationOf, AppDown, Entitled, RouterHeld, Paired;
    BesideSets(s, r, k);
  }

  lemma TextAfter(s: State, r: State, k: nat)
    requires Beside(s, r, k) && TextHeld(s)
    requires k < MAX_TRACKED_KEYS && TrackOf(r, k) == BasicPassthrough ==> k in RouterHeld(r.log)
    ensures TextHeld(r)
  {
    hide TrackOf, GenerationOf, AppDown, Entitled, RouterHeld, Paired;
    BesideSets(s, r, k);
  }

  lemma EngineAfter(s: State, r: State, k: nat)
    requires Beside(s, r, k) && EngineOk(s) && Paired(r.log)
    requires k < MAX_TRACKED_KEYS ==>
               (TrackOf(r, k) == Forwarded || (TrackOf(r, k) == Idle && GenerationOf(r, k) != 0)) ==>
                 k in Entitled(r.log)
    ensures EngineOk(r)
  {
    hide TrackOf, GenerationOf, AppDown, Entitled, RouterHeld, Paired;
    BesideSets(s, r, k);
  }

  /** One entry of the table written. */
  lemma PutAt(s: State, r: State, k: nat, t: Track, g: nat)
    ensures r.track == Put(s.track, k, t) ==>
              TrackOf(r, k) == (if k < |s.track| then t else Idle) &&
              forall j: nat :: j != k ==> TrackOf(r, j) == TrackOf(s, j)
    ensures r.gens == PutGen(s.gens, k, g) ==>
              GenerationOf(r, k) == (if k < |s.gens| then g else 0) &&
              forall j: nat :: j != k ==> GenerationOf(r, j) == GenerationOf(s, j)
    ensures r.gens == s.gens ==> forall j: nat :: GenerationOf(r, j) == GenerationOf(s, j)
  {
  }

  // ---- presses ----

  /** The entries a press or a tick of this key can add. */
  predicate OwnPress(o: Obs, k: nat) {
    o == WireKey(k, true) || (o.ToEngine? && o.key == k && o.press) || o == Stopped(k) || o == VoiceStart(k)
  }

  /** Some entry entitles its key to a release. */
  predicate Granting(xs: Log) {
    exists i :: 0 <= i < |xs| && (xs[i].ToEngine? || xs[i].Stopped?)
  }

  lemma {:induction false} PressViews(log: Log, xs: Log, k: nat)
    requires forall i :: 0 <= i < |xs| ==> OwnPress(xs[i], k)
    ensures var r := log + xs;
            && AppDown(r) == AppDown(log) + (if WireKey(k, true) in xs then {k} else {})
            && Entitled(r) == Entitled(log) + (if Granting(xs) then {k} else {})
            && RouterHeld(r) == RouterHeld(log) && (Paired(r) <==> Paired(log))
  {
    hide AppDown, Entitled, RouterHeld, KeyWire, Paired;
    if xs == [] {
      assert log + xs == log;
    } else {
      var n := |xs| - 1;
      PressViews(log, xs[..n], k);
      assert xs == xs[..n] + [xs[n]] && log + xs == log + xs[..n] + [xs[n]];
      LogStep(log + xs[..n], xs[n]);
      assert OwnPress(xs[n], k);
      GrantingLast(xs);
    }
  }

  lemma GrantingLast(xs: Log)
    requires xs != []
    ensures var n := |xs| - 1; Granting(xs) <==> Granting(xs[..n]) || xs[n].ToEngine? || xs[n].Stopped?
  {
    var n := |xs| - 1;
    if i :| 0 <= i < n && (xs[i].ToEngine? || xs[i].Stopped?) {
      assert xs[..n][i] == xs[i];
    }
    if i :| 0 <= i < n && (xs[..n][i].ToEngine? || xs[..n][i].Stopped?) {
      assert xs[i] == xs[..n][i];
    }
  }

  lemma PressOwn(w: World, s: State, e: KeyEvent)
    requires s.grab.Some?
    ensures var xs := PressEntries(w, s, e); var d := PressDecision(w, s, e);
            && (forall i :: 0 <= i < |xs| ==> OwnPress(xs[i], e.key))
            && (Granting(xs) <==> d == Offer || d == Exit)
            && (WireKey(e.key, true) in xs ==> AppHeld(PressTrack(w, s, e)))
  {
    hide Verdict, OfferForwards, Early, Open;
    VerdictPasses(w, s.log + [Routed(e)], s.shortcuts, e);
    var xs := PressEntries(w, s, e);
    assert PressDecision(w, s, e) in {Offer, Exit} ==> xs[0].ToEngine? || xs[0].Stopped?;
  }

  /** A press, whole, in the views of the log: it adds its own key to what the application sees as down
      exactly when it goes over the wire, and is then tracked as held; it entitles its key exactly when
      the engine is given it or the emergency exit taken; no other key is touched. */
  lemma PressEffect(w: World, s: State, e: KeyEvent)
    requires s.grab.Some? && e.isPress
    ensures var r := ProcessPress(w, s, e); var d := PressDecision(w, s, e);
            && AppDown(r.log) ==
               AppDown(s.log) + (if WireKey(e.key, true) in PressEntries(w, s, e) then {e.key} else {})
            && Entitled(r.log) == Entitled(s.log) + (if d == Offer || d == Exit then {e.key} else {})
            && RouterHeld(r.log) == RouterHeld(s.log) + {e.key} && (Paired(r.log) <==> Paired(s.log))
            && (WireKey(e.key, true) in PressEntries(w, s, e) ==> AppHeld(PressTrack(w, s, e)))
            && Beside(s, r, e.key)
  {
    hide ProcessPress, PressDecision, PressEntries, PressTrack, PressTries, Tried, TrackOf, GenerationOf,
         AppDown, Entitled, RouterHeld, KeyWire, Paired;
    PressTrace(w, s, e);
    PressState(w, s, e);
    LogStep(s.log, Routed(e));
    PressOwn(w, s, e);
    PressViews(s.log + [Routed(e)], PressEntries(w, s, e), e.key);
    PutAt(s, ProcessPress(w, s, e), e.key, PressTrack(w, s, e), s.activeGeneration);
  }

  /** The press takes a key the application holds out of the held states. */
  ghost predicate PressUncovers(w: World, s: State, e: KeyEvent)
    requires s.grab.Some?
  {
    e.key < MAX_TRACKED_KEYS && e.key in AppDown(s.log) && !AppHeld(PressTrack(w, s, e))
  }

  lemma PressSafe(w: World, s: State, e: KeyEvent)
    requires Shape(s) && s.grab.Some? && e.isPress
    ensures var r := ProcessPress(w, s, e);
            && (Covered(s) ==> (Covered(r) <==> !PressUncovers(w, s, e)))
            && (Held(s) ==> Held(r)) && (EngineOk(s) ==> EngineOk(r)) && (TextHeld(s) ==> TextHeld(r))
  {
    hide ProcessPress, PressEntries, PressTrack, PressDecision, Beside, TrackOf, GenerationOf, Tried, PressTries,
         Covered, EngineOk, Held, TextHeld, AppDown, Entitled, RouterHeld, Paired;
    var r := ProcessPress(w, s, e);
    PressEffect(w, s, e);
    PressTrace(w, s, e);
    PressState(w, s, e);
    ShapeSizes(s);
    PutAt(s, r, e.key, PressTrack(w, s, e), s.activeGeneration);
    if Covered(s) {
      CoveredAfter(s, r, e.key);
    }
    KeyInvariants(s, e.key);
    if Held(s) {
      HeldAfter(s, r, e.key);
    }
    if TextHeld(s) {
      TextAfter(s, r, e.key);
    }
    if EngineOk(s) {
      PressEntitles(w, s, e);
      EngineAfter(s, r, e.key);
    }
  }

  /** What the invariants say of one key, and of the timer. */
  lemma KeyInvariants(s: State, k: nat)
    ensures Held(s) && s.grab.Some? && s.grab.value.repeating ==> s.grab.value.repeatKey in RouterHeld(s.log)
    ensures EngineOk(s) ==> Paired(s.log)
    ensures Covered(s) && k < MAX_TRACKED_KEYS && k in AppDown(s.log) ==> AppHeld(TrackOf(s, k))
    ensures TextHeld(s) && k < MAX_TRACKED_KEYS && TrackOf(s, k) == BasicPassthrough ==> k in RouterHeld(s.log)
    ensures EngineOk(s) && k < MAX_TRACKED_KEYS && TrackOf(s, k) == Forwarded ==> k in Entitled(s.log)
    ensures EngineOk(s) && k < MAX_TRACKED_KEYS && TrackOf(s, k) == Idle && GenerationOf(s, k) != 0 ==>
              k in Entitled(s.log)
    ensures EngineOk(s) && |s.gens| == |s.track| == MAX_TRACKED_KEYS && ReachesEngine(s, k) ==> k in Entitled(s.log)
  {
  }

  /** A key left forwarded, or idle with a generation, is entitled to its release. */
  lemma PressEntitles(w: World, s: State, e: KeyEvent)
    requires s.grab.Some? && e.isPress && EngineOk(s) && |s.track| == MAX_TRACKED_KEYS
    ensures e.key < MAX_TRACKED_KEYS && (PressTrack(w, s, e) == Forwarded || PressTrack(w, s, e) == Idle) ==>
              e.key in Entitled(s.log) || PressDecision(w, s, e) in {Offer, Exit}
    ensures Paired(s.log)
  {
    hide OfferForwards, Early, Bound, Entitled, Paired;
  }

  // ---- releases ----

  predicate OwnRelease(o: Obs, k: nat) {
    o == WireKey(k, false) || o == ToEngine(k, false, false) || o == VoiceStop(k)
  }

  lemma {:induction false} ReleaseViews(log: Log, xs: Log, k: nat)
    requires forall i :: 0 <= i < |xs| ==> OwnRelease(xs[i], k)
    ensures var r := log + xs;
            && AppDown(r) == AppDown(log) - (if WireKey(k, false) in xs then {k} else {})
            && Entitled(r) == Entitled(log) && RouterHeld(r) == RouterHeld(log)
            && (Paired(r) <==> Paired(log) && (ToEngine(k, false, false) in xs ==> k in Entitled(log)))
  {
    hide AppDown, Entitled, RouterHeld, KeyWire, Paired;
    if xs == [] {
      assert log + xs == log;
    } else {
      var n := |xs| - 1;
      ReleaseViews(log, xs[..n], k);
      assert xs == xs[..n] + [xs[n]] && log + xs == log + xs[..n] + [xs[n]];
      LogStep(log + xs[..n], xs[n]);
      assert OwnRelease(xs[n], k);
    }
  }

  /** The release is handed to the engine. */
  predicate ReachesEngine(s: State, key: nat) {
    || TrackOf(s, key) == Forwarded
    || (TrackOf(s, key) == Idle && s.activeGeneration != 0 && GenerationOf(s, key) == s.activeGeneration)
  }

  lemma ReleaseOwn(w: World, s: State, e: KeyEvent)
    requires s.grab.Some?
    ensures var xs := ReleaseEntries(w, s, e);
            && (forall i :: 0 <= i < |xs| ==> OwnRelease(xs[i], e.key))
            && (ToEngine(e.key, false, false) in xs <==> ReachesEngine(s, e.key))
  {
    hide OrphanGoesOn, Open, ArrowSym;
    var xs := ReleaseEntries(w, s, e);
    assert ReachesEngine(s, e.key) ==> xs[0] == ToEngine(e.key, false, false);
  }

  /** A release, whole, in the views of the log: it takes its own key from what the application sees as
      down exactly when it goes over the wire, ends its being held at the router and its entitlement, and
      leaves its key idle with generation zero; no other key is touched. */
  lemma ReleaseEffect(w: World, s: State, e: KeyEvent)
    requires s.grab.Some? && !e.isPress
    ensures var r := ProcessRelease(w, s, e);
            && AppDown(r.log) ==
               AppDown(s.log) - (if WireKey(e.key, false) in ReleaseEntries(w, s, e) then {e.key} else {})
            && Entitled(r.log) == Entitled(s.log) - {e.key} && RouterHeld(r.log) == RouterHeld(s.log) - {e.key}
            && (Paired(r.log) <==> Paired(s.log) && (ReachesEngine(s, e.key) ==> e.key in Entitled(s.log)))
            && TrackOf(r, e.key) == Idle && GenerationOf(r, e.key) == 0
            && Beside(s, r, e.key)
  {
    hide ProcessRelease, ReleaseEntries, ReleaseTries, ReachesEngine, Tried, TrackOf, GenerationOf, Entitled,
         AppDown, RouterHeld, KeyWire, Paired;
    ReleaseTrace(w, s, e);
    ReleaseState(w, s, e);
    var log := s.log + [Routed(e)];
    LogStep(s.log, Routed(e));
    ReleaseOwn(w, s, e);
    ReleaseViews(log, ReleaseEntries(w, s, e), e.key);
    LogStep(log + ReleaseEntries(w, s, e), Freed(e.key));
    PutAt(s, ProcessRelease(w, s, e), e.key, Idle, 0);
  }

  /** A key the application holds stays held although its release was settled. */
  ghost predicate ReleaseUncovers(w: World, s: State, e: KeyEvent)
    requires s.grab.Some?
  {
    e.key < MAX_TRACKED_KEYS && e.key in AppDown(s.log) && WireKey(e.key, false) !in ReleaseEntries(w, s, e)
  }

  lemma ReleaseSafe(w: World, s: State, e: KeyEvent)
    requires Shape(s) && s.grab.Some? && !e.isPress
    ensures var r := ProcessRelease(w, s, e);
            && (Covered(s) ==> (Covered(r) <==> !ReleaseUncovers(w, s, e)))
            && (Held(s) ==> Held(r)) && (EngineOk(s) ==> EngineOk(r)) && (TextHeld(s) ==> TextHeld(r))
  {
    hide ProcessRelease, ReleaseEntries, ReleaseTries, ReachesEngine, Beside, Tried, TrackOf, GenerationOf, Covered,
         EngineOk, Held, TextHeld, AppDown, Entitled, RouterHeld, Paired;
    var r := ProcessRelease(w, s, e);
    ReleaseEffect(w, s, e);
    ReleaseState(w, s, e);
    if Covered(s) {
      CoveredAfter(s, r, e.key);
    }
    KeyInvariants(s, e.key);
    if Held(s) {
      HeldAfter(s, r, e.key);
    }
    if TextHeld(s) {
      TextAfter(s, r, e.key);
    }
    if EngineOk(s) {
      ShapeSizes(s);
      EngineAfter(s, r, e.key);
    }
  }

}
