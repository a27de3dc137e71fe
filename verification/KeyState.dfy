/**
 The rest of the state after every step: what KeyTrace says of the log and of
 the tracking table, this module says of the generations, the virtual keyboard,
 the grab record and the flags. Together they fix each step entirely.
 */
module KeyState {
  import opened KeyTypes
  import opened KeySpec
  import opened KeyTrace

  // ---- one attempt to send ----

  /** The virtual keyboard, the stop flag and the grab's liveness after an operation that tried to send
      or did not: an open keyboard is ready afterwards, and a broken one stops the daemon. */
  ghost predicate Tried(s: State, r: State, tried: bool) {
    var stops := tried && !Open(s) && s.vk.state == Broken;
    && (!tried ==> r.vk == s.vk)
    && r.vk.present == s.vk.present && r.vk.keymapGeneration == s.vk.keymapGeneration
    && r.vk.state == (if tried && Open(s) then Ready else s.vk.state)
    && r.vk.deadline == (if tried && Open(s) && s.vk.state != Ready then 0 else s.vk.deadline)
    && r.running == (s.running && !stops)
    && r.grab.Some? == s.grab.Some?
    && (s.grab.Some? ==> r.grab.value.live == (s.grab.value.live && !(stops && s.running)))
  }

  /** An operation that keeps to the table, the keyboard, the stop flag, the grab record and the log. */
  ghost predicate Routes(s: State, r: State) {
    r == s.(track := r.track, gens := r.gens, owned := r.owned, vk := r.vk, running := r.running, grab := r.grab,
            log := r.log)
  }

  /** The grab record, but for its liveness. */
  ghost predicate GrabIs(r: State, g: Grab) {
    r.grab.Some? && r.grab.value == g.(live := r.grab.value.live)
  }

  lemma StopTried(s: State, vk: VirtualKeyboard)
    requires !Open(s) && s.vk.state == Broken && vk == s.vk.(dropCount := vk.dropCount)
    ensures var r := FailSafe(s.(vk := vk));
            && Tried(s, r, true) && r == s.(vk := vk, running := r.running, grab := r.grab)
            && (s.grab.Some? ==> GrabIs(r, s.grab.value))
  {
    if s.grab.Some? {
      assert s.grab.value == s.grab.value.(live := s.grab.value.live);
    }
  }

  lemma PassTried(s: State, vk: VirtualKeyboard)
    requires if Open(s) then
               && vk == s.vk.(state := Ready, deadline := vk.deadline, dropCount := vk.dropCount)
               && vk.deadline == (if s.vk.state == Ready then s.vk.deadline else 0)
             else s.vk.state != Broken && vk == s.vk.(dropCount := vk.dropCount)
    ensures Tried(s, s.(vk := vk), true) && (s.grab.Some? ==> GrabIs(s.(vk := vk), s.grab.value))
  {
  }

  lemma GateTried(s: State)
    ensures var r := VkGate(s);
            && Tried(s, r, true) && r == s.(vk := r.vk, running := r.running, grab := r.grab)
            && (s.grab.Some? ==> GrabIs(r, s.grab.value))
  {
    hide Tried, FailSafe, GrabIs;
    var dropped := s.vk.(dropCount := s.vk.dropCount + 1);
    if !Open(s) && s.vk.state == Broken {
      StopTried(s, dropped);
    } else {
      PassTried(s, VkGate(s).vk);
    }
  }

  lemma SendTried(s: State, o: Obs)
    ensures var r := Send(s, o);
            && Tried(s, r, true) && r == s.(vk := r.vk, running := r.running, grab := r.grab, log := r.log)
            && (s.grab.Some? ==> GrabIs(r, s.grab.value))
  {
    hide VkGate, Tried, Observed, Open;
    GateTried(s);
    EmitTried(s, VkGate(s), o);
  }

  lemma EmitTried(s: State, m: State, o: Obs)
    requires Tried(s, m, true)
    ensures Tried(s, Emit(m, o), true)
  {
    hide Observed, Open;
  }

  // ---- one operation after the other ----

  /** From s to r: this is the grab record now, an attempt was made or not, and nothing else moved. */
  ghost predicate Moved(s: State, r: State, g: Grab, tried: bool) {
    Routes(s, r) && GrabIs(r, g) && Tried(s, r, tried)
  }

  lemma Started(s: State)
    ensures Tried(s, s, false) && (s.grab.Some? ==> Moved(s, s, s.grab.value, false))
  {
  }

  /** An edit of the table, the log or the grab record. */
  lemma Edited(s: State, m: State, r: State, g: Grab, h: Grab, tried: bool)
    requires Moved(s, m, g, tried) && r.grab.Some? && r.grab.value == h.(live := m.grab.value.live)
    requires r == m.(track := r.track, gens := r.gens, owned := r.owned, log := r.log, grab := r.grab)
    ensures Moved(s, r, h, tried)
  {
    hide Open;
  }

  /** An edit of the table or the log. */
  lemma Wrote(s: State, m: State, r: State, g: Grab, tried: bool)
    requires Moved(s, m, g, tried)
    requires r == m.(track := r.track, gens := r.gens, owned := r.owned, log := r.log)
    ensures Moved(s, r, g, tried)
  {
    Edited(s, m, r, g, g, tried);
  }

  /** An attempt to send. */
  lemma SentOn(s: State, m: State, g: Grab, k: nat, pressed: bool)
    requires Moved(s, m, g, false)
    ensures var r := ForwardKey(m, k, pressed); Moved(s, r, g, true) && r.gens == m.gens && r.owned == m.owned
  {
    hide Send;
    SendTried(m, WireKey(k, pressed));
    assert Open(m) == Open(s);
    hide Open;
  }

  lemma EmitAside(s: State, o: Obs)
    ensures Emit(s, o) == s.(log := s.log + [o])
  {
  }

  // ---- presses ----

  /** The press tries to send. */
  predicate PressTries(w: World, log: Log, d: Decision, e: KeyEvent) {
    d in {Resend, Shortcut, Text} || (d == Offer && OfferForwards(w, log, e))
  }

  /** The grab record after a press was decided: the startup guard's counter and flag. */
  function PressGuard(g: Grab, d: Decision): Grab {
    if d in {Ignore, Resend} then g
    else if d == Hold then g.(suppressedCount := g.suppressedCount + 1)
    else if g.suppressedCount == 0 then g.(suppressStale := false)
    else g
  }

  function PutGen(gens: seq<nat>, key: nat, g: nat): seq<nat> {
    if key < |gens| then gens[key := g] else gens
  }

  /** What a press leaves, but for the log and the table; only the emergency exit makes no attempt and yet
      stops the daemon. */
  ghost predicate PressLeaves(s: State, r: State, g: Grab, d: Decision, tried: bool) {
    && Routes(s, r) && GrabIs(r, g) && (d != Exit ==> Tried(s, r, tried))
    && (d == Exit ==> r.vk == s.vk && !r.running && !r.grab.value.live)
  }

  /** Passed on, its key then tracked. */
  lemma SentPress(s: State, m: State, g: Grab, k: nat, t: Track)
    requires Moved(s, m, g, false)
    ensures var r := SetTrack(ForwardKey(m, k, true), k, t);
            Moved(s, r, g, true) && r.gens == m.gens && r.owned == m.owned
  {
    hide ForwardKey, Moved;
    SentOn(s, m, g, k, true);
    Wrote(s, ForwardKey(m, k, true), SetTrack(ForwardKey(m, k, true), k, t), g, true);
  }

  lemma QuietPress(s: State, m: State, g: Grab, e: KeyEvent)
    requires Moved(s, m, g, false) && e.isPress
    ensures Moved(s, AskEngine(m, e, false), g, false)
    ensures Moved(s, SetTrack(Emit(m, VoiceStart(e.key)), e.key, VoicePtt), g, false)
    ensures Moved(s, SetTrack(m, e.key, VoicePttUnavailable), g, false)
  {
    hide Moved, Observed;
    Wrote(s, m, AskEngine(m, e, false), g, false);
    Wrote(s, m, SetTrack(Emit(m, VoiceStart(e.key)), e.key, VoicePtt), g, false);
    Wrote(s, m, SetTrack(m, e.key, VoicePttUnavailable), g, false);
  }

  lemma ExitLeaves(s: State, m: State, g: Grab, k: nat)
    requires Moved(s, m, g, false)
    ensures PressLeaves(s, ReleaseGrab(Emit(m, Stopped(k))).(running := false), g, Exit, false)
  {
    hide Observed, Open;
  }

  lemma VerdictLeaves(w: World, s: State, m: State, g: Grab, e: KeyEvent)
    requires Moved(s, m, g, false) && m.grab.Some? && e.isPress
    ensures var r := RoutePassed(w, m, e); var d := Verdict(w, m.log, m.shortcuts, e);
            PressLeaves(s, r, g, d, PressTries(w, m.log, d, e)) && r.gens == m.gens && r.owned == m.owned
  {
    hide ForwardKey, RoutePassed, Verdict, OfferForwards, Routes, GrabIs, Tried, Observed;
    PassedCases(w, m, e);
    VerdictPasses(w, m.log, m.shortcuts, e);
    SentPress(s, m, g, e.key, AppShortcut);
    SentPress(s, m, g, e.key, BasicPassthrough);
    QuietPress(s, m, g, e);
    ExitLeaves(s, m, g, e.key);
    SentPress(s, AskEngine(m, e, false), g, e.key, Forwarded);
  }

  /** The two ways of a press that is no latch. */
  lemma FreshCases(w: World, s: State, e: KeyEvent)
    requires s.grab.Some?
    ensures var g := s.grab.value;
            if g.suppressStale && Early(g, s.epoch) then
              RouteFresh(w, s, e) == SetTrack(Claim(s, e.key), e.key, SuppressedStartup).(
                grab := Some(PressGuard(g, Hold)))
            else
              RouteFresh(w, s, e) == RoutePassed(w, Claim(s, e.key).(grab := Some(PressGuard(g, Offer))), e)
  {
    hide RoutePassed, SetTrack;
    assert Claim(s, e.key).(grab := Some(s.grab.value)) == Claim(s, e.key) by { ClaimGrab(s, e.key); }
  }

  lemma ClaimGrab(s: State, k: nat)
    requires s.grab.Some?
    ensures Claim(s, k).(grab := Some(s.grab.value)) == Claim(s, k)
  {
  }

  lemma HeldLeaves(s: State, a: State, k: nat)
    requires s.grab.Some? && Moved(s, a, s.grab.value, false) && a == s.(log := a.log)
    ensures var r := SetTrack(Claim(a, k), k, SuppressedStartup).(grab := Some(PressGuard(s.grab.value, Hold)));
            && Moved(s, r, PressGuard(s.grab.value, Hold), false)
            && r.gens == PutGen(s.gens, k, s.activeGeneration) && r.owned
  {
    hide Moved;
    var g := s.grab.value;
    var r := SetTrack(Claim(a, k), k, SuppressedStartup).(grab := Some(PressGuard(g, Hold)));
    Edited(s, a, r, g, PressGuard(g, Hold), false);
  }

  lemma FreshLeaves(w: World, s: State, a: State, e: KeyEvent)
    requires s.grab.Some? && a == s.(log := a.log) && e.isPress
    ensures var r := RouteFresh(w, a, e);
            var d := if s.grab.value.suppressStale && Early(s.grab.value, s.epoch) then Hold
                     else Verdict(w, a.log, s.shortcuts, e);
            && PressLeaves(s, r, PressGuard(s.grab.value, d), d, PressTries(w, a.log, d, e))
            && r.gens == PutGen(s.gens, e.key, s.activeGeneration) && r.owned
  {
    hide RouteFresh, RoutePassed, Verdict, Routes, GrabIs, Tried, Early, OfferForwards;
    var g := s.grab.value;
    FreshCases(w, a, e);
    Started(s);
    Wrote(s, s, a, g, false);
    if g.suppressStale && Early(g, s.epoch) {
      hide Claim;
      HeldLeaves(s, a, e.key);
    } else {
      var m := Claim(a, e.key).(grab := Some(PressGuard(g, Offer)));
      Edited(s, a, m, g, PressGuard(g, Offer), false);
      VerdictPasses(w, a.log, s.shortcuts, e);
      VerdictLeaves(w, s, m, PressGuard(g, Offer), e);
    }
  }

  /** The timer starts on a press whose key may repeat, unless Ctrl, Alt or Super is held. */
  function PressTimer(w: World, log: Log, g: Grab, e: KeyEvent, t: Track): Grab {
    if t != SuppressedStartup && t != ReleasedPending && w.startsRepeat(log, e) && !ChordHeld(e.mods) then
      g.(repeating := true, repeatKey := e.key, repeatTime := e.time)
    else g
  }

  lemma RoutedLeaves(w: World, s: State, e: KeyEvent)
    requires s.grab.Some? && e.isPress
    ensures var r := RoutePress(w, s, e); var d := PressDecision(w, s, e); var log := s.log + [Routed(e)];
            && PressLeaves(s, r, PressGuard(s.grab.value, d), d, PressTries(w, log, d, e))
            && r.owned == (s.owned || d !in {Ignore, Resend})
            && r.gens == (if d in {Ignore, Resend} then s.gens else PutGen(s.gens, e.key, s.activeGeneration))
  {
    hide RouteFresh, ForwardKey, Verdict, Emit, Early, PutGen, Routes, GrabIs, Tried, OfferForwards;
    var a := Emit(s, Routed(e));
    EmitAside(s, Routed(e));
    FreshLeaves(w, s, a, e);
    VerdictPasses(w, a.log, s.shortcuts, e);
    Started(s);
    Wrote(s, s, a, s.grab.value, false);
    SentOn(s, a, s.grab.value, e.key, true);
  }

  /** A press, whole: the state but for the log and the table, which PressTrace gives. */
  lemma PressState(w: World, s: State, e: KeyEvent)
    requires s.grab.Some? && e.isPress
    ensures var r := ProcessPress(w, s, e); var d := PressDecision(w, s, e); var log := s.log + [Routed(e)];
            && Routes(s, r) && r.owned == (s.owned || d !in {Ignore, Resend})
            && r.gens == (if d in {Ignore, Resend} then s.gens else PutGen(s.gens, e.key, s.activeGeneration))
            && GrabIs(r, PressTimer(w, r.log, PressGuard(s.grab.value, d), e, TrackOf(r, e.key)))
            && (d != Exit ==> Tried(s, r, PressTries(w, log, d, e)))
            && (d == Exit ==> r.vk == s.vk && !r.running && !r.grab.value.live)
  {
    hide RoutePress, PressDecision, PressTries, PressGuard, Open;
    RoutedLeaves(w, s, e);
  }

  // ---- releases ----

  /** The release tries to send. */
  predicate ReleaseTries(w: World, s: State, e: KeyEvent)
    requires s.grab.Some?
  {
    match TrackOf(s, e.key)
    case Forwarded =>
      var log := s.log + [Routed(e)];
      !(!w.engineHandles(log, e, false) && ArrowSym(e.keysym) &&
        w.hasCandidates(log + [ToEngine(e.key, false, false)]))
    case Idle =>
      !(s.activeGeneration != 0 && GenerationOf(s, e.key) == s.activeGeneration) && OrphanGoesOn(s, e)
    case _ => TrackOf(s, e.key) in {SuppressedStartup, AppShortcut, BasicPassthrough}
  }

  /** The grab record after a release: the timer stops for its own key; a suppressed key is counted down;
      the guard is lifted with the last suppressed key, or when a key this grab saw pressed is let go. */
  function ReleaseGrabRecord(s: State, e: KeyEvent): Grab
    requires s.grab.Some?
  {
    var g := s.grab.value;
    var quiet := g.(repeating := g.repeating && g.repeatKey != e.key);
    match TrackOf(s, e.key)
    case SuppressedStartup =>
      var n := if g.suppressedCount > 0 then g.suppressedCount - 1 else 0;
      quiet.(suppressedCount := n, suppressStale := g.suppressStale && n != 0)
    case Idle =>
      if s.activeGeneration != 0 && GenerationOf(s, e.key) == s.activeGeneration then
        quiet.(suppressStale := g.suppressStale && g.suppressedCount != 0)
      else quiet
    case _ => quiet
  }

  /** One key settled: cleared, with this grab record, and an attempt made or not. */
  ghost predicate Settles(s: State, r: State, k: nat, g: Grab, tried: bool) {
    Moved(s, r, g, tried) && r.owned == s.owned && r.gens == PutGen(s.gens, k, 0)
  }

  /** Cleared, perhaps another guard, perhaps another entry in the log; then perhaps sent. */
  lemma ClearedThen(s: State, m: State, k: nat, g: Grab)
    requires s.grab.Some? && m == ClearTracking(s, k).(grab := m.grab, log := m.log)
    requires m.grab.Some? && m.grab.value == g && g.live == s.grab.value.live
    ensures Settles(s, m, k, g, false) && Settles(s, ForwardKey(m, k, false), k, g, true)
  {
    hide ForwardKey, Moved;
    Started(s);
    Edited(s, s, m, s.grab.value, g, false);
    SentOn(s, m, g, k, false);
  }

  /** Sent, then cleared. */
  lemma SentThen(s: State, k: nat)
    requires s.grab.Some?
    ensures Settles(s, ClearTracking(ForwardKey(s, k, false), k), k, s.grab.value, true)
  {
    hide ForwardKey, Moved;
    Started(s);
    SentOn(s, s, s.grab.value, k, false);
    var sent := ForwardKey(s, k, false);
    Wrote(s, sent, ClearTracking(sent, k), s.grab.value, true);
  }

  /** The grab record after the body of a release, which leaves the timer alone. */
  function BodyGrab(s: State, e: KeyEvent): Grab
    requires s.grab.Some?
  {
    ReleaseGrabRecord(s, e).(repeating := s.grab.value.repeating)
  }

  /** The body of a release tries to send. */
  predicate BodyTries(w: World, s: State, e: KeyEvent)
    requires s.grab.Some?
  {
    match TrackOf(s, e.key)
    case Forwarded => !CandidateKeeps(w, s, e, false)
    case Idle => !OwnedByActive(s, e.key) && OrphanForwarded(s, e)
    case _ => TrackOf(s, e.key) in {SuppressedStartup, AppShortcut, BasicPassthrough}
  }

  /** The guard is lifted when no suppressed key is left. */
  lemma LiftedIs(m: State, g: Grab)
    ensures ClearStaleFlag(m.(grab := Some(g))) ==
            m.(grab := Some(Lifted(g)))
    ensures Lifted(g) == Lifted(g).(live := g.live)
  {
    assert !g.suppressStale || g.suppressedCount != 0 ==> g == Lifted(g);
  }

  lemma SuppressedBody(w: World, s: State, e: KeyEvent)
    requires s.grab.Some? && TrackOf(s, e.key) == SuppressedStartup
    ensures Settles(s, RouteReleaseBody(w, s, e), e.key, BodyGrab(s, e), true)
  {
    hide ForwardKey, ClearTracking, Settles, ClearStaleFlag, TrackOf;
    var g := s.grab.value;
    var n := if g.suppressedCount > 0 then g.suppressedCount - 1 else 0;
    var cleared := ClearTracking(s, e.key);
    LiftedIs(cleared, g.(suppressedCount := n));
    ClearedThen(s, cleared.(grab := Some(BodyGrab(s, e))), e.key, BodyGrab(s, e));
  }

  lemma IdleBody(w: World, s: State, e: KeyEvent)
    requires s.grab.Some? && !e.isPress && TrackOf(s, e.key) == Idle
    ensures Settles(s, RouteReleaseBody(w, s, e), e.key, BodyGrab(s, e), BodyTries(w, s, e))
  {
    var g := s.grab.value;
    if OwnedByActive(s, e.key) {
      OwnedBody(w, s, e);
    } else {
      hide ForwardKey, ClearTracking, Settles, OrphanForwarded, OwnedByActive, TrackOf, GenerationOf;
      SentThen(s, e.key);
      ClearAside(s, e.key);
      ClearedThen(s, ClearTracking(s, e.key), e.key, g);
      assert BodyGrab(s, e) == g by { OrphanGrab(s, e); }
    }
  }

  lemma OrphanGrab(s: State, e: KeyEvent)
    requires s.grab.Some? && TrackOf(s, e.key) == Idle
    ensures !OwnedByActive(s, e.key) ==> BodyGrab(s, e) == s.grab.value
    ensures OwnedByActive(s, e.key) ==> BodyGrab(s, e) == Lifted(s.grab.value)
  {
    hide TrackOf, GenerationOf;
  }

  function Lifted(g: Grab): Grab { g.(suppressStale := g.suppressStale && g.suppressedCount != 0) }

  lemma OwnedIs(w: World, s: State, e: KeyEvent)
    requires s.grab.Some? && TrackOf(s, e.key) == Idle && OwnedByActive(s, e.key)
    ensures RouteReleaseBody(w, s, e) ==
            ClearTracking(AskEngine(s.(grab := Some(Lifted(s.grab.value))), e, false), e.key)
  {
    hide ClearStaleFlag, TrackOf, OwnedByActive, OrphanForwarded, ForwardKey, Observed, ClearTracking, AskEngine;
    LiftedIs(s, s.grab.value);
    assert s.(grab := Some(s.grab.value)) == s;
  }

  lemma OwnedBody(w: World, s: State, e: KeyEvent)
    requires s.grab.Some? && !e.isPress && TrackOf(s, e.key) == Idle && OwnedByActive(s, e.key)
    ensures Settles(s, RouteReleaseBody(w, s, e), e.key, BodyGrab(s, e), false)
  {
    hide RouteReleaseBody, Observed, BodyGrab, Moved, TrackOf, OwnedByActive, Lifted;
    var g := s.grab.value;
    OwnedIs(w, s, e);
    OrphanGrab(s, e);
    var m := s.(grab := Some(Lifted(g)));
    var asked := AskEngine(m, e, false);
    Started(s);
    assert Lifted(g) == Lifted(g).(live := g.live) by { LiftedIs(s, g); }
    Edited(s, s, m, g, Lifted(g), false);
    Wrote(s, m, asked, Lifted(g), false);
    Wrote(s, asked, ClearTracking(asked, e.key), Lifted(g), false);
  }

  lemma PlainBody(w: World, s: State, e: KeyEvent)
    requires s.grab.Some? && !e.isPress && TrackOf(s, e.key) !in {Idle, SuppressedStartup}
    ensures Settles(s, RouteReleaseBody(w, s, e), e.key, BodyGrab(s, e), BodyTries(w, s, e))
  {
    hide ForwardKey, Settles, Observed, CandidateKeeps;
    var g := s.grab.value;
    var cleared := ClearTracking(s, e.key);
    ClearedThen(s, cleared, e.key, g);
    ClearedThen(s, AskEngine(cleared, e, false), e.key, g);
    ClearedThen(s, ClearTracking(Emit(s, VoiceStop(e.key)), e.key), e.key, g);
    SameLogKeeps(w, cleared, s, e);
    assert g == BodyGrab(s, e);
  }

  lemma BodyState(w: World, s: State, e: KeyEvent)
    requires s.grab.Some? && !e.isPress
    ensures Settles(s, RouteReleaseBody(w, s, e), e.key, BodyGrab(s, e), BodyTries(w, s, e))
  {
    hide RouteReleaseBody, Settles, BodyGrab, CandidateKeeps, OrphanForwarded;
    match TrackOf(s, e.key)
    case Idle => IdleBody(w, s, e);
    case SuppressedStartup => SuppressedBody(w, s, e);
    case _ => PlainBody(w, s, e);
  }

  /** The words of the body and of the whole release. */
  lemma BodyWords(w: World, s: State, a: State, e: KeyEvent)
    requires s.grab.Some? && a.grab.Some? && !e.isPress
    requires a == s.(grab := a.grab, log := s.log + [Routed(e)])
    requires a.grab.value == s.grab.value.(repeating := s.grab.value.repeating && s.grab.value.repeatKey != e.key)
    ensures BodyTries(w, a, e) == ReleaseTries(w, s, e)
  {
    hide TrackOf, GenerationOf, OrphanForwarded, ArrowSym, IsNavigation, Observed;
    assert TrackOf(a, e.key) == TrackOf(s, e.key) && GenerationOf(a, e.key) == GenerationOf(s, e.key) by {
      SameEntry(s, a, e.key);
    }
    OrphanWords(a, e);
    SameWords(e.keysym, e.mods, Binding(e.mods, 0), 0);
  }

  lemma BodyRecord(s: State, a: State, e: KeyEvent)
    requires s.grab.Some? && a.grab.Some? && a == s.(grab := a.grab, log := a.log)
    requires a.grab.value == s.grab.value.(repeating := s.grab.value.repeating && s.grab.value.repeatKey != e.key)
    ensures BodyGrab(a, e) == ReleaseGrabRecord(s, e)
  {
    hide TrackOf, GenerationOf;
    assert TrackOf(a, e.key) == TrackOf(s, e.key) && GenerationOf(a, e.key) == GenerationOf(s, e.key) by {
      SameEntry(s, a, e.key);
    }
  }

  lemma SameEntry(s: State, a: State, k: nat)
    requires a.track == s.track && a.gens == s.gens
    ensures TrackOf(a, k) == TrackOf(s, k) && GenerationOf(a, k) == GenerationOf(s, k)
  {
  }

  /** A release, whole: the state but for the log and the table, which ReleaseTrace gives. */
  lemma ReleaseState(w: World, s: State, e: KeyEvent)
    requires s.grab.Some? && !e.isPress
    ensures Settles(s, ProcessRelease(w, s, e), e.key, ReleaseGrabRecord(s, e), ReleaseTries(w, s, e))
  {
    hide RouteReleaseBody, ReleaseTries, ReleaseGrabRecord, BodyGrab, BodyTries, Observed, Open;
    var a := Accepted(s, e);
    AcceptedLog(s, e);
    BodyWords(w, s, a, e);
    BodyRecord(s, a, e);
    BodyState(w, a, e);
    assert Open(a) == Open(s) by { OpenAside(s, a.grab, a.log); }
  }

  // ---- the repeat timer ----

  /** The tick tries to send. */
  predicate TickTries(w: World, s: State, e: KeyEvent)
    requires s.grab.Some?
  {
    match TrackOf(s, e.key)
    case Forwarded => true
    case BasicPassthrough => true
    case AppShortcut => ChordHeld(s.grab.value.physical)
    case SuppressedStartup => false
    case ReleasedPending => false
    case _ => TickDeclined(w, s.log, e)
  }

  /** The tick finds that its timer should not be running. */
  predicate TickStops(s: State, timerRead: bool, focused: bool)
    requires s.grab.Some?
  {
    var g := s.grab.value;
    var t := TrackOf(s, g.repeatKey);
    || s.phase != Active
    || (timerRead &&
        (!g.xkbLoaded || !focused || t == SuppressedStartup || t == ReleasedPending ||
         (t == AppShortcut && !ChordHeld(g.physical))))
  }

  lemma FireState(w: World, s: State, e: KeyEvent)
    requires s.grab.Some? && e.isPress
    ensures var r := RepeatFire(w, s, e); var g := s.grab.value; var t := TrackOf(s, e.key);
            var stops := t == SuppressedStartup || t == ReleasedPending || (t == AppShortcut && !ChordHeld(g.physical));
            && Moved(s, r, if stops then g.(repeating := false) else g, TickTries(w, s, e))
            && r.gens == s.gens && r.owned == s.owned
  {
    hide ForwardKey, CandidateKeeps, TickDeclined, Moved, Observed, Open;
    var g := s.grab.value;
    Started(s);
    SentOn(s, s, g, e.key, true);
    var asked := AskEngine(s, e, true);
    Wrote(s, s, asked, g, false);
    SentPress(s, asked, g, e.key, Forwarded);
    Edited(s, s, StopRepeat(s), g, g.(repeating := false), false);
    DeclinedTick(w, s, e);
  }

  /** A tick, whole: the state but for the log and the table, which TickTrace gives. */
  lemma TickState(w: World, s: State, keysym: nat, unicode: nat, xkb: Mods, timerRead: bool, focused: bool)
    requires s.grab.Some?
    ensures var r := DispatchRepeat(w, s, keysym, unicode, xkb, timerRead, focused); var g := s.grab.value;
            && Routes(s, r) && r.gens == s.gens && r.owned == s.owned
            && GrabIs(r, g.(repeating := g.repeating && !TickStops(s, timerRead, focused)))
            && Tried(s, r, Ticks(s, timerRead, focused) && TickTries(w, s, TimerEvent(g, keysym, unicode, xkb)))
  {
    hide RepeatFire, TickTries, Tried, Routes, GrabIs;
    var g := s.grab.value;
    Started(s);
    Edited(s, s, StopRepeat(s), g, g.(repeating := false), false);
    assert g.(repeating := g.repeating) == g;
    FireState(w, s, RepeatEvent(g, keysym, unicode, xkb));
  }

  // ---- chords, modifier updates, keymaps ----

  /** One release of a chord: its key is settled like any other, by one attempt to send. */
  lemma OrphanState(s: State, e: KeyEvent)
    requires s.grab.Some?
    ensures var r := OrphanRelease(s, e);
            && (TrackOf(s, e.key) != Forwarded ==> r == s)
            && (TrackOf(s, e.key) == Forwarded ==>
                  Settles(s, r, e.key, s.grab.value, true) && r.track == Put(s.track, e.key, Idle))
  {
    hide ForwardKey, Moved, Observed;
    if TrackOf(s, e.key) == Forwarded {
      var sent := ForwardKey(s, e.key, false);
      SentThen(s, e.key);
      Wrote(s, ClearTracking(sent, e.key), OrphanRelease(s, e), s.grab.value, true);
      SentEntries(s, e.key, false, Idle);
    }
  }

  /** The grab record after a modifier update. */
  function ModifierGrab(g: Grab, d: nat, l: nat, k: nat, group: nat, before: Mods, after: Mods): Grab {
    if !g.xkbLoaded then g
    else
      g.(depressed := d, latched := l, locked := k, group := group,
         sawBlocking := g.sawBlocking || ChordHeld(after),
         repeating := g.repeating && before.ctrl == after.ctrl && before.alt == after.alt &&
                      before.super == after.super)
  }

  lemma ModifierState(s: State, d: nat, l: nat, k: nat, group: nat, before: Mods, after: Mods)
    requires s.grab.Some?
    ensures var r := OnModifiers(s, d, l, k, group, before, after);
            && r == s.(vk := r.vk, running := r.running, grab := r.grab, log := r.log) && Tried(s, r, true)
            && GrabIs(r, ModifierGrab(s.grab.value, d, l, k, group, before, after))
  {
    hide Send, Tried, Open;
    var g := ModifierGrab(s.grab.value, d, l, k, group, before, after);
    assert GrabModifiers(s.grab.value, d, l, k, group, before, after) == g by {
      ModifierWords(s.grab.value, d, l, k, group, before, after);
    }
    SendTried(s.(grab := Some(g)), WireMods(d, l, k, group));
    ModifiedTried(s, g, OnModifiers(s, d, l, k, group, before, after));
  }

  lemma ModifierWords(g: Grab, d: nat, l: nat, k: nat, group: nat, before: Mods, after: Mods)
    ensures GrabModifiers(g, d, l, k, group, before, after) == ModifierGrab(g, d, l, k, group, before, after)
    ensures ModifierGrab(g, d, l, k, group, before, after).live == g.live
  {
  }

  lemma ModifiedTried(s: State, g: Grab, r: State)
    requires s.grab.Some? && g.live == s.grab.value.live && Tried(s.(grab := Some(g)), r, true)
    ensures Tried(s, r, true)
  {
  }

  lemma KeymapState(s: State, duplicated: bool, compiled: bool)
    requires s.grab.Some?
    ensures var r := OnKeymap(s, duplicated, compiled);
            && r == s.(vk := r.vk, grab := Some(s.grab.value.(xkbLoaded := s.grab.value.xkbLoaded || compiled)))
            && r.vk.present == s.vk.present
            && (!s.vk.present ==> r.vk == s.vk)
            && (s.vk.present && duplicated ==>
                  r.vk.state == Ready && r.vk.keymapGeneration == s.activeGeneration && r.vk.deadline == 0)
            && (s.vk.present && !duplicated ==>
                  r.vk.state == Broken && r.vk.keymapGeneration == s.vk.keymapGeneration && r.vk.deadline == 0)
  {
    hide ForwardKeymap;
    ForwardedKeymap(s, duplicated);
  }

  lemma ForwardedKeymap(s: State, duplicated: bool)
    ensures var r := ForwardKeymap(s, duplicated);
            && r == s.(vk := r.vk) && r.vk.present == s.vk.present
            && (!s.vk.present ==> r.vk == s.vk)
            && (s.vk.present && duplicated ==>
                  r.vk.state == Ready && r.vk.keymapGeneration == s.activeGeneration && r.vk.deadline == 0)
            && (s.vk.present && !duplicated ==>
                  r.vk.state == Broken && r.vk.keymapGeneration == s.vk.keymapGeneration && r.vk.deadline == 0)
  {
  }

  // ---- boundaries ----

  /** Some attempt is made by the hard reset. */
  predicate ResetTries(s: State) {
    s.owned || (s.carried && s.phase != Deactivating)
  }

  /** The application has been left with carried modifiers. */
  predicate CarriedAfter(s: State) {
    Carries(s) || (s.carried && !(ResetTries(s) && Open(s)))
  }

  /** The end of a grab: nothing tracked, nothing owned; a keymap still waited for is taken as there if
      it is the current one, and no longer watched. */
  ghost predicate Ended(s: State, r: State) {
    var stops := ResetTries(s) && !Open(s) && s.vk.state == Broken;
    var sent := ResetTries(s) && Open(s);
    var current := s.vk.state == NeedsKeymap && s.activeGeneration != 0 && s.vk.keymapGeneration == s.activeGeneration;
    && r == s.(track := r.track, gens := r.gens, owned := false, carried := CarriedAfter(s), vk := r.vk,
               running := s.running && !stops, grab := None, log := r.log)
    && |r.track| == 512 && |r.gens| == 512
    && (forall k :: 0 <= k < 512 ==> r.track[k] == Idle && r.gens[k] == 0)
    && r.vk.present == s.vk.present && r.vk.keymapGeneration == s.vk.keymapGeneration
    && r.vk.state == (if sent || current then Ready else s.vk.state)
    && (s.vk.state == NeedsKeymap ==> r.vk.deadline == 0)
    && (s.vk.state != NeedsKeymap && !(sent && s.vk.state != Ready) ==> r.vk.deadline == s.vk.deadline)
  }

  /** What the wire work of the reset does to the rest. */
  ghost predicate WireDone(s: State, r: State) {
    && r == s.(track := r.track, carried := CarriedAfter(s), vk := r.vk, running := r.running, grab := r.grab,
               log := r.log)
    && Tried(s, r, ResetTries(s))
  }

  /** Clearing the modifiers: behind an open keyboard the grab's masks are zero and nothing is carried;
      otherwise only the attempt was made. */
  lemma ClearedTried(s: State)
    ensures var r := ResetModifiers(s);
            && Tried(s, r, true) && r.carried == (s.carried && !Open(s))
            && (s.grab.Some? ==>
                  GrabIs(r, if Open(s) then s.grab.value.(physical := Mods(false, false, false, false, false, false),
                                                          depressed := 0, latched := 0, locked := 0, group := 0)
                            else s.grab.value))
            && r == s.(carried := r.carried, vk := r.vk, running := r.running, grab := r.grab, log := r.log)
  {
    hide Send, VkGate;
    SendTried(s, WireMods(0, 0, 0, 0));
    GateTried(s);
  }

  /** Trying twice is trying once. */
  lemma TriedTwice(s: State, m: State, r: State, first: bool, second: bool)
    requires Tried(s, m, first) && Tried(m, r, second) && m.activeGeneration == s.activeGeneration
    ensures Tried(s, r, first || second)
  {
  }

  lemma ReleasedTried(s: State)
    ensures var r := ReleaseForwardedKeys(s);
            Tried(s, r, false) && r == s.(track := r.track, log := r.log) && Open(r) == Open(s)
  {
    hide ReleasesFor;
  }

  lemma MaskTried(s: State, d: nat, l: nat, k: nat, g: nat)
    ensures var r := ForwardModifiers(s, d, l, k, g).(carried := true);
            && Tried(s, r, true)
            && r == s.(carried := true, vk := r.vk, running := r.running, grab := r.grab, log := r.log)
  {
    hide Send;
    SendTried(s, WireMods(d, l, k, g));
  }

  lemma SettleState(s: State)
    ensures WireDone(s, SettleWire(s))
  {
    hide ResetModifiers, ReleaseForwardedKeys, ForwardModifiers, Tried, Open;
    Started(s);
    ClearedTried(s);
    var first := s.carried && s.phase != Deactivating;
    var a := if first then ResetModifiers(s) else s;
    if s.owned {
      ReleasedTried(a);
      var b := ReleaseForwardedKeys(a);
      TriedTwice(s, a, b, first, false);
      ClearedTried(b);
      TriedTwice(s, b, ResetModifiers(b), first, true);
      assert CarriesModifiers(b) == Carries(s);
      if CarriesModifiers(b) {
        var g := b.grab.value;
        MaskTried(b, g.depressed, g.latched, g.locked, g.group);
        TriedTwice(s, b, ForwardModifiers(b, g.depressed, g.latched, g.locked, g.group).(carried := true), first, true);
      }
      TriedOpen(s, a, first);
    }
  }

  lemma TriedOpen(s: State, r: State, tried: bool)
    requires Tried(s, r, tried) && r.activeGeneration == s.activeGeneration
    ensures Open(r) == Open(s)
  {
  }

  lemma TornState(s: State)
    ensures var r := KeyboardDestroy(s);
            r == s.(track := Idles(), gens := Zeros(), grab := None, log := r.log)
  {
    hide Observed, ReleasesFor;
  }

  /** A hard reset, whole: the state but for the log, which ResetTrace gives. */
  lemma ResetState(s: State)
    requires Shape(s)
    ensures Ended(s, HardReset(s))
  {
    hide SettleWire, KeyboardDestroy;
    SettleState(s);
    var settled := SettleWire(s);
    TornState(settled);
    if s.grab.None? {
      BlankTable(s);
      SettleTrace(s);
    }
    EndedAfter(s, settled, if settled.grab.Some? then KeyboardDestroy(settled) else settled);
  }

  lemma EndedAfter(s: State, settled: State, torn: State)
    requires WireDone(s, settled) && torn == settled.(track := Idles(), gens := Zeros(), grab := None, log := torn.log)
    ensures Ended(s, CancelKeymapWait(torn.(owned := false)))
  {
  }

  /** The next generation, in 32 bits and never zero. */
  function NextOf(g: nat): nat {
    if g % 0x1_0000_0000 == 0xFFFF_FFFF then 1 else g % 0x1_0000_0000 + 1
  }

  lemma NextWords(g: nat)
    ensures NextGeneration(g) == NextOf(g)
  {
  }

  /** A rebuilt grab, whole: a fresh record that suppresses stale keys exactly if there was a grab, and a
      keymap waited for from now on for at most 1500 ms. */
  lemma RebuildState(s: State, now: nat, created: bool)
    requires Shape(s)
    ensures var h := HardReset(s); var r := Rebuild(s, now, created);
            && r == h.(activeGeneration := NextOf(s.activeGeneration), vk := r.vk, grab := r.grab, log := r.log)
            && r.grab == (if created then
                            Some(Grab(true, false, Mods(false, false, false, false, false, false), 0, 0, 0, 0, false,
                                      false, 0, 0, s.grab.Some?, 0, s.epoch))
                          else None)
            && r.vk == (if created && s.vk.present then h.vk.(state := NeedsKeymap, deadline := now + 1500) else h.vk)
  {
    hide HardReset, Observed, NextGeneration;
    ResetState(s);
    NextWords(s.activeGeneration);
    BlankTable(HardReset(s));
  }

  lemma BlankTable(s: State)
    requires |s.track| == 512 && |s.gens| == 512 && forall k :: 0 <= k < 512 ==> s.track[k] == Idle && s.gens[k] == 0
    ensures s.track == Idles() && s.gens == Zeros()
  {
  }

  /** A resume, whole. */
  lemma ResumeState(s: State)
    requires Shape(s)
    ensures var h := HardReset(s); var r := OnResume(s);
            && r == h.(activeGeneration := NextOf(s.activeGeneration), carried := false, phase := Inactive,
                       pendingReactivation := false, vk := r.vk, running := r.running, log := r.log)
            && Tried(h, r, true)
  {
    hide HardReset, ResetModifiers, NextGeneration, Tried;
    ResetState(s);
    NextWords(s.activeGeneration);
    BlankTable(HardReset(s));
    ClearedTried(HardReset(s));
    ResumedTried(HardReset(s), ResetModifiers(HardReset(s)), OnResume(s));
  }

  lemma ResumedTried(s: State, m: State, r: State)
    requires Tried(s, m, true)
    ensures s.grab.None? ==> m.grab == None
    ensures r.vk == m.vk && r.running == m.running && r.grab == m.grab ==> Tried(s, r, true)
  {
  }

  /** The steps that touch neither key nor wire. A rejected press in a fail-safe stops the daemon, but not
      while activating; a rejected release stops its timer. The early exit stops it at once. A check of the
      handshake stops it exactly when a live grab's deadline has passed. */
  lemma FlagState(w: World, s: State, m: Step)
    requires s.grab.Some?
    ensures var r := Apply(w, s, m); var g := s.grab.value;
            match m
            case Reject(key, pressed, failSafe) =>
              var stops := pressed && failSafe && s.phase != Activating;
              r == s.(running := s.running && !stops,
                      grab := Some(g.(live := g.live && !stops,
                                      repeating := g.repeating && (pressed || g.repeatKey != key))))
            case EarlyExit(_) => r == s.(running := false, grab := Some(g.(live := false)))
            case Health(now) =>
              var stops := s.running && g.live && s.vk.state == NeedsKeymap && 0 < s.vk.deadline <= now;
              r == s.(running := s.running && !stops, grab := Some(g.(live := g.live && !stops)))
            case SetPhysical(mods) => r == s.(grab := Some(g.(physical := mods)))
            case Dispatched => r == s.(epoch := s.epoch + 1)
            case SwitchEngine => r == s.(log := s.log + [EngineSwitch])
            case SetPhase(phase, pending) => r == s.(phase := phase, pendingReactivation := pending)
            case Reload(shortcuts) => r == s.(shortcuts := shortcuts)
            case _ => true
  {
    hide Send, ProcessPress, ProcessRelease, OrphanRelease, DispatchRepeat, OnModifiers, OnKeymap, HardReset, Rebuild,
         OnResume, Observed, RejectKey, HealthCheck;
    match m
    case Reject(key, pressed, failSafe) => RejectState(s, key, pressed, failSafe);
    case Health(now) => HealthState(s, now);
    case _ =>
  }

  lemma RejectState(s: State, key: nat, pressed: bool, failSafe: bool)
    requires s.grab.Some?
    ensures var g := s.grab.value; var stops := pressed && failSafe && s.phase != Activating;
            RejectKey(s, key, pressed, failSafe) ==
            s.(running := s.running && !stops,
               grab := Some(g.(live := g.live && !stops,
                               repeating := g.repeating && (pressed || g.repeatKey != key))))
  {
  }

  lemma HealthState(s: State, now: nat)
    requires s.grab.Some?
    ensures var g := s.grab.value;
            var stops := s.running && g.live && s.vk.state == NeedsKeymap && 0 < s.vk.deadline <= now;
            HealthCheck(s, now) == s.(running := s.running && !stops, grab := Some(g.(live := g.live && !stops)))
  {
  }
}
