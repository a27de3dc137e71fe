/**
 The boundary: what a hard reset, a rebuilt grab and a resume put on the wire,
 and what a physical release that arrives afterwards does.
 */
module KeyBoundary {
  import opened KeyTypes
  import opened KeySpec
  import opened KeyTrace
  import opened KeyState

  ghost function HeldKeys(track: seq<Track>): set<nat> {
    set k: nat | k < |track| && AppHeld(track[k])
  }

  /** Each application-held key is released exactly once and no other key is. */
  lemma {:induction false} ReleasesForOnce(track: seq<Track>, k: nat)
    ensures multiset(ReleasesFor(track))[WireKey(k, false)] == (if k in HeldKeys(track) then 1 else 0)
    ensures forall o :: o in ReleasesFor(track) ==> o.WireKey? && !o.pressed && o.key in HeldKeys(track)
  {
    if track != [] {
      var n := |track| - 1;
      ReleasesForOnce(track[..n], k);
      assert forall j: nat :: j in HeldKeys(track) <==> j in HeldKeys(track[..n]) || (j == n && AppHeld(track[n]));
    }
  }

  /** The releases move only the wire views of the log. */
  lemma {:induction false} ReleasesViews(log: Log, track: seq<Track>)
    ensures var after := log + ReleasesFor(track);
            && AppDown(after) == AppDown(log) - HeldKeys(track)
            && KeyWire(after) == KeyWire(log) + ReleasesFor(track)
            && Entitled(after) == Entitled(log) && RouterHeld(after) == RouterHeld(log)
            && (Paired(after) <==> Paired(log))
  {
    hide AppDown, Entitled, RouterHeld, KeyWire, Paired;
    if track == [] {
      assert log + [] == log;
    } else {
      var n := |track| - 1;
      ReleasesViews(log, track[..n]);
      assert forall j: nat :: j in HeldKeys(track) <==> j in HeldKeys(track[..n]) || (j == n && AppHeld(track[n]));
      var before := log + ReleasesFor(track[..n]);
      if AppHeld(track[n]) {
        LogStep(before, WireKey(n, false));
        assert log + ReleasesFor(track) == before + [WireKey(n, false)];
        assert HeldKeys(track) == HeldKeys(track[..n]) + {n};
      } else {
        assert log + ReleasesFor(track) == before;
        assert HeldKeys(track) == HeldKeys(track[..n]);
      }
    }
  }

  lemma {:induction false} NothingHeld(track: seq<Track>)
    requires forall k :: 0 <= k < |track| ==> !AppHeld(track[k])
    ensures ReleasesFor(track) == [] && HeldKeys(track) == {}
  {
    if track != [] {
      NothingHeld(track[..|track| - 1]);
    }
  }

  // ---- the entries of a boundary ----

  /** What a release pass over the tracking table does to the views of the log. */
  ghost predicate Released(s: State, r: State) {
    && AppDown(r.log) == AppDown(s.log) - (if VkCanRelease(s) then HeldKeys(s.track) else {})
    && KeyWire(r.log) == KeyWire(s.log) + (if VkCanRelease(s) then ReleasesFor(s.track) else [])
    && (Paired(r.log) <==> Paired(s.log))
    && r.vk.present == s.vk.present
  }

  /** What every boundary achieves, whether or not there was a grab to tear down. */
  ghost predicate BoundaryEffect(s: State, r: State) {
    && Released(s, r) && r.track == Idles() && r.gens == Zeros()
    && Entitled(r.log) == {} && RouterHeld(r.log) == {}
  }

  /** No grab, no key pressed in it: nothing is held at the router or owed to the engine. */
  ghost predicate Quiescent(s: State) {
    s.grab.None? ==> Entitled(s.log) == {} && RouterHeld(s.log) == {}
  }

  /** The key views of two logs are the same. */
  ghost predicate SameViews(a: Log, b: Log) {
    && AppDown(b) == AppDown(a) && KeyWire(b) == KeyWire(a) && Entitled(b) == Entitled(a)
    && RouterHeld(b) == RouterHeld(a) && (Paired(b) <==> Paired(a))
  }

  lemma MaskViews(log: Log, open_: bool, d: nat, l: nat, k: nat, g: nat)
    ensures SameViews(log, log + Mask(open_, d, l, k, g))
  {
    hide AppDown, Entitled, RouterHeld, KeyWire, Paired;
    if open_ {
      LogStep(log, WireMods(d, l, k, g));
    } else {
      assert log + [] == log;
    }
  }

  lemma BoundaryViews(log: Log)
    ensures var r := log + [Boundary];
            && AppDown(r) == AppDown(log) && KeyWire(r) == KeyWire(log) && (Paired(r) <==> Paired(log))
            && Entitled(r) == {} && RouterHeld(r) == {}
  {
    hide AppDown, Entitled, RouterHeld, KeyWire, Paired;
    LogStep(log, Boundary);
  }

  lemma UntrackedUnowned(s: State)
    requires Shape(s) && !s.owned
    ensures HeldKeys(s.track) == {} && ReleasesFor(s.track) == []
  {
    NothingHeld(s.track);
  }

  lemma OwnedViews(log: Log, s: State)
    ensures var r := log + OwnedEntries(s); var sends := VkCanRelease(s);
            && AppDown(r) == AppDown(log) - (if sends then HeldKeys(s.track) else {})
            && KeyWire(r) == KeyWire(log) + (if sends then ReleasesFor(s.track) else [])
            && Entitled(r) == Entitled(log) && RouterHeld(r) == RouterHeld(log)
            && (Paired(r) <==> Paired(log))
  {
    hide AppDown, Entitled, RouterHeld, KeyWire, Paired, Mask, ReleasesFor, HeldKeys, Open, Carries;
    var keys := if CanSend(s) then ReleasesFor(s.track) else [];
    ReleasesViews(log, s.track);
    assert log + [] == log;
    if Carries(s) {
      assert s.grab.Some? by { CarriesGrab(s); }
      var g := s.grab.value;
      MaskViews(log + keys, Open(s), g.depressed, g.latched, g.locked, g.group);
      assert log + OwnedEntries(s) == log + keys + Mask(Open(s), g.depressed, g.latched, g.locked, g.group);
    } else {
      MaskViews(log + keys, Open(s), 0, 0, 0, 0);
      assert log + OwnedEntries(s) == log + keys + Mask(Open(s), 0, 0, 0, 0);
    }
  }

  lemma CarriesGrab(s: State)
    requires Carries(s)
    ensures s.grab.Some?
  {
  }

  /** Settling the wire releases the held keys, if the keyboard can send, and no more. */
  lemma SettleViews(s: State)
    requires Shape(s)
    ensures var r := s.log + SettleEntries(s); var sends := VkCanRelease(s);
            && AppDown(r) == AppDown(s.log) - (if sends then HeldKeys(s.track) else {})
            && KeyWire(r) == KeyWire(s.log) + (if sends then ReleasesFor(s.track) else [])
            && Entitled(r) == Entitled(s.log) && RouterHeld(r) == RouterHeld(s.log)
            && (Paired(r) <==> Paired(s.log))
  {
    hide AppDown, Entitled, RouterHeld, KeyWire, Paired, Mask, ReleasesFor, HeldKeys, Open, Shape, OwnedEntries,
         VkCanRelease;
    var undo := if s.carried && s.phase != Deactivating then Mask(Open(s), 0, 0, 0, 0) else [];
    var log := s.log + undo;
    MaskViews(s.log, Open(s), 0, 0, 0, 0);
    assert s.log + [] == s.log;
    if s.owned {
      OwnedViews(log, s);
      assert s.log + SettleEntries(s) == log + OwnedEntries(s);
    } else {
      UntrackedUnowned(s);
      assert s.log + SettleEntries(s) == log;
    }
  }

  /** A hard reset is a complete boundary in every reachable state. */
  lemma HardResetBoundary(s: State)
    requires Shape(s) && Quiescent(s)
    ensures BoundaryEffect(s, HardReset(s)) && HardReset(s).activeGeneration == s.activeGeneration
    ensures HardReset(s).grab.None?
  {
    hide HardReset, SettleEntries, HeldKeys, ReleasesFor, AppDown, Entitled, RouterHeld, KeyWire, Paired;
    ResetTrace(s);
    ResetState(s);
    BlankTable(HardReset(s));
    SettleViews(s);
    var log := s.log + SettleEntries(s);
    BoundaryViews(log);
    assert log + [] == log;
    assert HardReset(s).log == log + if s.grab.Some? then [Boundary] else [];
  }

  /** A rebuilt grab: the boundary of the reset, then a blank table under a new generation. */
  lemma RebuildBoundary(s: State, now: nat, created: bool)
    requires Shape(s) && Quiescent(s)
    ensures var r := Rebuild(s, now, created);
            && BoundaryEffect(s, r) && Quiescent(r) && r.grab.Some? == created
            && r.activeGeneration == NextGeneration(s.activeGeneration)
            && (created ==> !r.grab.value.repeating)
  {
    hide HardReset, Rebuild, ResetEntries, VkCanRelease, HeldKeys, ReleasesFor, AppDown, Entitled, RouterHeld, KeyWire,
         Paired, NextGeneration, NextOf;
    HardResetBoundary(s);
    ResetTrace(s);
    BoundaryTrace(s, now, created);
    RebuildState(s, now, created);
    NextWords(s.activeGeneration);
    BoundaryViews(HardReset(s).log);
  }

  /** A resume: the same boundary, under a generation that differs from the old one. */
  lemma ResumeBoundary(s: State)
    requires Shape(s) && Quiescent(s)
    ensures var r := OnResume(s);
            && BoundaryEffect(s, r) && Quiescent(r) && r.grab.None? && r.phase == Inactive
            && r.activeGeneration == NextGeneration(s.activeGeneration)
            && r.activeGeneration != s.activeGeneration && 0 < r.activeGeneration < GENERATIONS
  {
    hide HardReset, OnResume, ResetEntries, VkCanRelease, HeldKeys, ReleasesFor, AppDown, Entitled, RouterHeld,
         KeyWire, Paired, NextOf;
    HardResetBoundary(s);
    ResetTrace(s);
    BoundaryTrace(s, 0, false);
    ResumeState(s);
    NextWords(s.activeGeneration);
    MaskViews(HardReset(s).log, Open(s), 0, 0, 0, 0);
  }

  /** Every application-held key gets exactly one release on the wire at a boundary, every other
      key none, and no key that the table knew is down afterwards. */
  lemma BoundaryReleasesOnce(s: State, r: State, k: nat)
    requires BoundaryEffect(s, r) && VkCanRelease(s)
    ensures exists sent: Log :: KeyWire(r.log) == KeyWire(s.log) + sent &&
              multiset(sent)[WireKey(k, false)] == (if AppHeld(TrackOf(s, k)) then 1 else 0) &&
              (forall o :: o in sent ==> o.WireKey? && !o.pressed)
    ensures AppHeld(TrackOf(s, k)) ==> k !in AppDown(r.log)
    ensures !AppHeld(TrackOf(r, k))
  {
    hide AppDown, KeyWire, Entitled, RouterHeld, Paired, ReleasesFor, VkCanRelease;
    var sent := ReleasesFor(s.track);
    ReleasesForOnce(s.track, k);
    HeldAt(s, k);
    HeldAt(r, k);
    assert KeyWire(r.log) == KeyWire(s.log) + sent;
  }

  lemma HeldAt(s: State, k: nat)
    ensures k in HeldKeys(s.track) <==> AppHeld(TrackOf(s, k))
    ensures s.track == Idles() ==> TrackOf(s, k) == Idle
  {
  }

  // ---- the physical release that comes after a boundary ----

  /** A key the new grab never saw pressed: its release reaches the application exactly when the
      cleanup policy wants it and the virtual keyboard can take it; it never reaches the engine. */
  lemma ReleaseAfterBoundary(w: World, s: State, e: KeyEvent)
    requires Shape(s) && s.grab.Some? && !e.isPress
    requires TrackOf(s, e.key) == Idle && GenerationOf(s, e.key) == 0
    ensures ProcessRelease(w, s, e).log ==
              s.log + [Routed(e)] +
              (if OrphanForwarded(s, e) && VkUsable(s) then [WireKey(e.key, false)] else []) +
              [Freed(e.key)]
  {
    hide ProcessRelease, OrphanForwarded, OrphanGoesOn;
    ReleaseTrace(w, s, e);
    OrphanWords(s, e);
  }

  /** Where a RELEASED_PENDING mark would still be standing, the router does consume the release. */
  lemma PendingReleaseConsumed(w: World, s: State, e: KeyEvent)
    requires s.grab.Some? && |s.track| == |s.gens| && TrackOf(s, e.key) == ReleasedPending
    ensures RouteRelease(w, s, e).log == s.log + [Routed(e), Freed(e.key)]
    ensures TrackOf(RouteRelease(w, s, e), e.key) == Idle
    ensures GenerationOf(RouteRelease(w, s, e), e.key) == 0
  {
    hide Observed;
  }
}
