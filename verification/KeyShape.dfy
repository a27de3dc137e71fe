/**
 The structural invariant of the frontend: what holds between any two steps,
 on every run, whatever the compositor, the engine and the clock do.
 */
module KeyShape {
  import opened KeyTypes
  import opened KeySpec
  import opened KeyTrace
  import opened KeyState

  lemma InitialShape(s: State)
    requires Initial(s)
    ensures Shape(s)
  {
  }

  lemma ShapeSizes(s: State)
    requires Shape(s)
    ensures |s.track| == |s.gens| == MAX_TRACKED_KEYS
  {
  }

  // ---- the parts of the invariant ----

  /** One attempt to send keeps what is known of the keyboard. */
  lemma TriedVk(s: State, r: State, tried: bool)
    requires VkOk(s) && r.activeGeneration == s.activeGeneration && r.grab.Some? == s.grab.Some?
    requires Tried(s, r, tried) || r.vk == s.vk
    ensures VkOk(r)
  {
  }

  /** One key's entry and generation are written, under an owned grab or blank. */
  lemma PutTracking(s: State, r: State, k: nat, t: Track, g: nat)
    requires TrackingOk(s) && r.activeGeneration == s.activeGeneration && t != ReleasedPending
    requires r.track == Put(s.track, k, t) && (r.gens == s.gens || r.gens == PutGen(s.gens, k, g))
    requires (g == 0 || g == s.activeGeneration) && (s.owned ==> r.owned) && (t != Idle ==> r.owned)
    ensures TrackingOk(r)
  {
  }

  lemma TrackedOwned(s: State, key: nat)
    requires Shape(s) && TrackOf(s, key) != Idle
    ensures s.owned && TrackOf(s, key) != ReleasedPending && key < MAX_TRACKED_KEYS
  {
  }

  /** Edits of the grab record leave the rest of the shape alone. */
  lemma GrabShape(s: State, g: Grab)
    requires Shape(s) && s.grab.Some? && g.createdAt == s.grab.value.createdAt
    requires g.repeating ==> s.grab.value.repeating || s.owned
    ensures Shape(s.(grab := Some(g)))
  {
  }

  // ---- keys ----

  lemma PressShape(w: World, s: State, e: KeyEvent)
    requires Shape(s) && s.grab.Some? && e.isPress
    ensures Shape(ProcessPress(w, s, e)) && ProcessPress(w, s, e).grab.Some?
  {
    hide ProcessPress, Verdict, PressTries, Tried, VkOk, TrackingOk, Put, PutGen, Early;
    var r := ProcessPress(w, s, e);
    PressTrace(w, s, e);
    PressState(w, s, e);
    VerdictPasses(w, s.log + [Routed(e)], s.shortcuts, e);
    if TrackOf(s, e.key) != Idle {
      TrackedOwned(s, e.key);
    }
    PutTracking(s, r, e.key, PressTrack(w, s, e), s.activeGeneration);
    if PressDecision(w, s, e) != Exit {
      TriedVk(s, r, PressTries(w, s.log + [Routed(e)], PressDecision(w, s, e), e));
    } else {
      TriedVk(s, r, false);
    }
  }

  lemma ReleaseShape(w: World, s: State, e: KeyEvent)
    requires Shape(s) && s.grab.Some? && !e.isPress
    ensures Shape(ProcessRelease(w, s, e)) && ProcessRelease(w, s, e).grab.Some?
  {
    hide ProcessRelease, ReleaseEntries, ReleaseTries, Tried, VkOk, TrackingOk, Put, PutGen;
    var r := ProcessRelease(w, s, e);
    ReleaseTrace(w, s, e);
    ReleaseState(w, s, e);
    PutTracking(s, r, e.key, Idle, 0);
    TriedVk(s, r, ReleaseTries(w, s, e));
  }

  lemma TickShape(w: World, s: State, keysym: nat, unicode: nat, xkb: Mods, timerRead: bool, focused: bool)
    requires Shape(s) && s.grab.Some?
    ensures Shape(DispatchRepeat(w, s, keysym, unicode, xkb, timerRead, focused))
  {
    hide DispatchRepeat, TickEntries, TickTries, Tried, VkOk, TrackingOk, Put, PutGen, TickDeclined, TickStops;
    var r := DispatchRepeat(w, s, keysym, unicode, xkb, timerRead, focused);
    var e := TimerEvent(s.grab.value, keysym, unicode, xkb);
    TickTrace(w, s, keysym, unicode, xkb, timerRead, focused);
    TickState(w, s, keysym, unicode, xkb, timerRead, focused);
    TriedVk(s, r, Ticks(s, timerRead, focused) && TickTries(w, s, e));
    SetAside(s, e.key, Idle);
    if TrackOf(s, e.key) != Idle {
      TrackedOwned(s, e.key);
    }
    PutTracking(s, r, e.key, if Ticks(s, timerRead, focused) then TickTrack(w, s, e) else TrackOf(s, e.key), 0);
  }

  lemma OrphanShape(s: State, e: KeyEvent)
    requires Shape(s) && s.grab.Some?
    ensures Shape(OrphanRelease(s, e))
  {
    hide OrphanRelease, Tried, VkOk, TrackingOk, Put, PutGen;
    var r := OrphanRelease(s, e);
    OrphanState(s, e);
    if TrackOf(s, e.key) == Forwarded {
      PutTracking(s, r, e.key, Idle, 0);
      TriedVk(s, r, true);
    }
  }

  lemma ModifiersShape(s: State, d: nat, l: nat, k: nat, g: nat, before: Mods, after: Mods)
    requires Shape(s) && s.grab.Some?
    ensures Shape(OnModifiers(s, d, l, k, g, before, after))
  {
    hide OnModifiers, Tried;
    ModifierState(s, d, l, k, g, before, after);
    TriedVk(s, OnModifiers(s, d, l, k, g, before, after), true);
  }

  // ---- boundaries ----

  lemma HardResetShape(s: State)
    requires Shape(s)
    ensures var r := HardReset(s); Shape(r) && r.grab.None?
  {
    hide HardReset;
    ResetState(s);
  }

  lemma RebuildShape(s: State, now: nat, created: bool)
    requires Shape(s)
    ensures Shape(Rebuild(s, now, created)) && Rebuild(s, now, created).grab.Some? == created
  {
    hide HardReset, Rebuild;
    HardResetShape(s);
    ResetState(s);
    RebuildState(s, now, created);
  }

  lemma ResumeShape(s: State)
    requires Shape(s)
    ensures Shape(OnResume(s)) && OnResume(s).grab.None?
  {
    hide HardReset, OnResume;
    HardResetShape(s);
    ResetState(s);
    ResumeState(s);
  }

  lemma KeymapShape(s: State, duplicated: bool, compiled: bool)
    requires Shape(s) && s.grab.Some?
    ensures Shape(OnKeymap(s, duplicated, compiled))
  {
  }

  /** Steps that only set a flag, a phase or a clock. */
  lemma FlagShape(w: World, s: State, m: Step)
    requires Shape(s) && s.grab.Some?
    requires m.Reject? || m.EarlyExit? || m.Health? || m.SetPhysical? || m.Dispatched? || m.SwitchEngine?
    ensures Shape(Apply(w, s, m))
  {
    hide Apply;
    FlagState(w, s, m);
  }

  lemma QuietShape(w: World, s: State, m: Step)
    requires Shape(s) && (m.SwitchEngine? || m.SetPhase? || m.Dispatched? || m.Reload? || (m.Health? && s.grab.None?))
    ensures Shape(Apply(w, s, m))
  {
    hide Observed;
  }

  /** The shape survives every step. */
  lemma StepShape(w: World, s: State, m: Step)
    requires Shape(s)
    ensures Shape(Apply(w, s, m))
  {
    hide Shape, ProcessPress, ProcessRelease, OrphanRelease, DispatchRepeat, HardReset, Rebuild, OnResume, OnModifiers,
         OnKeymap, RejectKey, ReleaseGrab, HealthCheck, Emit;
    if NeedsGrab(m) && s.grab.None? {
      return;
    }
    match m
    case Deliver(e) =>
      if e.isPress {
        PressShape(w, s, e);
      } else {
        ReleaseShape(w, s, e);
      }
    case Orphan(e) => OrphanShape(s, e);
    case Repeat(keysym, unicode, xkb, timerRead, focused) => TickShape(w, s, keysym, unicode, xkb, timerRead, focused);
    case ModifierUpdate(d, l, k, g, before, after) => ModifiersShape(s, d, l, k, g, before, after);
    case Keymap(duplicated, compiled) => KeymapShape(s, duplicated, compiled);
    case Reset => HardResetShape(s);
    case Regrab(now, created) => RebuildShape(s, now, created);
    case Resume => ResumeShape(s);
    case SetPhysical(_) => FlagShape(w, s, m);
    case EarlyExit(_) => FlagShape(w, s, m);
    case Reject(_, _, _) => FlagShape(w, s, m);
    case _ =>
      if m.Health? && s.grab.Some? {
        FlagShape(w, s, m);
      } else {
        QuietShape(w, s, m);
      }
  }

  /** Every state of every run has the shape. */
  lemma {:induction false} RunShape(w: World, s: State, ms: seq<Step>)
    requires Shape(s)
    ensures Shape(Run(w, s, ms))
  {
    if ms != [] {
      RunShape(w, s, ms[..|ms| - 1]);
      StepShape(w, Run(w, s, ms[..|ms| - 1]), ms[|ms| - 1]);
    }
  }

  /** A live grab never waits for its keymap unwatched: the health check stops the daemon exactly
      from the deadline on, in every reachable state. */
  lemma NoSilentWait(w: World, s: State, ms: seq<Step>, now: nat)
    requires Initial(s)
    ensures var t := Run(w, s, ms);
            t.running && t.grab.Some? && t.grab.value.live && t.vk.state == NeedsKeymap ==>
              t.vk.deadline > 0 && (HealthCheck(t, now).running <==> now < t.vk.deadline)
  {
    hide Run;
    InitialShape(s);
    RunShape(w, s, ms);
  }
}
