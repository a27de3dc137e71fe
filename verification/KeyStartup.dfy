/**
 Startup-guard accounting: the suppressed-key counter counts the suppressed
 keys, and a guard that let one press through suppresses no later one.
 */
module KeyStartup {
  import opened KeyTypes
  import opened KeySpec
  import opened KeyShape
  import opened KeySafety
  import opened KeyBoundary
  import opened KeyRuns
  import opened KeyTrace
  import opened KeyState

  ghost function Suppressed(s: State): set<nat> {
    set k: nat | k < |s.track| && s.track[k] == SuppressedStartup
  }

  /** The guard's own fields. */
  datatype Guard = Guard(stale: bool, count: nat, createdAt: nat, epoch: nat)

  ghost function GuardOf(s: State): Guard
    requires s.grab.Some?
  {
    var g := s.grab.value;
    Guard(g.suppressStale, g.suppressedCount, g.createdAt, s.epoch)
  }

  /** Counter and flag agree with a change of the suppressed set by one key at most. */
  ghost predicate Steady(s: State, r: State) {
    && s.grab.Some? && r.grab.Some?
    && GuardOf(r).count == GuardOf(s).count && Suppressed(r) == Suppressed(s)
    && GuardOf(r).createdAt == GuardOf(s).createdAt
    && GuardOf(s).epoch <= GuardOf(r).epoch
    && (GuardOf(r).stale ==> GuardOf(s).stale)
  }

  /** A press of this key comes before the guard. */
  predicate Guarded(t: Track) {
    t !in {ReleasedPending, SuppressedStartup, AppShortcut, Forwarded}
  }

  /** This step suppresses a press: the flag is up, and it is at most two dispatch rounds since the grab. */
  predicate Suppresses(s: State, m: Step) {
    && m.Deliver? && m.e.isPress && s.grab.Some? && Guarded(TrackOf(s, m.e.key))
    && s.grab.value.suppressStale && Early(s.grab.value, s.epoch)
  }

  /** One entry of the table written. */
  lemma PutSuppressed(s: State, r: State, k: nat, t: Track)
    ensures r.track == s.track ==> Suppressed(r) == Suppressed(s)
    ensures r.track == Put(s.track, k, t) ==>
              Suppressed(r) == if k >= |s.track| then Suppressed(s)
                               else if t == SuppressedStartup then Suppressed(s) + {k} else Suppressed(s) - {k}
    ensures k in Suppressed(s) <==> TrackOf(s, k) == SuppressedStartup
  {
  }

  // ---- presses and releases ----

  lemma PressSteady(w: World, s: State, e: KeyEvent)
    requires s.grab.Some? && e.isPress && !Suppresses(s, Deliver(e))
    ensures Steady(s, ProcessPress(w, s, e))
  {
    hide ProcessPress, Verdict, PressTries, Tried, Suppressed;
    PressTrace(w, s, e);
    PressState(w, s, e);
    PutSuppressed(s, ProcessPress(w, s, e), e.key, PressTrack(w, s, e));
    VerdictPasses(w, s.log + [Routed(e)], s.shortcuts, e);
  }

  /** A suppressed press adds its key to the table, if the table has room for it, and counts it. */
  lemma PressSuppressed(w: World, s: State, e: KeyEvent)
    requires Shape(s) && s.grab.Some? && Suppresses(s, Deliver(e))
    ensures var r := ProcessPress(w, s, e);
            && r.grab.Some? && GuardOf(r) == GuardOf(s).(count := GuardOf(s).count + 1)
            && e.key !in Suppressed(s)
            && Suppressed(r) == Suppressed(s) + (if e.key < MAX_TRACKED_KEYS then {e.key} else {})
  {
    hide ProcessPress, Verdict, Tried, PressTries, Suppressed, Shape;
    ShapeSizes(s);
    PressTrace(w, s, e);
    PressState(w, s, e);
    PutSuppressed(s, ProcessPress(w, s, e), e.key, SuppressedStartup);
  }

  function Decremented(n: nat): nat { if n > 0 then n - 1 else 0 }

  /** A release takes its key out of the set and, if it was there, off the counter. */
  lemma ReleaseGuard(w: World, s: State, e: KeyEvent)
    requires s.grab.Some? && !e.isPress
    ensures var r := ProcessRelease(w, s, e);
            && r.grab.Some? && r.epoch == s.epoch && GuardOf(r).createdAt == GuardOf(s).createdAt
            && (GuardOf(r).stale ==> GuardOf(s).stale)
            && GuardOf(r).count == (if TrackOf(s, e.key) == SuppressedStartup then Decremented(GuardOf(s).count)
                                    else GuardOf(s).count)
            && Suppressed(r) == Suppressed(s) - {e.key}
  {
    hide ProcessRelease, Tried, ReleaseTries, Suppressed;
    ReleaseTrace(w, s, e);
    ReleaseState(w, s, e);
    PutSuppressed(s, ProcessRelease(w, s, e), e.key, Idle);
  }

  // ---- every other step of the same grab ----

  lemma RepeatSteady(w: World, s: State, m: Step)
    requires s.grab.Some? && m.Repeat?
    ensures Steady(s, DispatchRepeat(w, s, m.keysym, m.unicode, m.xkb, m.timerRead, m.focused))
  {
    hide DispatchRepeat, Tried, TickTries, Suppressed, TickDeclined;
    TickTrace(w, s, m.keysym, m.unicode, m.xkb, m.timerRead, m.focused);
    TickState(w, s, m.keysym, m.unicode, m.xkb, m.timerRead, m.focused);
    var r := DispatchRepeat(w, s, m.keysym, m.unicode, m.xkb, m.timerRead, m.focused);
    var e := TimerEvent(s.grab.value, m.keysym, m.unicode, m.xkb);
    if Ticks(s, m.timerRead, m.focused) {
      PutSuppressed(s, r, e.key, TickTrack(w, s, e));
    } else {
      assert Suppressed(r) == Suppressed(s) by { PutSuppressed(s, r, 0, Idle); }
    }
  }

  lemma OrphanSteady(s: State, e: KeyEvent)
    requires s.grab.Some?
    ensures Steady(s, OrphanRelease(s, e))
  {
    hide OrphanRelease, Tried, Suppressed;
    OrphanState(s, e);
    if TrackOf(s, e.key) == Forwarded {
      PutSuppressed(s, OrphanRelease(s, e), e.key, Idle);
    }
  }

  lemma GrabSteady(s: State, r: State)
    requires s.grab.Some? && r.grab.Some? && r.track == s.track && s.epoch <= r.epoch
    requires GuardOf(r) == GuardOf(s).(epoch := r.epoch)
    ensures Steady(s, r)
  {
  }

  lemma FlagSteady(w: World, s: State, m: Step)
    requires s.grab.Some? && !NeedsKeys(m) && !m.ModifierUpdate? && !m.Keymap?
    ensures Steady(s, Apply(w, s, m))
  {
    hide Apply, Suppressed, Steady;
    FlagState(w, s, m);
    GrabSteady(s, Apply(w, s, m));
  }

  predicate NeedsKeys(m: Step) {
    m.Deliver? || m.Orphan? || m.Repeat? || IsBoundary(m)
  }

  lemma QuietSteady(w: World, s: State, m: Step)
    requires s.grab.Some? && !NeedsKeys(m)
    ensures Steady(s, Apply(w, s, m))
  {
    hide Steady, Apply, Tried;
    StepIs(w, s, m);
    if m.ModifierUpdate? {
      ModifierState(s, m.depressed, m.latched, m.locked, m.group, m.before, m.after);
      GrabSteady(s, Apply(w, s, m));
    } else if m.Keymap? {
      KeymapState(s, m.duplicated, m.compiled);
      GrabSteady(s, Apply(w, s, m));
    } else {
      FlagSteady(w, s, m);
    }
  }

  /** One step of a live grab that is not a boundary: the counter moves with the set. */
  lemma StepCounts(w: World, s: State, m: Step)
    requires Shape(s) && s.grab.Some? && !IsBoundary(m) && |Suppressed(s)| <= GuardOf(s).count
    ensures var r := Apply(w, s, m);
            && r.grab.Some?
            && GuardOf(r).count - |Suppressed(r)| ==
               GuardOf(s).count - |Suppressed(s)| + (if Suppresses(s, m) && m.e.key >= MAX_TRACKED_KEYS then 1 else 0)
            && GuardOf(r).createdAt == GuardOf(s).createdAt && s.epoch <= r.epoch
            && (GuardOf(r).stale ==> GuardOf(s).stale)
  {
    hide Apply, Shape, Suppressed, Suppresses, ProcessPress, ProcessRelease, DispatchRepeat, OrphanRelease;
    ShapeSizes(s);
    if m.Deliver? && m.e.isPress {
      StepIs(w, s, m);
      if Suppresses(s, m) {
        PressSuppressed(w, s, m.e);
      } else {
        PressSteady(w, s, m.e);
      }
    } else if m.Deliver? {
      StepIs(w, s, m);
      ReleaseGuard(w, s, m.e);
      SuppressedAt(s, m.e.key);
    } else if m.Orphan? {
      StepIs(w, s, m);
      OrphanSteady(s, m.e);
    } else if m.Repeat? {
      StepIs(w, s, m);
      RepeatSteady(w, s, m);
    } else {
      QuietSteady(w, s, m);
    }
    assert Suppresses(s, m) ==> m.Deliver? && m.e.isPress by { GuardFacts(w, s, m); }
  }

  lemma SuppressedAt(s: State, k: nat)
    ensures k in Suppressed(s) <==> TrackOf(s, k) == SuppressedStartup
    ensures |Suppressed(s) - {k}| == |Suppressed(s)| - (if k in Suppressed(s) then 1 else 0)
  {
  }

  lemma StepIs(w: World, s: State, m: Step)
    requires s.grab.Some?
    ensures m.ModifierUpdate? ==>
              Apply(w, s, m) == OnModifiers(s, m.depressed, m.latched, m.locked, m.group, m.before, m.after)
    ensures m.Keymap? ==> Apply(w, s, m) == OnKeymap(s, m.duplicated, m.compiled)
    ensures m.Repeat? ==> Apply(w, s, m) == DispatchRepeat(w, s, m.keysym, m.unicode, m.xkb, m.timerRead, m.focused)
    ensures m.Orphan? ==> Apply(w, s, m) == OrphanRelease(s, m.e)
    ensures m.Deliver? ==>
              Apply(w, s, m) == if m.e.isPress then ProcessPress(w, s, m.e) else ProcessRelease(w, s, m.e)
  {
  }

  // ---- whole runs ----

  lemma BoundaryCounts(w: World, s: State, m: Step)
    requires Shape(s) && Quiescent(s) && IsBoundary(m)
    ensures var r := Apply(w, s, m);
            r.grab.Some? ==> GuardOf(r).count == 0 && Suppressed(r) == {}
  {
    hide HardReset, OnResume, BoundaryEffect, Observed;
    BoundaryStep(w, s, m);
    HardResetBoundary(s);
    ResumeBoundary(s);
    assert Apply(w, s, m).track == Idles() by { BoundaryMeans(s, Apply(w, s, m)); }
  }

  /** Presses of untracked keys that the guard suppressed since the last boundary. */
  ghost function UntrackedSuppressions(w: World, s: State, ms: seq<Step>): nat {
    if ms == [] then 0
    else
      var n := |ms| - 1;
      if IsBoundary(ms[n]) then 0
      else UntrackedSuppressions(w, s, ms[..n]) +
           if Suppresses(Run(w, s, ms[..n]), ms[n]) && ms[n].e.key >= MAX_TRACKED_KEYS then 1 else 0
  }

  /** The counter, on every run: the suppressed keys of the table plus the suppressed presses
      of keys outside it. */
  lemma {:induction false} SuppressedCount(w: World, s: State, ms: seq<Step>)
    requires Initial(s)
    ensures var r := Run(w, s, ms);
            r.grab.Some? ==> GuardOf(r).count == |Suppressed(r)| + UntrackedSuppressions(w, s, ms)
  {
    hide Apply, Shape, Suppressed, Suppresses, Initial, Quiescent;
    assert s.grab.None? by { GuardFacts(w, s, Dispatched); }
    if ms != [] {
      var n := |ms| - 1;
      var t := Run(w, s, ms[..n]);
      RunInvariants(w, s, ms, n);
      SuppressedCount(w, s, ms[..n]);
      if IsBoundary(ms[n]) {
        BoundaryCounts(w, t, ms[n]);
      } else if t.grab.Some? {
        StepCounts(w, t, ms[n]);
      } else {
        GuardFacts(w, t, ms[n]);
      }
    }
  }

  lemma GuardFacts(w: World, s: State, m: Step)
    ensures s.grab.None? && !IsBoundary(m) ==> Apply(w, s, m).grab.None?
    ensures Initial(s) ==> s.grab.None?
    ensures Shape(s) && s.grab.Some? ==> s.grab.value.createdAt <= s.epoch
    ensures Suppresses(s, m) ==> m.Deliver? && m.e.isPress
  {
  }

  /** The guard no longer suppresses anything. */
  predicate GuardOpen(s: State) {
    s.grab.Some? && !(s.grab.value.suppressStale && Early(s.grab.value, s.epoch))
  }

  lemma {:induction false} StaysOpen(w: World, s: State, ms: seq<Step>, i: nat, j: nat)
    requires Initial(s) && i <= j <= |ms| && GuardOpen(At(w, s, ms, i))
    requires forall k :: i <= k < j ==> !IsBoundary(ms[k])
    ensures GuardOpen(At(w, s, ms, j))
  {
    hide Apply, Shape, Suppressed, Suppresses, Run, Initial;
    if i < j {
      var t := At(w, s, ms, j - 1);
      StaysOpen(w, s, ms, i, j - 1);
      RunInvariants(w, s, ms, j - 1);
      AtNext(w, s, ms, j - 1);
      SuppressedCount(w, s, ms[..j - 1]);
      assert t.grab.value.createdAt <= t.epoch by { GuardFacts(w, t, Dispatched); }
      StepCounts(w, t, ms[j - 1]);
    }
  }

  /** Once one press has passed the guard, no later press of the same grab is suppressed. */
  lemma PassedOnce(w: World, s: State, ms: seq<Step>, i: nat, j: nat)
    requires Initial(s) && i <= j < |ms| && (forall k :: i <= k < j ==> !IsBoundary(ms[k]))
    requires var t := At(w, s, ms, i);
             ms[i].Deliver? && ms[i].e.isPress && t.grab.Some? && Guarded(TrackOf(t, ms[i].e.key)) &&
             !Suppresses(t, ms[i])
    ensures !Suppresses(At(w, s, ms, j), ms[j])
  {
    hide Apply, Shape, Run, Initial;
    StaysOpen(w, s, ms, i, j);
  }
}
