/**
 The keymap handshake over whole runs: when the health check stops a daemon
 whose grab still waits for its keymap.
 */
module KeyHandshake {
  import opened KeyTypes
  import opened KeySpec
  import opened KeyShape
  import opened KeySafety
  import opened KeyBoundary
  import opened KeyRuns
  import opened KeyTrace
  import opened KeyState

  /** When the last grab that could be made was made. */
  function LastGrab(ms: seq<Step>): Option<nat> {
    if ms == [] then None
    else if ms[|ms| - 1].Regrab? && ms[|ms| - 1].created then Some(ms[|ms| - 1].now)
    else LastGrab(ms[..|ms| - 1])
  }

  /** A grab that waits for its keymap does so since it was made, and for 1500 ms. */
  ghost predicate WaitsSince(s: State, since: Option<nat>) {
    s.grab.Some? && s.vk.state == NeedsKeymap ==> since.Some? && s.vk.deadline == since.value + 1500
  }

  /** No wait begins, and none is prolonged. */
  ghost predicate NoNewWait(s: State, r: State) {
    && r.grab.Some? == s.grab.Some?
    && (r.vk.state == NeedsKeymap ==> s.vk.state == NeedsKeymap && r.vk.deadline == s.vk.deadline)
  }

  lemma TriedNoWait(s: State, r: State, tried: bool)
    requires Tried(s, r, tried)
    ensures NoNewWait(s, r)
  {
    hide Open;
  }

  lemma PressNoWait(w: World, s: State, e: KeyEvent)
    requires s.grab.Some? && e.isPress
    ensures NoNewWait(s, ProcessPress(w, s, e))
  {
    hide ProcessPress, PressTries, Tried, PressDecision, PressTimer, PressGuard;
    PressState(w, s, e);
    var r := ProcessPress(w, s, e);
    var d := PressDecision(w, s, e);
    if d != Exit {
      TriedNoWait(s, r, PressTries(w, s.log + [Routed(e)], d, e));
    }
  }

  lemma StepNoWait(w: World, s: State, m: Step)
    requires !IsBoundary(m)
    ensures NoNewWait(s, Apply(w, s, m))
  {
    hide ProcessPress, ProcessRelease, DispatchRepeat, OrphanRelease, OnModifiers, OnKeymap, RejectKey, HealthCheck,
         ReleaseGrab, FailSafe, Tried, Settles, HardReset, Rebuild, OnResume, Emit, NoNewWait;
    Started(s);
    TriedNoWait(s, s, false);
    if NeedsGrab(m) && s.grab.None? {
      return;
    }
    match m
    case Deliver(e) =>
      if e.isPress {
        PressNoWait(w, s, e);
      } else {
        ReleaseNoWait(w, s, e);
      }
    case Orphan(e) => OrphanNoWait(s, e);
    case Repeat(keysym, unicode, xkb, timerRead, focused) =>
      TickState(w, s, keysym, unicode, xkb, timerRead, focused);
      TriedNoWait(s, Apply(w, s, m), Ticks(s, timerRead, focused) &&
                                     TickTries(w, s, TimerEvent(s.grab.value, keysym, unicode, xkb)));
    case ModifierUpdate(d, l, k, g, before, after) =>
      ModifierState(s, d, l, k, g, before, after);
      TriedNoWait(s, Apply(w, s, m), true);
    case _ => FlagsNoWait(w, s, m);
  }

  lemma ReleaseNoWait(w: World, s: State, e: KeyEvent)
    requires s.grab.Some? && !e.isPress
    ensures NoNewWait(s, ProcessRelease(w, s, e))
  {
    hide ProcessRelease, Tried, ReleaseTries, ReleaseGrabRecord, NoNewWait;
    ReleaseState(w, s, e);
    TriedNoWait(s, ProcessRelease(w, s, e), ReleaseTries(w, s, e));
  }

  lemma OrphanNoWait(s: State, e: KeyEvent)
    requires s.grab.Some?
    ensures NoNewWait(s, OrphanRelease(s, e))
  {
    hide OrphanRelease, Tried, NoNewWait;
    OrphanState(s, e);
    Started(s);
    TriedNoWait(s, OrphanRelease(s, e), TrackOf(s, e.key) == Forwarded);
  }

  lemma FlagsNoWait(w: World, s: State, m: Step)
    requires m.SwitchEngine? || m.Keymap? || m.SetPhysical? || m.Reject? || m.EarlyExit? || m.SetPhase? ||
             m.Dispatched? || m.Reload? || m.Health?
    ensures NoNewWait(s, Apply(w, s, m))
  {
    hide Observed;
  }

  lemma BoundaryWaits(w: World, s: State, m: Step, since: Option<nat>)
    requires Shape(s) && Quiescent(s) && IsBoundary(m)
    ensures WaitsSince(Apply(w, s, m), if m.Regrab? && m.created then Some(m.now) else since)
  {
    hide HardReset, Rebuild, OnResume, Shape;
    HardResetBoundary(s);
    ResumeBoundary(s);
    if m.Regrab? {
      RebuildState(s, m.now, m.created);
      ResetState(s);
      NotWaiting(s);
    }
  }

  /** Without a virtual keyboard there is no keymap to wait for. */
  lemma NotWaiting(s: State)
    requires Shape(s)
    ensures !s.vk.present ==> s.vk.state != NeedsKeymap
  {
  }

  lemma {:induction false} RunWaits(w: World, s: State, ms: seq<Step>)
    requires Initial(s)
    ensures WaitsSince(Run(w, s, ms), LastGrab(ms))
  {
    hide Apply, Shape;
    if ms != [] {
      var n := |ms| - 1;
      var t := Run(w, s, ms[..n]);
      RunWaits(w, s, ms[..n]);
      RunInvariants(w, s, ms, n);
      if IsBoundary(ms[n]) {
        BoundaryWaits(w, t, ms[n], LastGrab(ms[..n]));
      } else {
        StepNoWait(w, t, ms[n]);
      }
    }
  }

  /** After any run, a health check at time t stops the running daemon if and only if its grab is live,
      its keymap has not come, and it is at least 1500 ms since the last grab was made. */
  lemma HandshakeTimeout(w: World, s: State, ms: seq<Step>, t: nat)
    requires Initial(s)
    ensures var u := Run(w, s, ms);
            var waiting := u.grab.Some? && u.grab.value.live && u.vk.state == NeedsKeymap;
            && (waiting ==> LastGrab(ms).Some?)
            && (Apply(w, u, Health(t)).running <==>
                u.running && !(waiting && t >= LastGrab(ms).value + 1500))
  {
    hide Run;
    RunWaits(w, s, ms);
    InitialShape(s);
    RunShape(w, s, ms);
  }
}
