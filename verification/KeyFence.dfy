/**
 History is only ever added to; hence a boundary is a fence: nothing pressed
 before it reaches the engine after it. With two concrete runs that show what a
 boundary does not guarantee.
 */
module KeyFence {
  import opened KeyTypes
  import opened KeySpec
  import opened KeyShape
  import opened KeyBoundary
  import opened KeyRuns
  import KeyTrace

  // ---- the log only grows ----

  ghost predicate Extends(old_: Log, new_: Log) {
    |old_| <= |new_| && new_[..|old_|] == old_
  }

  lemma ExtendsTrans(a: Log, b: Log, c: Log)
    requires Extends(a, b) && Extends(b, c)
    ensures Extends(a, c)
  {
    assert c[..|a|] == c[..|b|][..|a|];
  }

  lemma StepExtends(w: World, s: State, m: Step)
    requires Shape(s)
    ensures Extends(s.log, Apply(w, s, m).log)
  {
    hide Apply, Shape, KeyTrace.Entries;
    KeyTrace.StepTrace(w, s, m);
  }

  /** The log of an earlier moment is a prefix of the log of any later one. */
  lemma {:induction false} RunExtends(w: World, s: State, ms: seq<Step>, i: nat, j: nat)
    requires Initial(s) && i <= j <= |ms|
    ensures Extends(At(w, s, ms, i).log, At(w, s, ms, j).log)
  {
    hide Shape, Apply, At;
    if i < j {
      RunExtends(w, s, ms, i, j - 1);
      RunInvariants(w, s, ms, j - 1);
      AtNext(w, s, ms, j - 1);
      StepExtends(w, At(w, s, ms, j - 1), ms[j - 1]);
      ExtendsTrans(At(w, s, ms, i).log, At(w, s, ms, j - 1).log, At(w, s, ms, j).log);
    }
  }

  /** The fence. Once a hard reset, rebuild or resume was taken as step i, each later release handed
      to the engine goes back to a press handed to it after that step, whatever the generation is. */
  lemma BoundaryFence(w: World, s: State, ms: seq<Step>, i: nat, p: nat)
    requires Initial(s) && i < |ms| && IsBoundary(ms[i])
    requires var log := At(w, s, ms, |ms|).log; p < |log| && log[p].ToEngine? && !log[p].press
    requires |At(w, s, ms, i + 1).log| <= p
    ensures var log := At(w, s, ms, |ms|).log;
            exists j :: |At(w, s, ms, i + 1).log| <= j && Grants(log[..p], j, log[p].key)
  {
    hide Shape, Run, Apply, BoundaryEffect;
    var log := At(w, s, ms, |ms|).log;
    var after := At(w, s, ms, i + 1);
    var k := log[p].key;
    assert ms[..|ms|] == ms;
    EnginePairing(w, s, ms, p);
    var j: nat :| Grants(log[..p], j, k);
    if j < |after.log| {
      RunInvariants(w, s, ms, i);
      AtNext(w, s, ms, i);
      BoundaryStep(w, At(w, s, ms, i), ms[i]);
      assert Entitled(after.log) == {} by { BoundaryMeans(At(w, s, ms, i), after); }
      RunExtends(w, s, ms, i + 1, |ms|);
      assert log[..|after.log|] == after.log;
      assert Grants(after.log, j, k) by {
        forall q | j < q < |after.log| ensures after.log[q] != Freed(k) && after.log[q] != Boundary {
          assert log[..p][q] == after.log[q];
        }
      }
      EntitledMeans(after.log, k);
      assert false;
    }
  }

  // ---- the release that comes after the boundary release ----

  ghost function Wired(log: Log, k: nat): nat {
    multiset(KeyWire(log))[WireKey(k, false)]
  }

  /** A key released by a boundary of any kind, and released again by hand under a later grab before
      anything else went over the wire, is released a second time exactly when the cleanup policy claims
      it and the keyboard is usable again. */
  lemma SecondRelease(w: World, s: State, r: State, t: State, e: KeyEvent)
    requires BoundaryEffect(s, r) && VkCanRelease(s) && AppHeld(TrackOf(s, e.key)) && !e.isPress
    requires Shape(t) && t.grab.Some? && TrackOf(t, e.key) == Idle && GenerationOf(t, e.key) == 0
    requires KeyWire(t.log) == KeyWire(r.log)
    ensures Wired(ProcessRelease(w, t, e).log, e.key) ==
            Wired(s.log, e.key) + 1 + if OrphanForwarded(t, e) && VkUsable(t) then 1 else 0
  {
    hide Shape, ProcessRelease, BoundaryEffect, OrphanForwarded, VkUsable, VkCanRelease, TrackOf, KeyWire;
    BoundaryReleasesOnce(s, r, e.key);
    assert Wired(t.log, e.key) == Wired(s.log, e.key) + 1;
    ReleaseAfterBoundary(w, t, e);
    var mid := t.log + [Routed(e)];
    LogStep(t.log, Routed(e));
    if OrphanForwarded(t, e) && VkUsable(t) {
      LogStep(mid, WireKey(e.key, false));
      LogStep(mid + [WireKey(e.key, false)], Freed(e.key));
    } else {
      LogStep(mid, Freed(e.key));
      assert mid + [] == mid;
    }
  }

  lemma RebuiltState(s: State, now: nat)
    requires Shape(s) && Quiescent(s) && s.vk.present && s.vk.state != Broken
    ensures var t := OnKeymap(Rebuild(s, now, true), true, true);
            && Shape(t) && t.grab.Some? && t.track == Idles() && t.gens == Zeros()
            && t.log == Rebuild(s, now, true).log && VkUsable(t)
  {
    hide HardReset, ResetModifiers, Observed, BoundaryEffect, Released, Quiescent;
    var r := Rebuild(s, now, true);
    RebuildShape(s, now, true);
    KeymapShape(r, true, true);
    RebuiltVk(s, now);
  }

  lemma RebuiltVk(s: State, now: nat)
    requires Shape(s) && Quiescent(s) && s.vk.present
    ensures var r := Rebuild(s, now, true);
            r.vk.present && r.grab.Some? && r.track == Idles() && r.gens == Zeros() &&
            r.grab.value.createdAt == r.epoch
  {
    hide HardReset, Observed, HeldKeys, ReleasesFor, AppDown, Entitled, RouterHeld, KeyWire, Paired;
    HardResetBoundary(s);
  }

  /** Directly after any rebuild that completed its keymap handshake, every application-held key
      other than a modifier is sent a second release when the user lets go of it. */
  lemma ReleasedTwice(w: World, s: State, now: nat, e: KeyEvent)
    requires Shape(s) && Quiescent(s) && s.vk.present && s.vk.state != Broken
    requires AppHeld(TrackOf(s, e.key)) && !e.isPress
    ensures var t := OnKeymap(Rebuild(s, now, true), true, true);
            Wired(ProcessRelease(w, t, e).log, e.key) ==
            Wired(s.log, e.key) + 1 + if IsModifierKey(e.keysym) then 0 else 1
  {
    hide Shape, Rebuild, ProcessRelease, Quiescent, Wired, VkUsable, IsModifierKey, OrphanNeedsCleanup, BoundaryEffect;
    RebuildShape(s, now, true);
    var t := OnKeymap(Rebuild(s, now, true), true, true);
    RebuiltState(s, now);
    RebuiltVk(s, now);
    assert VkCanRelease(s) by { PresentCanRelease(s); }
    assert OrphanForwarded(t, e) == !IsModifierKey(e.keysym);
    RebuildBoundary(s, now, true);
    SecondRelease(w, s, Rebuild(s, now, true), t, e);
  }

  lemma PresentCanRelease(s: State)
    requires Shape(s) && s.vk.present && s.vk.state != Broken
    ensures VkCanRelease(s)
  {
  }

  const KEYCODE_ENTER: nat := 28

  function EnterPress(): KeyEvent { KeyEvent(true, KEYCODE_ENTER, KEY_Return, NO_MODS, 13, 0) }

  /** A session that opens a grab and presses Return into an engine that declines it. */
  function ReturnSession(): seq<Step> { [Regrab(0, true), Keymap(true, true), Deliver(EnterPress())] }

  lemma FirstGrab(w: World, s: State)
    requires Initial(s) && s.vk.present && s.shortcuts.emergencyExit.keysym == 0 && s.shortcuts.voicePtt.keysym == 0
    ensures var t := OnKeymap(Rebuild(s, 0, true), true, true);
            && t.grab.Some? && !t.grab.value.suppressStale && t.vk.state == Ready
            && t.track == Idles() && t.gens == Zeros()
            && t.shortcuts == s.shortcuts && t.vk.present
  {
    hide Observed;
  }

  lemma FirstReturn(w: World, t: State)
    requires t.grab.Some? && !t.grab.value.suppressStale && t.vk.state == Ready
    requires t.track == Idles() && t.gens == Zeros()
    requires t.shortcuts.emergencyExit.keysym == 0 && t.shortcuts.voicePtt.keysym == 0
    requires forall log, e, again :: !w.engineHandles(log, e, again)
    ensures var r := ProcessPress(w, t, EnterPress());
            && TrackOf(r, KEYCODE_ENTER) == Forwarded && r.vk == t.vk
            && KeyWire(r.log) == KeyWire(t.log) + [WireKey(KEYCODE_ENTER, true)]
  {
    hide AppDown, Entitled, RouterHeld, KeyWire, Paired;
    var e := EnterPress();
    var a := Claim(Emit(t, Routed(e)), e.key);
    assert !CandidateKeeps(w, a, e, false) && ReservedAction(a.shortcuts, e.keysym, e.mods) == NotReserved;
    assert RoutePassed(w, a, e) == SetTrack(ForwardKey(AskEngine(a, e, false), e.key, true), e.key, Forwarded);
  }

  lemma FirstGrabWire(s: State)
    requires Initial(s) && s.vk.present
    ensures KeyWire(OnKeymap(Rebuild(s, 0, true), true, true).log) == []
  {
    hide HardReset, Rebuild;
    InitialShape(s);
    RebuildBoundary(s, 0, true);
    NothingHeld(s.track);
  }

  function EnterRelease(): KeyEvent { EnterPress().(isPress := false) }

  /** A concrete session: Return is pressed once, released by the rebuild of the grab, and released
      again by hand. The application gets one press and two releases. */
  lemma ReturnReleasedTwice(w: World, s: State)
    requires Initial(s) && s.vk.present && s.shortcuts.emergencyExit.keysym == 0 && s.shortcuts.voicePtt.keysym == 0
    requires forall log, e, again :: !w.engineHandles(log, e, again)
    ensures var pressed := Run(w, s, ReturnSession());
            var rebuilt := Apply(w, Apply(w, pressed, Regrab(0, true)), Keymap(true, true));
            && KeyWire(pressed.log) == [WireKey(KEYCODE_ENTER, true)]
            && Wired(Apply(w, rebuilt, Deliver(EnterRelease())).log, KEYCODE_ENTER) == 2
  {
    hide Shape, Rebuild, ProcessPress, ProcessRelease, Quiescent, OnKeymap, KeyWire;
    InitialShape(s);
    var ms := ReturnSession();
    RunThree(w, s, ms);
    FirstGrab(w, s);
    FirstGrabWire(s);
    RebuildShape(s, 0, true);
    FirstReturn(w, OnKeymap(Rebuild(s, 0, true), true, true));
    var pressed := Run(w, s, ms);
    assert pressed == ProcessPress(w, OnKeymap(Rebuild(s, 0, true), true, true), EnterPress());
    assert ms[..3] == ms;
    RunInvariants(w, s, ms, 3);
    RebuildShape(pressed, 0, true);
    ReleasedTwice(w, pressed, 0, EnterRelease());
    assert Wired(pressed.log, KEYCODE_ENTER) == 0;
    RebuiltState(pressed, 0);
  }

  lemma RunThree(w: World, s: State, ms: seq<Step>)
    requires |ms| == 3
    ensures Run(w, s, ms) == Apply(w, Apply(w, Apply(w, s, ms[0]), ms[1]), ms[2])
  {
    hide Apply;
    AtNext(w, s, ms, 0);
    AtNext(w, s, ms, 1);
    AtNext(w, s, ms, 2);
    assert ms[..3] == ms;
  }
}
