/**
 Key routing, auto-repeat and the arbiter in the program's own form: methods
 that read and update the frontend. Each is proved to compute its function in
 KeySpec, ArbiterSpec or KeySession.
 */
module KeyRouter {
  import opened KeyTypes
  import opened KeySpec
  import opened FrontendClass

  /** Hand a key to the engine; the answer was fixed by the history before it. */
  method OfferEngine(w: World, fe: Frontend, e: KeyEvent, isRepeat: bool) returns (handled: bool)
    requires fe.Valid()
    modifies fe`log
    ensures fe.Valid() && fe.Abs() == AskEngine(old(fe.Abs()), e, isRepeat)
    ensures handled == w.engineHandles(old(fe.log), e, isRepeat)
  {
    handled := w.engineHandles(fe.log, e, isRepeat);
    fe.Observe(ToEngine(e.key, e.isPress, isRepeat));
  }

  /** An unhandled navigation key stays with the candidate list while one is shown. */
  method CandidateGuard(w: World, fe: Frontend, keysym: nat) returns (keep: bool)
    ensures keep == (IsNavigation(keysym) && w.hasCandidates(fe.log))
  {
    keep := IsNavigation(keysym) && w.hasCandidates(fe.log);
  }

  method ForwardAs(fe: Frontend, key: nat, t: Track)
    requires fe.Valid()
    modifies fe`vk, fe`running, fe`log, fe.keyStates, fe.keyboard
    ensures fe.Valid() && fe.Abs() == SetTrack(ForwardKey(old(fe.Abs()), key, true), key, t)
    ensures fe.keyboard == old(fe.keyboard)
  {
    hide ForwardKey, SetTrack;
    fe.ForwardKey(key, true);
    fe.SetState(key, t);
  }

  method StopRepeating(fe: Frontend)
    requires fe.Valid()
    modifies fe.keyboard
    ensures fe.Valid() && fe.Abs() == StopRepeat(old(fe.Abs()))
  {
    if fe.keyboard != null {
      fe.keyboard.repeating := false;
    }
  }

  // ---- key_route.c: press ----

  method StopOnEmergency(fe: Frontend, key: nat)
    requires fe.Valid()
    modifies fe`running, fe`log, fe.keyboard
    ensures fe.Valid() && fe.keyboard == old(fe.keyboard)
    ensures fe.Abs() == ReleaseGrab(Emit(old(fe.Abs()), Stopped(key))).(running := false)
  {
    hide ReleaseGrab, Observed;
    fe.Observe(Stopped(key));
    fe.DropGrab();
    fe.running := false;
  }

  method VoiceKey(w: World, fe: Frontend, key: nat)
    requires fe.Valid()
    modifies fe`log, fe.keyStates
    ensures fe.Valid()
    ensures var s := old(fe.Abs());
            fe.Abs() == if w.voiceAvailable(s.log) then SetTrack(Emit(s, VoiceStart(key)), key, VoicePtt)
                        else SetTrack(s, key, VoicePttUnavailable)
  {
    hide SetTrack, Observed;
    if w.voiceAvailable(fe.log) {
      fe.Observe(VoiceStart(key));
      fe.SetState(key, VoicePtt);
    } else {
      fe.SetState(key, VoicePttUnavailable);
    }
  }

  method EngineKey(w: World, fe: Frontend, e: KeyEvent)
    requires fe.Valid()
    modifies fe`vk, fe`running, fe`log, fe.keyStates, fe.keyboard
    ensures fe.Valid() && fe.keyboard == old(fe.keyboard)
    ensures var s := old(fe.Abs());
            fe.Abs() ==
            if CandidateKeeps(w, s, e, false) then AskEngine(s, e, false)
            else if !w.engineHandles(s.log, e, false) || IsModifierKey(e.keysym) then
              SetTrack(ForwardKey(AskEngine(s, e, false), e.key, true), e.key, Forwarded)
            else AskEngine(s, e, false)
  {
    hide SetTrack, ForwardKey, Observed, IsNavigation, IsModifierKey;
    var handled := OfferEngine(w, fe, e, false);
    if handled {
      if IsModifierKey(e.keysym) {
        ForwardAs(fe, e.key, Forwarded);
      }
      return;
    }
    var keep := CandidateGuard(w, fe, e.keysym);
    if !keep {
      ForwardAs(fe, e.key, Forwarded);
    }
  }

  method PassedPress(w: World, fe: Frontend, e: KeyEvent)
    requires fe.Valid() && fe.keyboard != null
    modifies fe`vk, fe`running, fe`log, fe.keyStates, fe.keyboard
    ensures fe.Valid() && fe.keyboard == old(fe.keyboard)
    ensures fe.Abs() == RoutePassed(w, old(fe.Abs()), e)
  {
    hide SetTrack, ForwardKey, CandidateKeeps, Observed, ReservedAction, IsAppShortcut, IsPrintable, ReleaseGrab,
         IsModifierKey;
    var reserved := ReservedAction(fe.shortcuts, e.keysym, e.mods);
    if reserved == EmergencyExit {
      StopOnEmergency(fe, e.key);
    } else if reserved == VoicePushToTalk && w.haveVoice {
      VoiceKey(w, fe, e.key);
    } else if reserved == NotReserved && IsAppShortcut(e.keysym, e.mods) {
      ForwardAs(fe, e.key, AppShortcut);
    } else if !Blocking(e.mods) && IsPrintable(e.unicode) && w.basicForwards(fe.log) {
      ForwardAs(fe, e.key, BasicPassthrough);
    } else {
      EngineKey(w, fe, e);
    }
  }

  method FreshPress(w: World, fe: Frontend, e: KeyEvent)
    requires fe.Valid() && fe.keyboard != null
    modifies fe`vk, fe`running, fe`log, fe`owned, fe.keyStates, fe.keyGenerations, fe.keyboard
    ensures fe.Valid() && fe.keyboard == old(fe.keyboard)
    ensures fe.Abs() == RouteFresh(w, old(fe.Abs()), e)
  {
    hide RoutePassed, SetTrack, Claim, InGuardWindow;
    fe.ClaimCurrentGeneration(e.key);
    assert fe.Abs() == Claim(old(fe.Abs()), e.key);
    assert Claim(old(fe.Abs()), e.key).epoch == old(fe.epoch) by { ClaimAside(old(fe.Abs()), e.key); }
    var stale := fe.keyboard.suppressStale && InGuardWindow(fe.keyboard.createdAt, fe.epoch);
    if fe.keyboard.suppressStale && fe.keyboard.suppressedCount == 0 && !stale {
      fe.keyboard.suppressStale := false;
    }
    if stale {
      fe.SetState(e.key, SuppressedStartup);
      fe.keyboard.suppressedCount := fe.keyboard.suppressedCount + 1;
      return;
    }
    PassedPress(w, fe, e);
  }

  lemma ClaimAside(s: State, k: nat)
    ensures Claim(s, k).epoch == s.epoch && Claim(s, k).grab == s.grab
  {
  }

  method RoutePressEvent(w: World, fe: Frontend, e: KeyEvent)
    requires fe.Valid() && fe.keyboard != null
    modifies fe`vk, fe`running, fe`log, fe`owned, fe.keyStates, fe.keyGenerations, fe.keyboard
    ensures fe.Valid() && fe.keyboard == old(fe.keyboard)
    ensures fe.Abs() == RoutePress(w, old(fe.Abs()), e)
  {
    hide RouteFresh, ForwardKey, Observed;
    fe.Observe(Routed(e));
    var t := fe.GetState(e.key);
    match t
    case ReleasedPending =>
    case SuppressedStartup =>
    case AppShortcut =>
      if Blocking(fe.keyboard.physical) {
        fe.ForwardKey(e.key, true);
      }
    case Forwarded => fe.ForwardKey(e.key, true);
    case _ => FreshPress(w, fe, e);
  }

  // ---- key_route.c: release ----

  method LowerStaleFlag(fe: Frontend)
    requires fe.Valid() && fe.keyboard != null
    modifies fe.keyboard
    ensures fe.Valid() && fe.Abs() == ClearStaleFlag(old(fe.Abs()))
  {
    if fe.keyboard.suppressStale && fe.keyboard.suppressedCount == 0 {
      fe.keyboard.suppressStale := false;
    }
  }

  method CountDown(fe: Frontend)
    requires fe.Valid() && fe.keyboard != null
    modifies fe.keyboard
    ensures fe.Valid()
    ensures var s := old(fe.Abs()); var g := s.grab.value;
            fe.Abs() ==
            s.(grab := Some(g.(suppressedCount := if g.suppressedCount > 0 then g.suppressedCount - 1 else 0)))
  {
    if fe.keyboard.suppressedCount > 0 {
      fe.keyboard.suppressedCount := fe.keyboard.suppressedCount - 1;
    }
  }

  method ReleaseSuppressed(w: World, fe: Frontend, e: KeyEvent)
    requires fe.Valid() && fe.keyboard != null && TrackOf(fe.Abs(), e.key) == SuppressedStartup
    modifies fe`vk, fe`running, fe`log, fe.keyStates, fe.keyGenerations, fe.keyboard
    ensures fe.Valid() && fe.keyboard == old(fe.keyboard)
    ensures fe.Abs() == RouteReleaseBody(w, old(fe.Abs()), e)
  {
    hide ForwardKey, ClearTracking, ClearStaleFlag;
    fe.ClearKey(e.key);
    assert ClearTracking(old(fe.Abs()), e.key).grab == old(fe.Abs()).grab by { ClearAside(old(fe.Abs()), e.key); }
    CountDown(fe);
    LowerStaleFlag(fe);
    fe.ForwardKey(e.key, false);
  }

  method ReleaseForwarded(w: World, fe: Frontend, e: KeyEvent)
    requires fe.Valid() && fe.keyboard != null && TrackOf(fe.Abs(), e.key) == Forwarded
    modifies fe`vk, fe`running, fe`log, fe.keyStates, fe.keyGenerations, fe.keyboard
    ensures fe.Valid() && fe.keyboard == old(fe.keyboard)
    ensures fe.Abs() == RouteReleaseBody(w, old(fe.Abs()), e)
  {
    hide ForwardKey, ClearTracking, Observed, IsNavigation;
    fe.ClearKey(e.key);
    var handled := OfferEngine(w, fe, e, false);
    if !handled {
      var keep := CandidateGuard(w, fe, e.keysym);
      if keep {
        return;
      }
    }
    fe.ForwardKey(e.key, false);
  }

  method ReleaseIdle(w: World, fe: Frontend, e: KeyEvent)
    requires fe.Valid() && fe.keyboard != null && TrackOf(fe.Abs(), e.key) == Idle
    modifies fe`vk, fe`running, fe`log, fe.keyStates, fe.keyGenerations, fe.keyboard
    ensures fe.Valid() && fe.keyboard == old(fe.keyboard)
    ensures fe.Abs() == RouteReleaseBody(w, old(fe.Abs()), e)
  {
    hide ForwardKey, ClearTracking, ClearStaleFlag, Observed, InGuardWindow, OrphanNeedsCleanup, IsModifierKey;
    var generation := if e.key < fe.keyGenerations.Length then fe.keyGenerations[e.key] else 0;
    if fe.activeGeneration == 0 || generation != fe.activeGeneration {
      if !IsModifierKey(e.keysym) &&
         (InGuardWindow(fe.keyboard.createdAt, fe.epoch) ||
          OrphanNeedsCleanup(e.keysym, e.mods, fe.keyboard.sawBlocking)) {
        fe.ForwardKey(e.key, false);
      }
      fe.ClearKey(e.key);
      return;
    }
    LowerStaleFlag(fe);
    var handled := OfferEngine(w, fe, e, false);
    fe.ClearKey(e.key);
  }

  method ReleaseBody(w: World, fe: Frontend, e: KeyEvent)
    requires fe.Valid() && fe.keyboard != null
    modifies fe`vk, fe`running, fe`log, fe.keyStates, fe.keyGenerations, fe.keyboard
    ensures fe.Valid() && fe.keyboard == old(fe.keyboard)
    ensures fe.Abs() == RouteReleaseBody(w, old(fe.Abs()), e)
  {
    hide ForwardKey, ClearTracking, Observed, ClearStaleFlag, OrphanForwarded, CandidateKeeps;
    var t := fe.GetState(e.key);
    match t
    case Idle => ReleaseIdle(w, fe, e);
    case Forwarded => ReleaseForwarded(w, fe, e);
    case SuppressedStartup => ReleaseSuppressed(w, fe, e);
    case VoicePtt =>
      if w.haveVoice {
        fe.Observe(VoiceStop(e.key));
      }
      fe.ClearKey(e.key);
    case ReleasedPending => fe.ClearKey(e.key);
    case VoicePttUnavailable => fe.ClearKey(e.key);
    case _ =>
      fe.ClearKey(e.key);
      fe.ForwardKey(e.key, false);
  }

  // ---- wl_keyboard.c, keyboard_repeat.c ----

  method ProcessKeyPress(w: World, fe: Frontend, e: KeyEvent)
    requires fe.Valid() && fe.keyboard != null
    modifies fe`vk, fe`running, fe`log, fe`owned, fe.keyStates, fe.keyGenerations, fe.keyboard
    ensures fe.Valid() && fe.keyboard == old(fe.keyboard)
    ensures fe.Abs() == ProcessPress(w, old(fe.Abs()), e)
  {
    hide RoutePress;
    RoutePressEvent(w, fe, e);
    var t := fe.GetState(e.key);
    if RepeatAllowed(t) && w.startsRepeat(fe.log, e) && !Blocking(e.mods) {
      fe.keyboard.repeating, fe.keyboard.repeatKey, fe.keyboard.repeatTime := true, e.key, e.time;
    }
  }

  method ProcessKeyRelease(w: World, fe: Frontend, e: KeyEvent)
    requires fe.Valid() && fe.keyboard != null
    modifies fe`vk, fe`running, fe`log, fe.keyStates, fe.keyGenerations, fe.keyboard
    ensures fe.Valid() && fe.keyboard == old(fe.keyboard)
    ensures fe.Abs() == ProcessRelease(w, old(fe.Abs()), e)
  {
    hide RouteReleaseBody, Observed, StopRepeat;
    if fe.keyboard.repeating && fe.keyboard.repeatKey == e.key {
      StopRepeating(fe);
    }
    fe.Observe(Routed(e));
    ReleaseBody(w, fe, e);
    fe.Observe(Freed(e.key));
  }

  method RepeatTick(w: World, fe: Frontend, e: KeyEvent)
    requires fe.Valid() && fe.keyboard != null
    modifies fe`vk, fe`running, fe`log, fe.keyStates, fe.keyboard
    ensures fe.Valid() && fe.keyboard == old(fe.keyboard)
    ensures fe.Abs() == RepeatFire(w, old(fe.Abs()), e)
  {
    hide ForwardKey, SetTrack, Observed, StopRepeat, IsNavigation;
    var t := fe.GetState(e.key);
    if t == AppShortcut {
      if Blocking(fe.keyboard.physical) {
        fe.ForwardKey(e.key, true);
      } else {
        StopRepeating(fe);
      }
    } else if t == Forwarded || t == BasicPassthrough {
      fe.ForwardKey(e.key, true);
    } else if !RepeatAllowed(t) {
      StopRepeating(fe);
    } else {
      var handled := OfferEngine(w, fe, e, true);
      if !handled {
        var keep := CandidateGuard(w, fe, e.keysym);
        if !keep {
          ForwardAs(fe, e.key, Forwarded);
        }
      }
    }
  }

  method DispatchRepeatTimer(w: World, fe: Frontend, keysym: nat, unicode: nat, xkb: Mods,
                             timerRead: bool, focused: bool)
    requires fe.Valid() && fe.keyboard != null
    modifies fe`vk, fe`running, fe`log, fe.keyStates, fe.keyboard
    ensures fe.Valid() && fe.keyboard == old(fe.keyboard)
    ensures fe.Abs() == DispatchRepeat(w, old(fe.Abs()), keysym, unicode, xkb, timerRead, focused)
  {
    hide RepeatFire, StopRepeat;
    if !fe.keyboard.repeating {
      return;
    }
    if fe.phase != Active {
      StopRepeating(fe);
      return;
    }
    if !timerRead {
      return;
    }
    if !fe.keyboard.xkbLoaded || !focused {
      StopRepeating(fe);
      return;
    }
    var mods := fe.keyboard.physical.(
      caps := fe.keyboard.physical.caps || xkb.caps, num := fe.keyboard.physical.num || xkb.num);
    RepeatTick(w, fe, KeyEvent(true, fe.keyboard.repeatKey, keysym, mods, unicode, fe.keyboard.repeatTime));
  }
}
