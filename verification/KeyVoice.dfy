/**
 Push-to-talk: which keys hold the voice session open, read from the log alone,
 and when that is what the tracking table says.
 */
module KeyVoice {
  import opened KeyTypes
  import opened KeySpec
  import opened KeyShape
  import opened KeySafety
  import opened KeyBoundary
  import opened KeyRuns
  import opened KeyTrace
  import opened KeyState

  function RecordStep(keys: set<nat>, o: Obs): set<nat> {
    match o
    case VoiceStart(k) => keys + {k}
    case VoiceStop(k) => keys - {k}
    case _ => keys
  }

  /** Keys that started the voice session and have not stopped it. */
  ghost function Recording(log: Log): set<nat> {
    if log == [] then {} else RecordStep(Recording(log[..|log| - 1]), log[|log| - 1])
  }

  lemma RecordNext(log: Log, o: Obs)
    ensures Recording(log + [o]) == RecordStep(Recording(log), o)
  {
    assert (log + [o])[..|log|] == log;
  }

  /** Entries that are about something else leave it alone. */
  lemma {:induction false} RecordAside(log: Log, more: Log)
    requires forall i :: 0 <= i < |more| ==> !more[i].VoiceStart? && !more[i].VoiceStop?
    ensures Recording(log + more) == Recording(log)
  {
    if more == [] {
      assert log + more == log;
    } else {
      var n := |more| - 1;
      RecordAside(log, more[..n]);
      RecordNext(log + more[..n], more[n]);
      assert log + more == log + more[..n] + [more[n]];
    }
  }

  /** Keys tracked as push-to-talk. */
  ghost function Talking(s: State): set<nat> {
    set k: nat | k < |s.track| && s.track[k] == VoicePtt
  }

  // ---- one step ----

  /** A press starts the voice session: it passes the startup guard, push-to-talk is bound to it and
      available. */
  predicate PressTalks(w: World, s: State, e: KeyEvent)
    requires s.grab.Some?
  {
    PressDecision(w, s, e) == Talk
  }

  lemma PutTalking(s: State, r: State, k: nat, t: Track)
    ensures r.track == s.track ==> Talking(r) == Talking(s)
    ensures r.track == Put(s.track, k, t) ==>
              Talking(r) == Talking(s) - {k} + (if k < |s.track| && t == VoicePtt then {k} else {})
    ensures k in Talking(s) <==> TrackOf(s, k) == VoicePtt
  {
  }

  lemma PressRecords(w: World, s: State, e: KeyEvent)
    requires s.grab.Some? && e.isPress
    ensures var r := ProcessPress(w, s, e);
            && Recording(r.log) == Recording(s.log) + (if PressTalks(w, s, e) then {e.key} else {})
            && Talking(r) == Talking(s) - {e.key} +
               (if e.key < |s.track| && PressTrack(w, s, e) == VoicePtt then {e.key} else {})
            && (e.key < |s.track| && PressTalks(w, s, e) ==> PressTrack(w, s, e) == VoicePtt)
  {
    hide ProcessPress, Verdict, OfferForwards, Open, Early, Bound, Talking, Put;
    PressTrace(w, s, e);
    PutTalking(s, ProcessPress(w, s, e), e.key, PressTrack(w, s, e));
    var base := s.log + [Routed(e)];
    RecordNext(s.log, Routed(e));
    if PressTalks(w, s, e) {
      assert PressEntries(w, s, e) == [VoiceStart(e.key)];
      RecordNext(base, VoiceStart(e.key));
    } else {
      NoTalkEntries(w, s, e);
      RecordAside(base, PressEntries(w, s, e));
    }
  }

  lemma NoTalkEntries(w: World, s: State, e: KeyEvent)
    requires s.grab.Some? && !PressTalks(w, s, e)
    ensures var es := PressEntries(w, s, e); forall i :: 0 <= i < |es| ==> !es[i].VoiceStart? && !es[i].VoiceStop?
  {
    hide OfferForwards, Open, Early, Bound;
  }

  /** The release of a push-to-talk key stops the session, exactly once, and no other release does. */
  lemma ReleaseRecords(w: World, s: State, e: KeyEvent)
    requires s.grab.Some? && !e.isPress
    ensures var r := ProcessRelease(w, s, e); var stops := TrackOf(s, e.key) == VoicePtt && w.haveVoice;
            && r.log == s.log + [Routed(e)] + ReleaseEntries(w, s, e) + [Freed(e.key)]
            && (stops ==> ReleaseEntries(w, s, e) == [VoiceStop(e.key)])
            && (!stops ==> forall o :: o in ReleaseEntries(w, s, e) ==> !o.VoiceStop?)
            && (forall o :: o in ReleaseEntries(w, s, e) ==> !o.VoiceStart?)
            && Recording(r.log) == Recording(s.log) - (if stops then {e.key} else {})
            && Talking(r) == Talking(s) - {e.key}
  {
    hide ProcessRelease, ReleaseEntries, Talking, Put;
    ReleaseTrace(w, s, e);
    PutTalking(s, ProcessRelease(w, s, e), e.key, Idle);
    StopEntries(w, s, e);
    var es := ReleaseEntries(w, s, e);
    var base := s.log + [Routed(e)];
    RecordNext(s.log, Routed(e));
    if TrackOf(s, e.key) == VoicePtt && w.haveVoice {
      RecordNext(base, VoiceStop(e.key));
    } else {
      RecordAside(base, es);
    }
    RecordNext(base + es, Freed(e.key));
  }

  lemma StopEntries(w: World, s: State, e: KeyEvent)
    requires s.grab.Some?
    ensures var es := ReleaseEntries(w, s, e); var stops := TrackOf(s, e.key) == VoicePtt && w.haveVoice;
            && (stops ==> es == [VoiceStop(e.key)])
            && (!stops ==> forall o :: o in es ==> !o.VoiceStop?) && (forall o :: o in es ==> !o.VoiceStart?)
  {
    hide OrphanGoesOn, Open, ArrowSym;
  }

  lemma TickRecords(w: World, s: State, m: Step)
    requires s.grab.Some? && m.Repeat?
    ensures var r := Apply(w, s, m); var k := s.grab.value.repeatKey;
            var e := TimerEvent(s.grab.value, m.keysym, m.unicode, m.xkb);
            && Recording(r.log) == Recording(s.log)
            && Talking(r) ==
               Talking(s) - (if Ticks(s, m.timerRead, m.focused) && TickDeclined(w, s.log, e) then {k} else {})
  {
    hide DispatchRepeat, TickDeclined, Open;
    TickTrace(w, s, m.keysym, m.unicode, m.xkb, m.timerRead, m.focused);
    var e := TimerEvent(s.grab.value, m.keysym, m.unicode, m.xkb);
    RecordAside(s.log, if Ticks(s, m.timerRead, m.focused) then TickEntries(w, s, e) else []);
    assert s.log + [] == s.log;
  }

  lemma {:induction false} ReleasesAside(track: seq<Track>)
    ensures forall o :: o in ReleasesFor(track) ==> o.WireKey?
  {
    if track != [] {
      ReleasesAside(track[..|track| - 1]);
    }
  }

  lemma BoundaryRecords(w: World, s: State, m: Step)
    requires Shape(s) && Quiescent(s) && IsBoundary(m)
    ensures Recording(Apply(w, s, m).log) == Recording(s.log) && Talking(Apply(w, s, m)) == {}
  {
    hide Apply, Open, Carries, CanSend, BoundaryEffect;
    StepTrace(w, s, m);
    ReleasesAside(s.track);
    BoundaryStep(w, s, m);
    BoundaryMeans(s, Apply(w, s, m));
    ResetAside(s);
    var es := Entries(w, s, m);
    assert forall o :: o in es ==> o.WireKey? || o.WireMods? || o.Boundary?;
    assert forall i :: 0 <= i < |es| ==> es[i] in es;
    RecordAside(s.log, es);
  }

  lemma ResetAside(s: State)
    ensures forall o :: o in ResetEntries(s) ==> o.WireKey? || o.WireMods? || o.Boundary?
  {
    hide Open, Carries, CanSend;
    ReleasesAside(s.track);
  }

  lemma OtherRecords(w: World, s: State, m: Step)
    requires Shape(s) && !m.Deliver? && !m.Repeat? && !IsBoundary(m)
    ensures Recording(Apply(w, s, m).log) == Recording(s.log) && Talking(Apply(w, s, m)) == Talking(s)
  {
    hide Apply, Open;
    StepTrace(w, s, m);
    RecordAside(s.log, Entries(w, s, m));
    OtherTalking(w, s, m);
  }

  lemma OtherTalking(w: World, s: State, m: Step)
    requires !m.Deliver? && !m.Repeat? && !IsBoundary(m)
    ensures Talking(Apply(w, s, m)) == Talking(s)
  {
    hide ProcessPress, ProcessRelease, DispatchRepeat, OrphanRelease, OnModifiers, OnKeymap, RejectKey, HealthCheck,
         ReleaseGrab, HardReset, Rebuild, OnResume, Put, Talking, Tried, Observed, FailSafe;
    var r := Apply(w, s, m);
    if s.grab.None? {
      if m.Orphan? {
        assert r == s;
      } else {
        GrablessInert(w, s, m);
      }
    } else if m.Orphan? {
      OrphanState(s, m.e);
      if TrackOf(s, m.e.key) == Forwarded {
        PutTalking(s, r, m.e.key, Idle);
      }
    } else if m.ModifierUpdate? {
      ModifierState(s, m.depressed, m.latched, m.locked, m.group, m.before, m.after);
    } else if m.Keymap? {
      KeymapState(s, m.duplicated, m.compiled);
    } else {
      FlagState(w, s, m);
    }
    assert !m.Orphan? ==> Talking(r) == Talking(s) by { PutTalking(s, r, 0, Idle); }
  }

  /** The steps that part the session from the table: a press that takes the session's key elsewhere, a
      press of push-to-talk on a key outside the table, a repeat tick the engine declines, and a boundary
      while a key talks. */
  ghost predicate Parts(w: World, s: State, m: Step) {
    match m
    case Deliver(e) =>
      s.grab.Some? && e.isPress &&
      if e.key < MAX_TRACKED_KEYS then TrackOf(s, e.key) == VoicePtt && PressTrack(w, s, e) != VoicePtt
      else PressTalks(w, s, e)
    case Repeat(keysym, unicode, xkb, timerRead, focused) =>
      Ticks(s, timerRead, focused) && TrackOf(s, s.grab.value.repeatKey) == VoicePtt &&
      TickDeclined(w, s.log, TimerEvent(s.grab.value, keysym, unicode, xkb))
    case Reset => Talking(s) != {}
    case Regrab(_, _) => Talking(s) != {}
    case Resume => Talking(s) != {}
    case _ => false
  }

  /** The session is open for exactly the keys tracked as push-to-talk, and only a build with voice ever
      tracks one. */
  ghost predicate InStep(w: World, s: State) {
    Recording(s.log) == Talking(s) && (Talking(s) != {} ==> w.haveVoice)
  }

  lemma PressInStep(w: World, s: State, e: KeyEvent)
    requires Shape(s) && s.grab.Some? && e.isPress && InStep(w, s)
    ensures InStep(w, ProcessPress(w, s, e)) <==> !Parts(w, s, Deliver(e))
  {
    hide ProcessPress, PressTrack, PressDecision;
    ShapeSizes(s);
    PressRecords(w, s, e);
    TalkingAt(s, e.key);
    if PressTrack(w, s, e) == VoicePtt && TrackOf(s, e.key) != VoicePtt {
      OnlyTalk(w, s, e);
    }
    TalkHasVoice(w, s, e);
  }

  lemma TalkHasVoice(w: World, s: State, e: KeyEvent)
    requires s.grab.Some?
    ensures PressTalks(w, s, e) ==> w.haveVoice
  {
    hide Early, Bound;
  }

  lemma TalkingAt(s: State, k: nat)
    ensures k in Talking(s) <==> TrackOf(s, k) == VoicePtt
  {
  }

  lemma OnlyTalk(w: World, s: State, e: KeyEvent)
    requires s.grab.Some? && PressTrack(w, s, e) == VoicePtt && TrackOf(s, e.key) != VoicePtt
    ensures PressTalks(w, s, e)
  {
    hide OfferForwards, Early, Bound;
  }

  /** One step, any state: the session stays with the table if and only if the step is not a parting one. */
  lemma StepInStep(w: World, s: State, m: Step)
    requires Shape(s) && Quiescent(s) && InStep(w, s)
    ensures InStep(w, Apply(w, s, m)) <==> !Parts(w, s, m)
  {
    hide Apply, Shape, Quiescent, Talking, Recording, PressTrack, PressTalks, TickDeclined, ProcessPress;
    if m.Deliver? {
      DeliverInStep(w, s, m.e);
    } else if m.Repeat? {
      TickInStep(w, s, m);
    } else if IsBoundary(m) {
      BoundaryRecords(w, s, m);
    } else {
      OtherRecords(w, s, m);
    }
  }

  lemma DeliverInStep(w: World, s: State, e: KeyEvent)
    requires Shape(s) && InStep(w, s)
    ensures InStep(w, Apply(w, s, Deliver(e))) <==> !Parts(w, s, Deliver(e))
  {
    hide ProcessPress, ProcessRelease, Recording, PressTrack, PressDecision, ReleaseEntries;
    if s.grab.Some? {
      if e.isPress {
        PressInStep(w, s, e);
      } else {
        ReleaseRecords(w, s, e);
        TalkingAt(s, e.key);
      }
    }
  }

  lemma TickInStep(w: World, s: State, m: Step)
    requires m.Repeat? && InStep(w, s)
    ensures InStep(w, Apply(w, s, m)) <==> !Parts(w, s, m)
  {
    hide DispatchRepeat, Recording, TickDeclined;
    if s.grab.Some? {
      TickRecords(w, s, m);
      TalkingAt(s, s.grab.value.repeatKey);
    }
  }

  ghost predicate NeverParts(w: World, s: State, ms: seq<Step>) {
    forall i :: 0 <= i < |ms| ==> !Parts(w, At(w, s, ms, i), ms[i])
  }

  ghost predicate AlwaysInStep(w: World, s: State, ms: seq<Step>) {
    forall i :: 0 <= i <= |ms| ==> InStep(w, At(w, s, ms, i))
  }

  lemma {:induction false} InStepUpTo(w: World, s: State, ms: seq<Step>, i: nat)
    requires Initial(s) && i <= |ms| && NeverParts(w, s, ms)
    ensures InStep(w, At(w, s, ms, i))
  {
    hide Apply, Shape, Parts;
    if i == 0 {
      assert ms[..0] == [];
    } else {
      InStepUpTo(w, s, ms, i - 1);
      RunInvariants(w, s, ms, i - 1);
      AtNext(w, s, ms, i - 1);
      StepInStep(w, At(w, s, ms, i - 1), ms[i - 1]);
    }
  }

  /** Over any run: the voice session is open for exactly the keys tracked as push-to-talk, throughout,
      if and only if no step of the run is a parting one. */
  lemma VoiceFollowsKeys(w: World, s: State, ms: seq<Step>)
    requires Initial(s)
    ensures AlwaysInStep(w, s, ms) <==> NeverParts(w, s, ms)
  {
    hide Apply, Parts, InStep, Shape, EngineOk, Quiescent, At;
    if NeverParts(w, s, ms) {
      forall i | 0 <= i <= |ms| ensures InStep(w, At(w, s, ms, i)) { InStepUpTo(w, s, ms, i); }
    }
    if AlwaysInStep(w, s, ms) {
      forall i | 0 <= i < |ms| ensures !Parts(w, At(w, s, ms, i), ms[i]) {
        RunInvariants(w, s, ms, i);
        AtNext(w, s, ms, i);
        assert InStep(w, At(w, s, ms, i)) && InStep(w, At(w, s, ms, i + 1));
        StepInStep(w, At(w, s, ms, i), ms[i]);
      }
    }
  }
}
