/**
 The arbiter's eight-slot buffer updated in place, and the key dispatcher in
 front of it: proved to take exactly the steps of ArbiterSpec and KeySession.
 */
module KeyArbiterClass {
  import opened KeyTypes
  import opened KeySpec
  import opened ArbiterSpec
  import opened KeySession
  import opened FrontendClass
  import opened KeyRouter

  class KeyArbiter {
    var buffering: bool
    const buffer: array<KeyEvent>
    var count: nat

    ghost predicate Valid()
      reads this
    {
      buffer.Length == MAX_BUFFERED && count <= MAX_BUFFERED
    }

    ghost function View(): Arb
      requires Valid()
      reads this, buffer
    {
      Arb(buffering, buffer[..count])
    }

    constructor ()
      ensures Valid() && View() == IDLE && fresh(buffer)
    {
      buffering, count := false, 0;
      buffer := new KeyEvent[MAX_BUFFERED](_ => KeyEvent(false, 0, 0, NO_MODS, 0, 0));
    }

    method Reset()
      requires Valid()
      modifies this
      ensures Valid() && View() == IDLE
    {
      buffering, count := false, 0;
    }

    method PushEvent(e: KeyEvent)
      requires Valid()
      modifies this`count, buffer
      ensures Valid() && View() == old(View()).(buffer := Push(old(View()).buffer, e))
    {
      if count >= MAX_BUFFERED {
        return;
      }
      buffer[count] := e;
      count := count + 1;
    }
  }

  lemma StepsPasses(acts: seq<KeyEvent>, e: KeyEvent)
    ensures StepsOf(Passes(acts + [e])) == StepsOf(Passes(acts)) + [Deliver(e)]
  {
    var all := Passes(acts + [e]);
    assert all[..|acts|] == Passes(acts);
  }

  lemma PassNothing(w: World, s: State)
    ensures Run(w, s, StepsOf(Passes([]))) == s && Run(w, s, StepsOf([])) == s
  {
    assert Passes([]) == [];
  }

  /** Running one act more. */
  lemma RunPass(w: World, s: State, events: seq<KeyEvent>, e: KeyEvent)
    ensures Run(w, s, StepsOf(Passes(events + [e]))) == Apply(w, Run(w, s, StepsOf(Passes(events))), Deliver(e))
  {
    hide Apply, Run;
    StepsPasses(events, e);
    RunAppend(w, s, StepsOf(Passes(events)), [Deliver(e)]);
    RunOne(w, Run(w, s, StepsOf(Passes(events))), Deliver(e));
  }

  lemma RunSinglePass(w: World, s: State, e: KeyEvent)
    ensures Run(w, s, StepsOf([Pass(e)])) == Apply(w, s, Deliver(e))
  {
    hide Apply, Run;
    assert [Pass(e)][..0] == [] && StepsOf([Pass(e)]) == [] + [Deliver(e)];
    assert StepsOf([Pass(e)]) == [Deliver(e)];
    RunOne(w, s, Deliver(e));
  }

  method DeliverEvent(w: World, fe: Frontend, e: KeyEvent)
    requires fe.Valid() && fe.keyboard != null
    modifies fe`vk, fe`running, fe`log, fe`owned, fe.keyStates, fe.keyGenerations, fe.keyboard
    ensures fe.Valid() && fe.keyboard == old(fe.keyboard)
    ensures fe.Abs() == Apply(w, old(fe.Abs()), Deliver(e))
  {
    hide ProcessPress, ProcessRelease;
    if e.isPress {
      ProcessKeyPress(w, fe, e);
    } else {
      ProcessKeyRelease(w, fe, e);
    }
  }

  /** Deliver everything held back, in order, and go idle. */
  method ReplayBuffer(w: World, fe: Frontend, arb: KeyArbiter)
    requires fe.Valid() && fe.keyboard != null && arb.Valid()
    modifies fe`vk, fe`running, fe`log, fe`owned, fe.keyStates, fe.keyGenerations, fe.keyboard, arb
    ensures fe.Valid() && fe.keyboard == old(fe.keyboard) && arb.Valid() && arb.View() == IDLE
    ensures fe.Abs() == Run(w, old(fe.Abs()), StepsOf(Passes(old(arb.View()).buffer)))
  {
    hide Apply, Run, StepsOf, Passes;
    PassNothing(w, fe.Abs());
    assert arb.buffer[..0] == [];
    for i := 0 to arb.count
      invariant fe.Valid() && fe.keyboard == old(fe.keyboard)
      invariant arb.Valid() && arb.View() == old(arb.View()) && arb.count == old(arb.count)
      invariant fe.Abs() == Run(w, old(fe.Abs()), StepsOf(Passes(arb.buffer[..i])))
    {
      RunPass(w, old(fe.Abs()), arb.buffer[..i], arb.buffer[i]);
      assert arb.buffer[..i + 1] == arb.buffer[..i] + [arb.buffer[i]];
      DeliverEvent(w, fe, arb.buffer[i]);
    }
    arb.Reset();
  }

  /** Settle one event of a completed chord. */
  method SettleEvent(fe: Frontend, e: KeyEvent)
    requires fe.Valid() && fe.keyboard != null
    modifies fe`vk, fe`running, fe`log, fe.keyStates, fe.keyGenerations, fe.keyboard
    ensures fe.Valid() && fe.keyboard == old(fe.keyboard)
    ensures fe.Abs() == OrphanRelease(old(fe.Abs()), e)
  {
    hide ForwardKey, ClearTracking, Observed;
    var t := fe.GetState(e.key);
    if t != Forwarded {
      return;
    }
    fe.ForwardKey(e.key, false);
    fe.ClearKey(e.key);
    fe.Observe(Freed(e.key));
  }

  lemma RunOrphan(w: World, s: State, events: seq<KeyEvent>, e: KeyEvent)
    requires s.grab.Some? && Run(w, s, Orphans(events)).grab.Some?
    ensures Run(w, s, Orphans(events + [e])) ==
            if e.isPress then Run(w, s, Orphans(events)) else OrphanRelease(Run(w, s, Orphans(events)), e)
  {
    hide OrphanRelease, Run;
    assert (events + [e])[..|events|] == events;
    if e.isPress {
      assert Orphans(events + [e]) == Orphans(events) + [];
      assert Orphans(events) + [] == Orphans(events);
    } else {
      RunAppend(w, s, Orphans(events), [Orphan(e)]);
      RunOne(w, Run(w, s, Orphans(events)), Orphan(e));
    }
  }

  lemma RunSwallow(w: World, s: State, events: seq<KeyEvent>)
    ensures Run(w, s, StepsOf([Swallow(events)])) == Emit(Run(w, s, Orphans(events)), EngineSwitch)
    ensures Run(w, s, Orphans([])) == s
  {
    var acts := [Swallow(events)];
    assert acts[..0] == [] && StepsOf(acts) == [] + (Orphans(events) + [SwitchEngine]);
    assert StepsOf(acts) == Orphans(events) + [SwitchEngine];
    RunAppend(w, s, Orphans(events), [SwitchEngine]);
    RunOne(w, Run(w, s, Orphans(events)), SwitchEngine);
  }

  /** The chord is complete: settle its forwarded keys, switch the engine, forget the buffer. */
  method ConsumeChord(w: World, fe: Frontend, arb: KeyArbiter)
    requires fe.Valid() && fe.keyboard != null && arb.Valid()
    modifies fe`vk, fe`running, fe`log, fe.keyStates, fe.keyGenerations, fe.keyboard, arb
    ensures fe.Valid() && fe.keyboard == old(fe.keyboard) && arb.Valid() && arb.View() == IDLE
    ensures fe.Abs() == Run(w, old(fe.Abs()), StepsOf([Swallow(old(arb.View()).buffer)]))
  {
    hide Apply, Run, StepsOf, Orphans, OrphanRelease, Observed;
    ghost var s := fe.Abs();
    RunSwallow(w, s, arb.View().buffer);
    assert arb.buffer[..0] == [];
    for i := 0 to arb.count
      invariant fe.Valid() && fe.keyboard == old(fe.keyboard)
      invariant arb.Valid() && arb.View() == old(arb.View()) && arb.count == old(arb.count)
      invariant fe.Abs() == Run(w, s, Orphans(arb.buffer[..i]))
    {
      RunOrphan(w, s, arb.buffer[..i], arb.buffer[i]);
      assert arb.buffer[..i + 1] == arb.buffer[..i] + [arb.buffer[i]];
      if !arb.buffer[i].isPress {
        SettleEvent(fe, arb.buffer[i]);
      }
    }
    fe.Observe(EngineSwitch);
    arb.Reset();
  }

  method PressKey(w: World, fe: Frontend, arb: KeyArbiter, x: Arrival)
    requires fe.Valid() && fe.keyboard != null && arb.Valid() && x.e.isPress
    modifies fe`vk, fe`running, fe`log, fe`owned, fe.keyStates, fe.keyGenerations, fe.keyboard, arb, arb.buffer
    ensures fe.Valid() && fe.keyboard == old(fe.keyboard) && arb.Valid()
    ensures var r := ArbPress(old(arb.View()), x);
            arb.View() == r.0 && fe.Abs() == Run(w, old(fe.Abs()), StepsOf(r.1))
  {
    hide Apply, Run, StepsOf, Passes, ShouldStart, ShouldCancel;
    if !arb.buffering {
      if ShouldStart(x) {
        arb.buffering := true;
        arb.PushEvent(x.e);
        PassNothing(w, fe.Abs());
        return;
      }
      RunSinglePass(w, fe.Abs(), x.e);
      DeliverEvent(w, fe, x.e);
      return;
    }
    if ShouldCancel(x, true) || arb.count >= MAX_BUFFERED - 1 {
      RunPass(w, fe.Abs(), arb.View().buffer, x.e);
      ReplayBuffer(w, fe, arb);
      DeliverEvent(w, fe, x.e);
      return;
    }
    arb.PushEvent(x.e);
    PassNothing(w, fe.Abs());
  }

  method ReleaseKey(w: World, fe: Frontend, arb: KeyArbiter, x: Arrival)
    requires fe.Valid() && fe.keyboard != null && arb.Valid() && !x.e.isPress
    modifies fe`vk, fe`running, fe`log, fe`owned, fe.keyStates, fe.keyGenerations, fe.keyboard, arb, arb.buffer
    ensures fe.Valid() && fe.keyboard == old(fe.keyboard) && arb.Valid()
    ensures var r := ArbRelease(old(arb.View()), x);
            arb.View() == r.0 && fe.Abs() == Run(w, old(fe.Abs()), StepsOf(r.1))
  {
    hide Apply, Run, StepsOf, Passes, ShouldCancel, ChordComplete;
    if !arb.buffering {
      RunSinglePass(w, fe.Abs(), x.e);
      DeliverEvent(w, fe, x.e);
      return;
    }
    if ShouldCancel(x, false) {
      RunPass(w, fe.Abs(), arb.View().buffer, x.e);
      ReplayBuffer(w, fe, arb);
      DeliverEvent(w, fe, x.e);
      return;
    }
    arb.PushEvent(x.e);
    if ChordComplete(x) {
      ConsumeChord(w, fe, arb);
      return;
    }
    PassNothing(w, fe.Abs());
  }

  // ---- wl_keyboard.c: on_key ----

  method RejectEvent(fe: Frontend, key: nat, pressed: bool, failSafe: bool)
    requires fe.Valid() && fe.keyboard != null
    modifies fe`running, fe.keyboard
    ensures fe.Valid() && fe.keyboard == old(fe.keyboard)
    ensures fe.Abs() == RejectKey(old(fe.Abs()), key, pressed, failSafe)
  {
    if pressed && failSafe && fe.phase != Activating {
      fe.DropGrab();
      fe.running := false;
    }
    if !pressed && fe.keyboard.repeating && fe.keyboard.repeatKey == key {
      StopRepeating(fe);
    }
  }

  /** Note the modifier keys physically held, then let the arbiter decide. */
  method ArbitrateKey(w: World, fe: Frontend, arb: KeyArbiter, x: Arrival)
    requires fe.Valid() && fe.keyboard != null && arb.Valid()
    modifies fe`vk, fe`running, fe`log, fe`owned, fe.keyStates, fe.keyGenerations, fe.keyboard, arb, arb.buffer
    ensures fe.Valid() && fe.keyboard == old(fe.keyboard) && arb.Valid()
    ensures var r := ArbStep(old(arb.View()), x);
            && arb.View() == r.0
            && fe.Abs() == Run(w, old(fe.Abs()), [SetPhysical(x.phys)] + StepsOf(r.1))
  {
    hide Apply, Run, StepsOf, ArbPress, ArbRelease;
    RunAfter(w, fe.Abs(), SetPhysical(x.phys), StepsOf(ArbStep(arb.View(), x).1));
    GrabSteps(w, fe.Abs(), x.e.key, x.e.isPress, false, x.phys);
    fe.keyboard.physical := x.phys;
    if x.e.isPress {
      PressKey(w, fe, arb, x);
    } else {
      ReleaseKey(w, fe, arb, x);
    }
  }

  /** The dispatcher, whole: what it does to the frontend and the arbiter. */
  method DispatchKey(w: World, fe: Frontend, arb: KeyArbiter, x: KeyInput)
    requires fe.Valid() && fe.keyboard != null && arb.Valid()
    modifies fe`vk, fe`running, fe`log, fe`owned, fe.keyStates, fe.keyGenerations, fe.keyboard, arb, arb.buffer
    ensures fe.Valid() && fe.keyboard == old(fe.keyboard) && arb.Valid()
    ensures (fe.Abs(), arb.View()) == OnKey(w, old(fe.Abs()), old(arb.View()), x)
  {
    hide Apply, Run, StepsOf, ReservedAction, EffectiveMods, WithKey, RejectKey, ReleaseGrab, ArbStep;
    ghost var s := fe.Abs();
    ghost var a := arb.View();
    if !fe.keyboard.xkbLoaded {
      RunOne(w, s, Dispatched);
      return;
    }
    var mods := EffectiveMods(fe.keyboard.physical, x.xkb, fe.owned, x.keysym, x.pressed);
    if x.pressed && ReservedAction(fe.shortcuts, x.keysym, mods) == EmergencyExit {
      RunAfter(w, s, EarlyExit(x.key), []);
      GrabSteps(w, s, x.key, x.pressed, x.failSafe, NO_MODS);
      fe.DropGrab();
      fe.running := false;
      return;
    }
    if fe.phase != Active || !x.focused {
      RunAfter(w, s, Reject(x.key, x.pressed, x.failSafe), []);
      GrabSteps(w, s, x.key, x.pressed, x.failSafe, NO_MODS);
      RejectEvent(fe, x.key, x.pressed, x.failSafe);
      return;
    }
    var physical := WithKey(fe.keyboard.physical, x.keysym, x.pressed);
    var e := KeyEvent(x.pressed, x.key, x.keysym, mods, x.unicode, x.time);
    ArbitrateKey(w, fe, arb, Arrival(e, physical, fe.shortcuts.switchEngine.mods));
  }

  lemma GrabSteps(w: World, s: State, key: nat, pressed: bool, failSafe: bool, physical: Mods)
    requires s.grab.Some?
    ensures Apply(w, s, EarlyExit(key)) == ReleaseGrab(s).(running := false)
    ensures Apply(w, s, Reject(key, pressed, failSafe)) == RejectKey(s, key, pressed, failSafe)
    ensures Apply(w, s, SetPhysical(physical)) == s.(grab := Some(s.grab.value.(physical := physical)))
  {
  }

}
