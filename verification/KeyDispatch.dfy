/**
 One raw key event from end to end: the steps of the key machine it causes and
 the arbiter it leaves, in key symbols and modifier bits.
 */
module KeyDispatch {
  import opened KeyTypes
  import opened KeySpec
  import opened ArbiterSpec
  import opened KeySession
  import opened KeyPhysical
  import KeyTrace

  /** Before the arbiter: an unloaded keymap drops the key, the emergency chord exits whatever the focus,
      and a key without focus or active phase is rejected. Otherwise the key's modifier is noted first, and
      the arbiter delivers the key, holds it back, replays what it held, or swallows it and switches. */
  lemma KeyTable(s: State, a: Arb, x: KeyInput)
    requires s.grab.Some? && ArbOk(a)
    ensures var g := s.grab.value;
            var m := EffectiveMods(g.physical, x.xkb, s.owned, x.keysym, x.pressed);
            var p := WithKey(g.physical, x.keysym, x.pressed);
            var e := KeyEvent(x.pressed, x.key, x.keysym, m, x.unicode, x.time);
            var b := s.shortcuts.switchEngine.mods;
            var chord := BindingSym(b, x.keysym);
            var more := if |a.buffer| < 8 then a.buffer + [e] else a.buffer;
            KeySteps(s, a, x) ==
            if !g.xkbLoaded then ([], a)
            else if x.pressed && KeyTrace.Bound(s.shortcuts.emergencyExit, x.keysym, m) then ([EarlyExit(x.key)], a)
            else if s.phase != Active || !x.focused then ([Reject(x.key, x.pressed, x.failSafe)], a)
            else if !a.buffering then
              if x.pressed && chord && AllHeld(b, p) && !Stray(b, p) then ([SetPhysical(p)], Arb(true, [e]))
              else ([SetPhysical(p), Deliver(e)], IDLE)
            else if Stray(b, p) || (x.pressed && (!chord || |a.buffer| >= 7)) then
              ([SetPhysical(p)] + Delivers(a.buffer + [e]), IDLE)
            else if !x.pressed && NoneHeld(b, p) then ([SetPhysical(p)] + Orphans(more) + [SwitchEngine], IDLE)
            else ([SetPhysical(p)], Arb(true, more))
  {
    hide EffectiveMods, WithKey, BindingSym, AllHeld, Stray, NoneHeld, ArbStep, StepsOf, Orphans, BindingMatches,
         KeyTrace.Bound;
    var arrival := ArrivalOf(s, x);
    var e := arrival.e;
    KeyTrace.SameWords(x.keysym, e.mods, s.shortcuts.emergencyExit, x.unicode);
    StepTable(a, arrival);
    PassesDeliver([e]);
    PassesDeliver(a.buffer + [e]);
    assert Passes([e]) == [Pass(e)] && Delivers([e]) == [Deliver(e)];
    SwallowSteps(if |a.buffer| < 8 then a.buffer + [e] else a.buffer);
    NoSteps();
    var noted := [SetPhysical(arrival.phys)];
    var more := if |a.buffer| < 8 then a.buffer + [e] else a.buffer;
    assert noted + [] == noted && noted + [Deliver(e)] == [SetPhysical(arrival.phys), Deliver(e)];
    assert noted + (Orphans(more) + [SwitchEngine]) == noted + Orphans(more) + [SwitchEngine];
  }
}
