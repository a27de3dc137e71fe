/**
 Vocabulary of the key-routing state machine: modifiers, key events, the
 per-key tracking states, the pure policy predicates, and the observation log.
 */
module KeyTypes {

  datatype Option<+T> = None | Some(value: T)

  /** The six modifier flags of TYPIO_MOD_*; no other bit is ever produced. */
  datatype Mods = Mods(shift: bool, ctrl: bool, alt: bool, super: bool, caps: bool, num: bool)

  const NO_MODS := Mods(false, false, false, false, false, false)

  /** `(have & want) == want`. */
  predicate Includes(have: Mods, want: Mods) {
    && (want.shift ==> have.shift)
    && (want.ctrl ==> have.ctrl)
    && (want.alt ==> have.alt)
    && (want.super ==> have.super)
    && (want.caps ==> have.caps)
    && (want.num ==> have.num)
  }

  /** `(a & b) == 0`. */
  predicate Disjoint(a: Mods, b: Mods) {
    && !(a.shift && b.shift)
    && !(a.ctrl && b.ctrl)
    && !(a.alt && b.alt)
    && !(a.super && b.super)
    && !(a.caps && b.caps)
    && !(a.num && b.num)
  }

  /** Some blocking modifier (Ctrl, Alt, Super) is set. */
  predicate Blocking(m: Mods) {
    m.ctrl || m.alt || m.super
  }

  const KEY_Return := 0xff0d
  const KEY_KP_Enter := 0xff8d
  const KEY_Left := 0xff51
  const KEY_Up := 0xff52
  const KEY_Right := 0xff53
  const KEY_Down := 0xff54
  const KEY_Shift_L := 0xffe1
  const KEY_Shift_R := 0xffe2
  const KEY_Control_L := 0xffe3
  const KEY_Control_R := 0xffe4
  const KEY_Alt_L := 0xffe9
  const KEY_Alt_R := 0xffea
  const KEY_Super_L := 0xffeb
  const KEY_Super_R := 0xffec

  predicate IsShift(keysym: nat) { keysym == KEY_Shift_L || keysym == KEY_Shift_R }

  predicate IsCtrl(keysym: nat) { keysym == KEY_Control_L || keysym == KEY_Control_R }

  predicate IsAlt(keysym: nat) { keysym == KEY_Alt_L || keysym == KEY_Alt_R }

  predicate IsSuper(keysym: nat) { keysym == KEY_Super_L || keysym == KEY_Super_R }

  predicate IsModifierKey(keysym: nat) {
    IsShift(keysym) || IsCtrl(keysym) || IsAlt(keysym) || IsSuper(keysym)
  }

  predicate IsNavigation(keysym: nat) {
    keysym == KEY_Up || keysym == KEY_Down || keysym == KEY_Left || keysym == KEY_Right
  }

  /** Effect of one modifier key on a modifier mask. */
  function WithKey(m: Mods, keysym: nat, pressed: bool): Mods {
    if IsShift(keysym) then m.(shift := pressed)
    else if IsCtrl(keysym) then m.(ctrl := pressed)
    else if IsAlt(keysym) then m.(alt := pressed)
    else if IsSuper(keysym) then m.(super := pressed)
    else m
  }

  /** Modifier mask handed to the router for a key (modifier_policy.c). */
  function EffectiveMods(physical: Mods, xkb: Mods, owned: bool, keysym: nat, pressed: bool): Mods {
    var locked := Mods(physical.shift, physical.ctrl, physical.alt, physical.super,
                       physical.caps || xkb.caps, physical.num || xkb.num);
    var merged := if owned then locked
                  else locked.(ctrl := locked.ctrl || xkb.ctrl,
                               alt := locked.alt || xkb.alt,
                               super := locked.super || xkb.super);
    WithKey(merged, keysym, pressed)
  }

  /** A key's own modifier follows the key; the others stay. */
  lemma WithKeyTable(m: Mods, keysym: nat, pressed: bool)
    ensures var w := WithKey(m, keysym, pressed);
            && w.shift == (if keysym == 0xffe1 || keysym == 0xffe2 then pressed else m.shift)
            && w.ctrl == (if keysym == 0xffe3 || keysym == 0xffe4 then pressed else m.ctrl)
            && w.alt == (if keysym == 0xffe9 || keysym == 0xffea then pressed else m.alt)
            && w.super == (if keysym == 0xffeb || keysym == 0xffec then pressed else m.super)
            && w.caps == m.caps && w.num == m.num
  {
    hide IsShift, IsCtrl, IsAlt, IsSuper;
    assert IsShift(keysym) <==> keysym == 0xffe1 || keysym == 0xffe2 by { KeyKinds(keysym); }
    assert IsCtrl(keysym) <==> keysym == 0xffe3 || keysym == 0xffe4 by { KeyKinds(keysym); }
    assert IsAlt(keysym) <==> keysym == 0xffe9 || keysym == 0xffea by { KeyKinds(keysym); }
    assert IsSuper(keysym) <==> keysym == 0xffeb || keysym == 0xffec by { KeyKinds(keysym); }
  }

  lemma KeyKinds(keysym: nat)
    ensures IsShift(keysym) <==> keysym == 0xffe1 || keysym == 0xffe2
    ensures IsCtrl(keysym) <==> keysym == 0xffe3 || keysym == 0xffe4
    ensures IsAlt(keysym) <==> keysym == 0xffe9 || keysym == 0xffea
    ensures IsSuper(keysym) <==> keysym == 0xffeb || keysym == 0xffec
  {
  }

  /** What the router is told, bit by bit: the locks count wherever they are set; Ctrl, Alt and Super of the
      compositor count only until the grab has owned a key, and its Shift never does. */
  lemma ModsTable(p: Mods, xkb: Mods, owned: bool, keysym: nat, pressed: bool)
    ensures var m := EffectiveMods(p, xkb, owned, keysym, pressed);
            && m.shift == (if keysym == 0xffe1 || keysym == 0xffe2 then pressed else p.shift)
            && m.ctrl == (if keysym == 0xffe3 || keysym == 0xffe4 then pressed else p.ctrl || (!owned && xkb.ctrl))
            && m.alt == (if keysym == 0xffe9 || keysym == 0xffea then pressed else p.alt || (!owned && xkb.alt))
            && m.super == (if keysym == 0xffeb || keysym == 0xffec then pressed else p.super || (!owned && xkb.super))
            && m.caps == (p.caps || xkb.caps) && m.num == (p.num || xkb.num)
  {
    hide WithKey, EffectiveMods;
    Merged(p, xkb, owned, keysym, pressed);
    WithKeyTable(Mods(p.shift, p.ctrl || (!owned && xkb.ctrl), p.alt || (!owned && xkb.alt),
                      p.super || (!owned && xkb.super), p.caps || xkb.caps, p.num || xkb.num), keysym, pressed);
  }

  lemma Merged(p: Mods, xkb: Mods, owned: bool, keysym: nat, pressed: bool)
    ensures EffectiveMods(p, xkb, owned, keysym, pressed) ==
            WithKey(Mods(p.shift, p.ctrl || (!owned && xkb.ctrl), p.alt || (!owned && xkb.alt),
                         p.super || (!owned && xkb.super), p.caps || xkb.caps, p.num || xkb.num), keysym, pressed)
  {
    hide WithKey;
  }

  datatype KeyEvent = KeyEvent(isPress: bool, key: nat, keysym: nat, mods: Mods, unicode: nat, time: nat)

  datatype Binding = Binding(mods: Mods, keysym: nat)

  datatype Shortcuts = Shortcuts(switchEngine: Binding, emergencyExit: Binding, voicePtt: Binding)

  datatype Track =
    | Idle | Forwarded | BasicPassthrough | AppShortcut
    | ReleasedPending | SuppressedStartup | VoicePtt | VoicePttUnavailable

  /** The three tracking states in which the application was sent a press. */
  predicate AppHeld(t: Track) {
    t == Forwarded || t == BasicPassthrough || t == AppShortcut
  }

  datatype VkState = Absent | NeedsKeymap | Ready | Broken

  datatype Phase = Inactive | Activating | Active | Deactivating

  datatype Reserved = NotReserved | EmergencyExit | VoicePushToTalk

  predicate BindingMatches(b: Binding, keysym: nat, mods: Mods) {
    b.keysym != 0 && keysym == b.keysym && Includes(mods, b.mods)
  }

  function ReservedAction(sc: Shortcuts, keysym: nat, mods: Mods): Reserved {
    if BindingMatches(sc.emergencyExit, keysym, mods) then EmergencyExit
    else if BindingMatches(sc.voicePtt, keysym, mods) then VoicePushToTalk
    else NotReserved
  }

  predicate IsAppShortcut(keysym: nat, mods: Mods) {
    Blocking(mods) && !IsModifierKey(keysym)
  }

  predicate IsPrintable(unicode: nat) {
    unicode >= 0x20 && unicode != 0x7F
  }

  const STARTUP_GUARD_EPOCHS := 2

  predicate InGuardWindow(createdAt: nat, now: nat) {
    createdAt <= now && now - createdAt <= STARTUP_GUARD_EPOCHS
  }

  /** Boundary policy for a release whose press was never seen (boundary_bridge.c). */
  predicate OrphanNeedsCleanup(keysym: nat, mods: Mods, sawBlocking: bool) {
    keysym == KEY_Return || keysym == KEY_KP_Enter || sawBlocking || Blocking(mods)
  }

  predicate RepeatAllowed(t: Track) {
    t != SuppressedStartup && t != ReleasedPending
  }

  /** Everything the environment can see the daemon do, in order. */
  datatype Obs =
    | Routed(e: KeyEvent)                               // the router accepted a key event
    | WireKey(key: nat, pressed: bool)                  // key sent to the application
    | WireMods(depressed: nat, latched: nat, locked: nat, group: nat)
    | ToEngine(key: nat, press: bool, isRepeat: bool)   // key handed to the engine
    | Freed(key: nat)                                   // a physical release was settled
    | Boundary                                          // grab destroyed or created
    | Stopped(key: nat)                                 // emergency-exit press
    | VoiceStart(key: nat)
    | VoiceStop(key: nat)
    | EngineSwitch

  type Log = seq<Obs>

  function DownStep(down: set<nat>, o: Obs): set<nat> {
    match o
    case WireKey(k, true) => down + {k}
    case WireKey(k, false) => down - {k}
    case _ => down
  }

  /** Keys the application believes are held: the last wire event was a press. */
  ghost function AppDown(log: Log): set<nat> {
    if log == [] then {} else DownStep(AppDown(log[..|log| - 1]), log[|log| - 1])
  }

  function EntitledStep(held: set<nat>, o: Obs): set<nat> {
    match o
    case ToEngine(k, true, _) => held + {k}
    case Stopped(k) => held + {k}
    case Freed(k) => held - {k}
    case Boundary => {}
    case _ => held
  }

  /** Keys the engine may be given a release for: pressed into the engine (or an
      emergency exit) with no settled release and no boundary since. */
  ghost function Entitled(log: Log): set<nat> {
    if log == [] then {} else EntitledStep(Entitled(log[..|log| - 1]), log[|log| - 1])
  }

  /** Every release handed to the engine was entitled. */
  ghost predicate Paired(log: Log) {
    forall i :: 0 <= i < |log| && log[i].ToEngine? && !log[i].press ==> log[i].key in Entitled(log[..i])
  }

  function HeldStep(held: set<nat>, o: Obs): set<nat> {
    match o
    case Routed(e) => if e.isPress then held + {e.key} else held
    case Freed(k) => held - {k}
    case Boundary => {}
    case _ => held
  }

  /** Keys pressed at the router and not yet released, within the current grab. */
  ghost function RouterHeld(log: Log): set<nat> {
    if log == [] then {} else HeldStep(RouterHeld(log[..|log| - 1]), log[|log| - 1])
  }

  /** The key events that went over the wire, in order. */
  ghost function KeyWire(log: Log): Log {
    if log == [] then []
    else KeyWire(log[..|log| - 1]) + if log[|log| - 1].WireKey? then [log[|log| - 1]] else []
  }

  /** One more observation: how every view of the log moves. */
  lemma LogStep(log: Log, o: Obs)
    ensures AppDown(log + [o]) == DownStep(AppDown(log), o)
    ensures Entitled(log + [o]) == EntitledStep(Entitled(log), o)
    ensures RouterHeld(log + [o]) == HeldStep(RouterHeld(log), o)
    ensures KeyWire(log + [o]) == KeyWire(log) + if o.WireKey? then [o] else []
    ensures Paired(log + [o]) <==>
            Paired(log) && (o.ToEngine? && !o.press ==> o.key in Entitled(log))
  {
    var t := log + [o];
    assert t[..|t| - 1] == log;
    if Paired(t) {
      forall i | 0 <= i < |log| && log[i].ToEngine? && !log[i].press ensures log[i].key in Entitled(log[..i]) {
        assert t[i] == log[i] && t[..i] == log[..i];
      }
      assert t[..|log|] == log && t[|log|] == o;
    }
    if Paired(log) && (o.ToEngine? && !o.press ==> o.key in Entitled(log)) {
      forall i | 0 <= i < |t| && t[i].ToEngine? && !t[i].press ensures t[i].key in Entitled(t[..i]) {
        if i < |log| {
          assert t[i] == log[i] && t[..i] == log[..i];
        } else {
          assert t[..i] == log;
        }
      }
    }
  }
}
