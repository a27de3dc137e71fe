/**
 Value-level specification of the Wayland key path: the frontend state, the
 virtual-keyboard gate, the router, the repeat timer and the grab lifecycle.
 The classes in Frontend.dfy are proved to compute exactly these functions.
 */
module KeySpec {
  import opened KeyTypes

  const MAX_TRACKED_KEYS: nat := 512
  const GENERATIONS: nat := 0x1_0000_0000
  const KEYMAP_TIMEOUT_MS: nat := 1500

  /** The environment: any answers at all, as functions of what happened before. */
  datatype World = World(
    haveVoice: bool,
    engineHandles: (Log, KeyEvent, bool) -> bool,
    hasCandidates: Log -> bool,
    basicForwards: Log -> bool,
    voiceAvailable: Log -> bool,
    startsRepeat: (Log, KeyEvent) -> bool)

  datatype VirtualKeyboard = VirtualKeyboard(
    present: bool, state: VkState, keymapGeneration: nat, dropCount: nat, deadline: nat)

  datatype Grab = Grab(
    live: bool, xkbLoaded: bool, physical: Mods,
    depressed: nat, latched: nat, locked: nat, group: nat, sawBlocking: bool,
    repeating: bool, repeatKey: nat, repeatTime: nat,
    suppressStale: bool, suppressedCount: nat, createdAt: nat)

  datatype State = State(
    track: seq<Track>, gens: seq<nat>, activeGeneration: nat, owned: bool, carried: bool,
    vk: VirtualKeyboard, phase: Phase, running: bool, pendingReactivation: bool,
    epoch: nat, shortcuts: Shortcuts, grab: Option<Grab>, log: Log)

  /** How one more observation moves every view of the log. */
  ghost predicate Observed(s: State, o: Obs, r: State) {
    && AppDown(r.log) == DownStep(AppDown(s.log), o)
    && Entitled(r.log) == EntitledStep(Entitled(s.log), o)
    && RouterHeld(r.log) == HeldStep(RouterHeld(s.log), o)
    && KeyWire(r.log) == KeyWire(s.log) + (if o.WireKey? then [o] else [])
    && (Paired(r.log) <==>
        Paired(s.log) && (o.ToEngine? && !o.press ==> o.key in Entitled(s.log)))
  }

  function Emit(s: State, o: Obs): (r: State)
    ensures Observed(s, o, r)
  {
    LogStep(s.log, o);
    s.(log := s.log + [o])
  }

  // ---- per-key tracking (key_tracking_access.h, key_tracking.c) ----

  function TrackOf(s: State, key: nat): Track {
    if key < |s.track| then s.track[key] else Idle
  }

  function GenerationOf(s: State, key: nat): nat {
    if key < |s.gens| then s.gens[key] else 0
  }

  function SetTrack(s: State, key: nat, t: Track): State {
    if key < |s.track| then s.(track := s.track[key := t]) else s
  }

  function SetGeneration(s: State, key: nat, g: nat): State {
    if key < |s.gens| then s.(gens := s.gens[key := g]) else s
  }

  function Claim(s: State, key: nat): State {
    SetGeneration(s, key, s.activeGeneration).(owned := true)
  }

  function ClearTracking(s: State, key: nat): State {
    SetGeneration(SetTrack(s, key, Idle), key, 0)
  }

  lemma ClearAside(s: State, k: nat)
    ensures ClearTracking(s, k) == s.(track := ClearTracking(s, k).track, gens := ClearTracking(s, k).gens)
  {
  }

  predicate OwnedByActive(s: State, key: nat) {
    s.activeGeneration != 0 && GenerationOf(s, key) == s.activeGeneration
  }

  function NextGeneration(g: nat): nat {
    var n := (g + 1) % GENERATIONS;
    if n == 0 then 1 else n
  }

  function Idles(): seq<Track> { seq(MAX_TRACKED_KEYS, _ => Idle) }

  function Zeros(): seq<nat> { seq(MAX_TRACKED_KEYS, _ => 0) }

  function ResetTracking(s: State): State {
    s.(track := Idles(), gens := Zeros())
  }

  function MarkReleased(t: Track): Track {
    if AppHeld(t) then ReleasedPending else t
  }

  function MarkReleasedPending(track: seq<Track>): seq<Track> {
    seq(|track|, i requires 0 <= i < |track| => MarkReleased(track[i]))
  }

  // ---- virtual keyboard (vk_bridge.c) ----

  predicate HasCurrentKeymap(s: State) {
    s.activeGeneration != 0 && s.vk.keymapGeneration == s.activeGeneration
  }

  function VkSetState(s: State, st: VkState): State {
    s.(vk := s.vk.(
         state := st,
         deadline := if st == NeedsKeymap then s.vk.deadline else 0,
         dropCount := if st == Ready && s.vk.state != Ready then 0 else s.vk.dropCount))
  }

  function ReleaseGrab(s: State): State {
    match s.grab
    case None => s
    case Some(g) => s.(grab := Some(g.(live := false)))
  }

  function FailSafe(s: State): State {
    if s.running then ReleaseGrab(s).(running := false) else s
  }

  /** What a forward attempt would find: ready, or one keymap handshake away from it. */
  predicate VkUsable(s: State) {
    s.vk.state == Ready || (s.vk.present && s.vk.state == NeedsKeymap && HasCurrentKeymap(s))
  }

  /** Nothing else decides it. */
  lemma SameUsable(s: State, r: State)
    requires r.vk == s.vk && r.activeGeneration == s.activeGeneration
    ensures VkUsable(r) == VkUsable(s)
  {
  }

  /** All a forward attempt may touch: the gate's own state, the stop flag, the grab's liveness. */
  ghost predicate OnlyVk(s: State, r: State) {
    && r == s.(vk := r.vk, running := r.running, grab := r.grab, log := r.log)
    && (s.grab.None? ==> r.grab.None?)
    && (s.grab.Some? ==> r.grab.Some? && r.grab.value == s.grab.value.(live := r.grab.value.live))
    && r.vk.present == s.vk.present
    && r.vk.keymapGeneration == s.vk.keymapGeneration
    && (r.vk.state == s.vk.state || (r.vk.state == Ready && VkUsable(s)))
    && (r.vk.state == NeedsKeymap ==> r.vk.deadline == s.vk.deadline)
  }

  /** At most one wire observation was added, and only when the keyboard was usable. */
  ghost predicate Sent(s: State, o: Obs, r: State) {
    && OnlyVk(s, r)
    && r.log == (if VkUsable(s) then s.log + [o] else s.log)
    && AppDown(r.log) == (if VkUsable(s) then DownStep(AppDown(s.log), o) else AppDown(s.log))
    && Entitled(r.log) == Entitled(s.log)
    && RouterHeld(r.log) == RouterHeld(s.log)
    && (Paired(r.log) <==> Paired(s.log))
    && KeyWire(r.log) == (if VkUsable(s) && o.WireKey? then KeyWire(s.log) + [o] else KeyWire(s.log))
  }

  /** State after typio_wl_vk_is_ready; it answered VkUsable of the state before. */
  function VkGate(s: State): State {
    if s.vk.state == Ready then s
    else if VkUsable(s) then VkSetState(s, Ready)
    else
      var dropped := s.(vk := s.vk.(dropCount := s.vk.dropCount + 1));
      if s.vk.state == Broken then FailSafe(dropped) else dropped
  }

  lemma FailSafeFrame(s: State)
    ensures OnlyVk(s, FailSafe(s)) && FailSafe(s).log == s.log && FailSafe(s).vk == s.vk
  {
  }

  lemma VkGateFrame(s: State)
    ensures OnlyVk(s, VkGate(s)) && VkGate(s).log == s.log
  {
    hide FailSafe;
    var dropped := s.(vk := s.vk.(dropCount := s.vk.dropCount + 1));
    FailSafeFrame(dropped);
    if s.vk.state == Ready {
      assert VkGate(s) == s;
    } else if VkUsable(s) {
      assert VkGate(s) == VkSetState(s, Ready);
    } else if s.vk.state == Broken {
      assert VkGate(s) == FailSafe(dropped);
    } else {
      assert VkGate(s) == dropped;
    }
  }

  function Send(s: State, o: Obs): State {
    if VkUsable(s) then Emit(VkGate(s), o) else VkGate(s)
  }

  lemma SendFrame(s: State, o: Obs)
    requires o.WireKey? || o.WireMods?
    ensures Sent(s, o, Send(s, o)) && OnlyVk(s, Send(s, o))
  {
    hide VkGate;
    VkGateFrame(s);
  }

  function ForwardKey(s: State, key: nat, pressed: bool): State {
    Send(s, WireKey(key, pressed))
  }

  function ForwardModifiers(s: State, depressed: nat, latched: nat, locked: nat, group: nat): State {
    Send(s, WireMods(depressed, latched, locked, group))
  }

  function ResetModifiers(s: State): State {
    if VkUsable(s) then
      var sent := ForwardModifiers(s, 0, 0, 0, 0).(carried := false);
      match sent.grab
      case None => sent
      case Some(g) =>
        sent.(grab := Some(g.(physical := NO_MODS, depressed := 0, latched := 0, locked := 0, group := 0)))
    else VkGate(s)
  }

  /** One wire release per application-held key, in key order. */
  function ReleasesFor(track: seq<Track>): Log {
    if track == [] then []
    else
      var n := |track| - 1;
      ReleasesFor(track[..n]) + if AppHeld(track[n]) then [WireKey(n, false)] else []
  }

  predicate VkCanRelease(s: State) {
    s.vk.present && s.vk.state != Absent && s.vk.state != Broken
  }

  function ReleaseForwardedKeys(s: State): State {
    if VkCanRelease(s) then
      s.(log := s.log + ReleasesFor(s.track), track := MarkReleasedPending(s.track))
    else s
  }

  function ExpectKeymap(s: State, now: nat): State {
    if s.vk.present then
      VkSetState(s.(vk := s.vk.(deadline := now + KEYMAP_TIMEOUT_MS)), NeedsKeymap)
    else s
  }

  function CancelKeymapWait(s: State): State {
    if s.vk.state != NeedsKeymap then s
    else if HasCurrentKeymap(s) then VkSetState(s, Ready)
    else s.(vk := s.vk.(deadline := 0))
  }

  function ForwardKeymap(s: State, duplicated: bool): State {
    if !s.vk.present then s
    else if !duplicated then VkSetState(s, Broken)
    else VkSetState(s.(vk := s.vk.(keymapGeneration := s.activeGeneration)), Ready)
  }

  function HealthCheck(s: State, now: nat): State {
    if s.running && s.grab.Some? && s.grab.value.live && s.vk.state == NeedsKeymap &&
       s.vk.deadline != 0 && s.vk.deadline <= now
    then FailSafe(s) else s
  }

  // ---- router (key_route.c) ----

  predicate StalePress(s: State)
    requires s.grab.Some?
  {
    s.grab.value.suppressStale && InGuardWindow(s.grab.value.createdAt, s.epoch)
  }

  function AskEngine(s: State, e: KeyEvent, isRepeat: bool): State {
    Emit(s, ToEngine(e.key, e.isPress, isRepeat))
  }

  /** typio_wl_candidate_guard_should_consume after the engine declined the event. */
  predicate CandidateKeeps(w: World, s: State, e: KeyEvent, isRepeat: bool) {
    && !w.engineHandles(s.log, e, isRepeat)
    && IsNavigation(e.keysym)
    && w.hasCandidates(AskEngine(s, e, isRepeat).log)
  }

  /** A fresh press that passed the startup guard. */
  function RoutePassed(w: World, s: State, e: KeyEvent): State
    requires s.grab.Some?
  {
    var reserved := ReservedAction(s.shortcuts, e.keysym, e.mods);
    if reserved == EmergencyExit then
      ReleaseGrab(Emit(s, Stopped(e.key))).(running := false)
    else if reserved == VoicePushToTalk && w.haveVoice then
      if w.voiceAvailable(s.log) then SetTrack(Emit(s, VoiceStart(e.key)), e.key, VoicePtt)
      else SetTrack(s, e.key, VoicePttUnavailable)
    else if reserved == NotReserved && IsAppShortcut(e.keysym, e.mods) then
      SetTrack(ForwardKey(s, e.key, true), e.key, AppShortcut)
    else if !Blocking(e.mods) && IsPrintable(e.unicode) && w.basicForwards(s.log) then
      SetTrack(ForwardKey(s, e.key, true), e.key, BasicPassthrough)
    else if CandidateKeeps(w, s, e, false) then AskEngine(s, e, false)
    else if !w.engineHandles(s.log, e, false) || IsModifierKey(e.keysym) then
      SetTrack(ForwardKey(AskEngine(s, e, false), e.key, true), e.key, Forwarded)
    else AskEngine(s, e, false)
  }

  function RouteFresh(w: World, s: State, e: KeyEvent): State
    requires s.grab.Some?
  {
    var g := s.grab.value;
    var claimed := Claim(s, e.key);
    if StalePress(s) then
      SetTrack(claimed, e.key, SuppressedStartup).(
        grab := Some(g.(suppressedCount := g.suppressedCount + 1)))
    else if g.suppressStale && g.suppressedCount == 0 then
      RoutePassed(w, claimed.(grab := Some(g.(suppressStale := false))), e)
    else RoutePassed(w, claimed, e)
  }

  function RoutePress(w: World, s0: State, e: KeyEvent): State
    requires s0.grab.Some?
  {
    var s := Emit(s0, Routed(e));
    match TrackOf(s, e.key)
    case ReleasedPending => s
    case SuppressedStartup => s
    case AppShortcut => if Blocking(s.grab.value.physical) then ForwardKey(s, e.key, true) else s
    case Forwarded => ForwardKey(s, e.key, true)
    case _ => RouteFresh(w, s, e)
  }

  function ClearStaleFlag(s: State): State
    requires s.grab.Some?
  {
    var g := s.grab.value;
    if g.suppressStale && g.suppressedCount == 0 then s.(grab := Some(g.(suppressStale := false))) else s
  }

  /** The release of a key whose press this grab never routed is still forwarded. */
  predicate OrphanForwarded(s: State, e: KeyEvent)
    requires s.grab.Some?
  {
    && !IsModifierKey(e.keysym)
    && (InGuardWindow(s.grab.value.createdAt, s.epoch) ||
        OrphanNeedsCleanup(e.keysym, e.mods, s.grab.value.sawBlocking))
  }

  function RouteReleaseBody(w: World, s: State, e: KeyEvent): State
    requires s.grab.Some?
  {
    match TrackOf(s, e.key)
    case ReleasedPending => ClearTracking(s, e.key)
    case SuppressedStartup =>
      var g := s.grab.value;
      var counted := ClearTracking(s, e.key).(
        grab := Some(g.(suppressedCount := if g.suppressedCount > 0 then g.suppressedCount - 1 else 0)));
      ForwardKey(ClearStaleFlag(counted), e.key, false)
    case AppShortcut => ForwardKey(ClearTracking(s, e.key), e.key, false)
    case VoicePtt =>
      ClearTracking(if w.haveVoice then Emit(s, VoiceStop(e.key)) else s, e.key)
    case VoicePttUnavailable => ClearTracking(s, e.key)
    case BasicPassthrough => ForwardKey(ClearTracking(s, e.key), e.key, false)
    case Forwarded =>
      var cleared := ClearTracking(s, e.key);
      var asked := AskEngine(cleared, e, false);
      if CandidateKeeps(w, cleared, e, false) then asked else ForwardKey(asked, e.key, false)
    case Idle =>
      if !OwnedByActive(s, e.key) then
        ClearTracking(if OrphanForwarded(s, e) then ForwardKey(s, e.key, false) else s, e.key)
      else ClearTracking(AskEngine(ClearStaleFlag(s), e, false), e.key)
  }

  function RouteRelease(w: World, s: State, e: KeyEvent): State
    requires s.grab.Some?
  {
    Emit(RouteReleaseBody(w, Emit(s, Routed(e)), e), Freed(e.key))
  }

  // ---- keyboard entry points and repeat (wl_keyboard.c, keyboard_repeat.c) ----

  function StopRepeat(s: State): State {
    match s.grab
    case None => s
    case Some(g) => s.(grab := Some(g.(repeating := false)))
  }

  function ProcessPress(w: World, s: State, e: KeyEvent): State
    requires s.grab.Some?
  {
    var r := RoutePress(w, s, e);
    if r.grab.Some? && RepeatAllowed(TrackOf(r, e.key)) && w.startsRepeat(r.log, e) && !Blocking(e.mods) then
      r.(grab := Some(r.grab.value.(repeating := true, repeatKey := e.key, repeatTime := e.time)))
    else r
  }

  function ProcessRelease(w: World, s: State, e: KeyEvent): State
    requires s.grab.Some?
  {
    var g := s.grab.value;
    RouteRelease(w, if g.repeating && g.repeatKey == e.key then StopRepeat(s) else s, e)
  }

  /** The event the repeat timer makes up for the engine. */
  function RepeatEvent(g: Grab, keysym: nat, unicode: nat, xkb: Mods): KeyEvent {
    KeyEvent(true, g.repeatKey, keysym,
             g.physical.(caps := g.physical.caps || xkb.caps, num := g.physical.num || xkb.num),
             unicode, g.repeatTime)
  }

  function RepeatFire(w: World, s: State, e: KeyEvent): State
    requires s.grab.Some?
  {
    match TrackOf(s, e.key)
    case AppShortcut =>
      if Blocking(s.grab.value.physical) then ForwardKey(s, e.key, true) else StopRepeat(s)
    case Forwarded => ForwardKey(s, e.key, true)
    case BasicPassthrough => ForwardKey(s, e.key, true)
    case SuppressedStartup => StopRepeat(s)
    case ReleasedPending => StopRepeat(s)
    case _ =>
      var asked := AskEngine(s, e, true);
      if w.engineHandles(s.log, e, true) || CandidateKeeps(w, s, e, true) then asked
      else SetTrack(ForwardKey(asked, e.key, true), e.key, Forwarded)
  }

  function DispatchRepeat(w: World, s: State, keysym: nat, unicode: nat, xkb: Mods,
                          timerRead: bool, focused: bool): State
    requires s.grab.Some?
  {
    var g := s.grab.value;
    if !g.repeating then s
    else if s.phase != Active then StopRepeat(s)
    else if !timerRead then s
    else if !g.xkbLoaded || !focused then StopRepeat(s)
    else RepeatFire(w, s, RepeatEvent(g, keysym, unicode, xkb))
  }

  /** One release event of a consumed chord (arbiter_release_orphaned_keys). */
  function OrphanRelease(s: State, e: KeyEvent): State {
    if TrackOf(s, e.key) == Forwarded then
      Emit(ClearTracking(ForwardKey(s, e.key, false), e.key), Freed(e.key))
    else s
  }

  // ---- grab lifecycle (wl_keyboard.c, lifecycle.c, wl_input_method.c) ----

  function KeyboardDestroy(s: State): State {
    Emit(ResetTracking(ReleaseForwardedKeys(s)), Boundary).(grab := None)
  }

  function FreshGrab(epoch: nat): Grab {
    Grab(true, false, NO_MODS, 0, 0, 0, 0, false, false, 0, 0, true, 0, epoch)
  }

  function KeyboardCreate(s: State, created: bool): State {
    Emit(ResetTracking(s), Boundary).(
      activeGeneration := NextGeneration(s.activeGeneration), owned := false,
      grab := if created then Some(FreshGrab(s.epoch)) else None)
  }

  predicate CarriesModifiers(s: State) {
    s.grab.Some? && s.owned && s.phase == Deactivating &&
    (s.grab.value.depressed != 0 || s.grab.value.latched != 0 || s.grab.value.locked != 0)
  }

  /** Wire work of a hard reset, before the grab goes away. */
  function SettleWire(s0: State): State {
    var s := if s0.carried && s0.phase != Deactivating then ResetModifiers(s0) else s0;
    if !s0.owned then s
    else
      var released := ReleaseForwardedKeys(s);
      if CarriesModifiers(released) then
        var g := released.grab.value;
        ForwardModifiers(released, g.depressed, g.latched, g.locked, g.group).(carried := true)
      else ResetModifiers(released)
  }

  function HardReset(s: State): State {
    var settled := SettleWire(s);
    var torn := if settled.grab.Some? then KeyboardDestroy(settled) else settled;
    CancelKeymapWait(torn.(owned := false))
  }

  function Rebuild(s: State, now: nat, created: bool): State {
    var had := s.grab.Some?;
    var made := KeyboardCreate(HardReset(s), created);
    if !created then made
    else
      var waiting := ExpectKeymap(made, now);
      if had then waiting
      else waiting.(grab := Some(waiting.grab.value.(suppressStale := false)))
  }

  function OnResume(s: State): State {
    var scrubbed := ResetModifiers(HardReset(s)).(carried := false);
    ResetTracking(scrubbed).(
      activeGeneration := NextGeneration(scrubbed.activeGeneration),
      phase := Inactive, pendingReactivation := false)
  }

  function GrabModifiers(g: Grab, depressed: nat, latched: nat, locked: nat, group: nat,
                         before: Mods, after: Mods): Grab {
    var was := if g.xkbLoaded then before else NO_MODS;
    var now := if g.xkbLoaded then after else NO_MODS;
    var seen := g.(
      sawBlocking := g.sawBlocking || Blocking(now),
      repeating := g.repeating && was.ctrl == now.ctrl && was.alt == now.alt && was.super == now.super);
    if g.xkbLoaded then seen.(depressed := depressed, latched := latched, locked := locked, group := group)
    else seen
  }

  function OnModifiers(s: State, depressed: nat, latched: nat, locked: nat, group: nat,
                       before: Mods, after: Mods): State
    requires s.grab.Some?
  {
    var g := GrabModifiers(s.grab.value, depressed, latched, locked, group, before, after);
    ForwardModifiers(s.(grab := Some(g)), depressed, latched, locked, group)
  }

  function OnKeymap(s: State, duplicated: bool, compiled: bool): State
    requires s.grab.Some?
  {
    var forwarded := ForwardKeymap(s, duplicated);
    var g := s.grab.value;
    forwarded.(grab := Some(g.(xkbLoaded := g.xkbLoaded || compiled)))
  }

  /** A key event refused by the routing guard (wl_keyboard.c on_key). */
  function RejectKey(s: State, key: nat, pressed: bool, failSafe: bool): State
    requires s.grab.Some?
  {
    var g := s.grab.value;
    var stopped := if pressed && failSafe && s.phase != Activating
                   then ReleaseGrab(s).(running := false) else s;
    if !pressed && g.repeating && g.repeatKey == key then StopRepeat(stopped) else stopped
  }

  // ---- runs ----

  /** The indivisible steps the daemon takes. */
  datatype Step =
    | Deliver(e: KeyEvent)
    | Orphan(e: KeyEvent)
    | SwitchEngine
    | Repeat(keysym: nat, unicode: nat, xkb: Mods, timerRead: bool, focused: bool)
    | ModifierUpdate(depressed: nat, latched: nat, locked: nat, group: nat, before: Mods, after: Mods)
    | Keymap(duplicated: bool, compiled: bool)
    | SetPhysical(mods: Mods)
    | Reject(key: nat, pressed: bool, failSafe: bool)
    | EarlyExit(key: nat)
    | Reset
    | Regrab(now: nat, created: bool)
    | Resume
    | SetPhase(phase: Phase, pending: bool)
    | Dispatched
    | Reload(shortcuts: Shortcuts)
    | Health(now: nat)

  predicate NeedsGrab(m: Step) {
    m.Deliver? || m.Orphan? || m.Repeat? || m.ModifierUpdate? || m.Keymap? || m.SetPhysical? ||
    m.Reject? || m.EarlyExit?
  }

  function Apply(w: World, s: State, m: Step): State {
    if NeedsGrab(m) && s.grab.None? then s
    else match m
      case Deliver(e) => if e.isPress then ProcessPress(w, s, e) else ProcessRelease(w, s, e)
      case Orphan(e) => OrphanRelease(s, e)
      case SwitchEngine => Emit(s, Obs.EngineSwitch)
      case Repeat(keysym, unicode, xkb, timerRead, focused) =>
        DispatchRepeat(w, s, keysym, unicode, xkb, timerRead, focused)
      case ModifierUpdate(d, l, k, g, before, after) => OnModifiers(s, d, l, k, g, before, after)
      case Keymap(duplicated, compiled) => OnKeymap(s, duplicated, compiled)
      case SetPhysical(mods) => s.(grab := Some(s.grab.value.(physical := mods)))
      case Reject(key, pressed, failSafe) => RejectKey(s, key, pressed, failSafe)
      case EarlyExit(key) => ReleaseGrab(s).(running := false)
      case Reset => HardReset(s)
      case Regrab(now, created) => Rebuild(s, now, created)
      case Resume => OnResume(s)
      case SetPhase(phase, pending) => s.(phase := phase, pendingReactivation := pending)
      case Dispatched => s.(epoch := s.epoch + 1)
      case Reload(shortcuts) => s.(shortcuts := shortcuts)
      case Health(now) => HealthCheck(s, now)
  }

  /** The state after a run of steps. */
  function Run(w: World, s: State, ms: seq<Step>): State {
    if ms == [] then s else Apply(w, Run(w, s, ms[..|ms| - 1]), ms[|ms| - 1])
  }

  /** The frontend after wl_frontend_wayland_bind: three possible virtual keyboards. */
  predicate Initial(s: State) {
    && s.track == Idles() && s.gens == Zeros()
    && s.activeGeneration == 0 && !s.owned && !s.carried
    && s.grab.None? && s.log == []
    && s.vk.keymapGeneration == 0
    && (s.vk.present <==> s.vk.state == NeedsKeymap)
    && s.vk.state != Ready
  }

  // ---- the structural invariant ----

  /** Tracking arrays: sizes, live generations, and no half-released key. */
  ghost predicate TrackingOk(s: State) {
    && |s.track| == MAX_TRACKED_KEYS && |s.gens| == MAX_TRACKED_KEYS
    && s.activeGeneration < GENERATIONS
    && (forall k :: 0 <= k < MAX_TRACKED_KEYS ==> s.gens[k] == 0 || s.gens[k] == s.activeGeneration)
    && (forall k :: 0 <= k < MAX_TRACKED_KEYS ==> s.track[k] != ReleasedPending)
    && (!s.owned ==> forall k :: 0 <= k < MAX_TRACKED_KEYS ==> s.track[k] == Idle)
  }

  /** With no grab there is nothing tracked; with one, its generation is nonzero. */
  ghost predicate GrabOk(s: State)
    requires TrackingOk(s)
  {
    match s.grab
    case None =>
      && !s.owned
      && (forall k :: 0 <= k < MAX_TRACKED_KEYS ==> s.gens[k] == 0)
    case Some(g) => s.activeGeneration != 0 && g.createdAt <= s.epoch && (g.repeating ==> s.owned)
  }

  /** A grab is never believed ready on an old keymap, and never waits without a deadline. */
  ghost predicate VkOk(s: State) {
    && (s.vk.present ==> s.vk.state != Absent)
    && (!s.vk.present ==> s.vk.state == Absent || s.vk.state == Broken)
    && (s.grab.Some? && s.vk.state == Ready ==> HasCurrentKeymap(s))
    && (s.grab.Some? && s.vk.state == NeedsKeymap ==> s.vk.deadline != 0)
  }

  ghost predicate Shape(s: State) {
    TrackingOk(s) && GrabOk(s) && VkOk(s)
  }
}
