/**
 Concrete sessions, from a freshly bound frontend, in which a key is left down
 in the application that nobody holds.
 */
module KeyStranded {
  import opened KeyTypes
  import opened KeySpec
  import opened KeyShape
  import opened KeySafety
  import opened KeyBoundary
  import opened KeyRuns
  import opened ArbiterSpec
  import opened KeySession
  import opened KeyPhysical
  import opened KeyTrace
  import opened KeyState

  const KEY_A: nat := 30
  const KEY_CTRL: nat := 29
  const KEY_SHIFT: nat := 42
  const KEY_MEDIA: nat := 600
  const SYM_A: nat := 0x61
  const SYM_MEDIA: nat := 0x1008ff13

  const SHIFT := Mods(true, false, false, false, false, false)
  const CTRL := Mods(false, true, false, false, false, false)

  const USED: set<nat> := {SYM_A, SYM_MEDIA, KEY_Control_L, KEY_Shift_L}

  /** No shortcut of its own is bound to any key these sessions use. */
  predicate Unbound(sc: Shortcuts) {
    sc.emergencyExit.keysym !in USED && sc.voicePtt.keysym !in USED
  }

  lemma NothingReserved(sc: Shortcuts, keysym: nat, mods: Mods)
    requires Unbound(sc) && keysym in USED
    ensures ReservedAction(sc, keysym, mods) == NotReserved
  {
  }

  /** A focused, active frontend with a compiled keymap, a usable keyboard and an open startup guard. */
  ghost predicate Serving(s: State, binding: Mods) {
    && Shape(s) && s.grab.Some? && s.grab.value.xkbLoaded && !s.grab.value.suppressStale && s.phase == Active
    && VkUsable(s) && s.shortcuts.switchEngine.mods == binding && Unbound(s.shortcuts)
  }

  function KeyDown(key: nat, keysym: nat, unicode: nat): Input {
    Key(KeyInput(true, key, keysym, unicode, 0, NO_MODS, true, false))
  }

  function KeyUp(key: nat, keysym: nat, unicode: nat): Input {
    Key(KeyInput(false, key, keysym, unicode, 0, NO_MODS, true, false))
  }

  /** Open a grab, receive its keymap, become active. */
  function Opening(): seq<Input> {
    [Other(Regrab(0, true)), Other(Keymap(true, true)), Other(SetPhase(Active, false))]
  }

  lemma SessionSnoc(w: World, s: State, inputs: seq<Input>, i: Input)
    ensures RunSession(w, s, inputs + [i]) == SessionStep(w, RunSession(w, s, inputs), i)
    ensures RunSession(w, s, []) == Session(s, IDLE, [], {})
  {
    hide SessionStep;
    assert (inputs + [i])[..|inputs|] == inputs;
  }

  // ---- the opening ----

  /** An opened grab holds nothing yet. */
  ghost predicate Opened(t: Session, binding: Mods) {
    && Serving(t.s, binding) && t.s.grab.value.physical == NO_MODS && !t.s.grab.value.repeating
    && t.s.track == Idles() && t.a == IDLE && t.held == {} && AppDown(t.s.log) == {} && RouterHeld(t.s.log) == {}
  }

  lemma OpenedState(w: World, s: State)
    requires Initial(s) && s.vk.present
    ensures var r := OnKeymap(Rebuild(s, 0, true), true, true);
            && Shape(r) && r.grab.Some? && !r.grab.value.suppressStale && r.grab.value.xkbLoaded
            && r.grab.value.physical == NO_MODS && !r.grab.value.repeating && VkUsable(r) && r.track == Idles()
            && r.shortcuts == s.shortcuts && AppDown(r.log) == {} && RouterHeld(r.log) == {}
  {
    hide AppDown, Entitled, RouterHeld, KeyWire, Paired;
    InitialShape(s);
    RebuildShape(s, 0, true);
    KeymapShape(Rebuild(s, 0, true), true, true);
    OpenedLog(s);
  }

  lemma OpenedLog(s: State)
    requires Initial(s)
    ensures AppDown(Rebuild(s, 0, true).log) == {} && RouterHeld(Rebuild(s, 0, true).log) == {}
  {
    hide Rebuild, HardReset;
    InitialShape(s);
    RebuildBoundary(s, 0, true);
  }

  /** Three inputs, three steps. */
  lemma OpeningSteps(w: World, s: State)
    requires Initial(s)
    ensures var t := RunSession(w, s, Opening());
            && Rebuild(s, 0, true).grab.Some?
            && t.s == OnKeymap(Rebuild(s, 0, true), true, true).(phase := Active, pendingReactivation := false)
            && t.a == IDLE && t.held == {}
  {
    hide Rebuild, OnKeymap, Shape, RunSession;
    InitialShape(s);
    RebuildShape(s, 0, true);
    var none: seq<Input> := [];
    var one := [Other(Regrab(0, true))];
    var two := [Other(Regrab(0, true)), Other(Keymap(true, true))];
    SessionSnoc(w, s, none, one[0]);
    SessionSnoc(w, s, one, two[1]);
    SessionSnoc(w, s, two, Opening()[2]);
    assert none + [one[0]] == one && one + [two[1]] == two && two + [Opening()[2]] == Opening();
  }

  lemma Opens(w: World, s: State)
    requires Initial(s) && s.vk.present && Unbound(s.shortcuts)
    ensures Opened(RunSession(w, s, Opening()), s.shortcuts.switchEngine.mods)
  {
    hide Rebuild, OnKeymap, AppDown, RouterHeld, Shape, Unbound, RunSession, Initial;
    OpeningSteps(w, s);
    OpenedState(w, s);
    StepShape(w, OnKeymap(Rebuild(s, 0, true), true, true), SetPhase(Active, false));
  }

  // ---- presses that pass ----

  /** A press leaves a serving frontend serving, with its grab as it was but for the timer. */
  lemma ServingPress(w: World, s: State, e: KeyEvent, binding: Mods)
    requires Serving(s, binding) && e.isPress
    ensures var r := ProcessPress(w, s, e);
            && Serving(r, binding) && r.grab.value.physical == s.grab.value.physical && r.epoch == s.epoch
            && r.grab.value.sawBlocking == s.grab.value.sawBlocking
            && r.grab.value.createdAt == s.grab.value.createdAt
  {
    hide Shape, ProcessPress, PressDecision, PressTries, Unbound;
    PressShape(w, s, e);
    PressState(w, s, e);
  }

  /** The first press of a key in an open grab is decided by the tables alone. */
  lemma FirstPress(w: World, s: State, e: KeyEvent, binding: Mods)
    requires Serving(s, binding) && e.isPress && e.keysym in {SYM_A, SYM_MEDIA} && e.mods == NO_MODS
    requires TrackOf(s, e.key) == Idle
    ensures PressDecision(w, s, e) ==
            if 32 <= e.unicode && e.unicode != 127 && w.basicForwards(s.log + [Routed(e)]) then Text else Offer
  {
    hide Shape, VkUsable;
  }

  lemma ServingOpen(s: State, binding: Mods)
    requires Serving(s, binding)
    ensures Open(s) && |s.track| == MAX_TRACKED_KEYS && s.grab.Some?
  {
    hide Unbound;
  }

  /** The first press of a printable key under an engine that passes text on. */
  lemma TextPress(w: World, s: State, e: KeyEvent, binding: Mods)
    requires Serving(s, binding) && e.isPress && e.keysym == SYM_A && e.mods == NO_MODS && IsPrintable(e.unicode)
    requires TrackOf(s, e.key) == Idle && e.key < MAX_TRACKED_KEYS && forall log :: w.basicForwards(log)
    ensures var r := ProcessPress(w, s, e); TrackOf(r, e.key) == BasicPassthrough && e.key in AppDown(r.log)
  {
    hide Shape, VkUsable, ProcessPress, PressDecision, AppDown, Serving, Open, Verdict;
    ServingOpen(s, binding);
    FirstPress(w, s, e, binding);
    PressTrace(w, s, e);
    PressEffect(w, s, e);
    assert Verdict(w, s.log + [Routed(e)], s.shortcuts, e) == Text by { Decided(w, s, e); }
  }

  lemma Decided(w: World, s: State, e: KeyEvent)
    requires s.grab.Some? && PressDecision(w, s, e) in {Text, Offer}
    ensures Verdict(w, s.log + [Routed(e)], s.shortcuts, e) == PressDecision(w, s, e)
  {
  }

  /** A world whose engine wants nothing. */
  ghost predicate Declines(w: World) {
    && (forall log, e, again :: !w.engineHandles(log, e, again))
    && (forall log :: !w.hasCandidates(log)) && (forall log :: !w.basicForwards(log))
  }

  /** The first press of a key the engine declines; its repeat timer starts if the keymap says so. */
  lemma DeclinedPress(w: World, s: State, e: KeyEvent, binding: Mods)
    requires Serving(s, binding) && e.isPress && e.keysym in {SYM_A, SYM_MEDIA} && e.mods == NO_MODS
    requires TrackOf(s, e.key) == Idle && Declines(w)
    ensures var r := ProcessPress(w, s, e);
            && (e.key < MAX_TRACKED_KEYS ==> TrackOf(r, e.key) == Forwarded)
            && e.key in AppDown(r.log) && r.grab.Some?
            && (w.startsRepeat(r.log, e) ==> r.grab.value.repeating && r.grab.value.repeatKey == e.key)
  {
    hide Shape, VkUsable, ProcessPress, PressDecision, AppDown, Serving, Open, Verdict, Tried, ArrowSym, ModifierSym;
    ServingOpen(s, binding);
    FirstPress(w, s, e, binding);
    PressTrace(w, s, e);
    PressState(w, s, e);
    PressEffect(w, s, e);
    Decided(w, s, e);
    assert OfferForwards(w, s.log + [Routed(e)], e);
  }

  // ---- one raw event at a time ----

  lemma Arbitrates(s: State, binding: Mods, x: KeyInput)
    requires Serving(s, binding) && x.keysym in USED && x.focused
    ensures Arbitrated(s, x)
  {
    hide Shape, EffectiveMods, ReservedAction, VkUsable;
    NothingReserved(s.shortcuts, x.keysym, ArrivalOf(s, x).e.mods);
  }

  lemma ServingNoted(s: State, binding: Mods, x: KeyInput)
    requires Serving(s, binding)
    ensures Serving(Noted(s, x), binding) && Noted(s, x).grab.value.physical == ArrivalOf(s, x).phys
    ensures ArrivalOf(s, x).binding == binding
    ensures ArrivalOf(s, x).phys == WithKey(s.grab.value.physical, x.keysym, x.pressed)
    ensures Noted(s, x).log == s.log && Noted(s, x).track == s.track
    ensures Noted(s, x).grab.value.repeating == s.grab.value.repeating
    ensures Noted(s, x).grab.value.repeatKey == s.grab.value.repeatKey
  {
    hide Shape, EffectiveMods, WithKey, VkUsable, Unbound;
    NotedShape(s, x);
  }

  lemma NotedShape(s: State, x: KeyInput)
    requires Shape(s) && s.grab.Some?
    ensures Shape(Noted(s, x)) && VkUsable(Noted(s, x)) == VkUsable(s)
  {
    hide WithKey;
    GrabShape(s, Noted(s, x).grab.value);
  }

  /** A press the idle arbiter passes on. */
  lemma Passed(w: World, t: Session, x: KeyInput, binding: Mods)
    requires Serving(t.s, binding) && x.keysym in USED && x.focused && x.pressed && t.a == IDLE
    requires !ShouldStart(ArrivalOf(t.s, x))
    ensures SessionStep(w, t, Key(x)) ==
            Session(ProcessPress(w, Noted(t.s, x), ArrivalOf(t.s, x).e), IDLE, SessionStep(w, t, Key(x)).steps,
                    t.held + {x.key})
  {
    hide Shape, Run, ProcessPress, ShouldStart, EffectiveMods, StepsOf, ReservedAction, VkUsable, SessionStep, Noted;
    var e := ArrivalOf(t.s, x).e;
    Arbitrates(t.s, binding, x);
    ArbitratedStep(w, t, x);
    ServingNoted(t.s, binding, x);
    PassesDeliver([e]);
    assert Passes([e]) == [Pass(e)] && Delivers([e]) == [Deliver(e)];
    RunOne(w, Noted(t.s, x), Deliver(e));
  }

  /** An event the arbiter holds back. */
  lemma HeldBack(w: World, t: Session, x: KeyInput, binding: Mods)
    requires Serving(t.s, binding) && x.keysym in USED && x.focused
    requires ArbStep(t.a, ArrivalOf(t.s, x)).1 == []
    ensures SessionStep(w, t, Key(x)) ==
            Session(Noted(t.s, x), ArbStep(t.a, ArrivalOf(t.s, x)).0, SessionStep(w, t, Key(x)).steps,
                    RawHeld(t.held, x))
  {
    hide Shape, Run, ArbStep, EffectiveMods, StepsOf, ReservedAction, VkUsable, SessionStep, Noted;
    Arbitrates(t.s, binding, x);
    ArbitratedStep(w, t, x);
    NoSteps();
    RunOne(w, Noted(t.s, x), Dispatched);
  }

  /** A release that completes the chord. */
  lemma Completed(w: World, t: Session, x: KeyInput, binding: Mods, events: seq<KeyEvent>)
    requires Serving(t.s, binding) && x.keysym in USED && x.focused
    requires ArbStep(t.a, ArrivalOf(t.s, x)) == (IDLE, [Swallow(events)])
    ensures SessionStep(w, t, Key(x)) ==
            Session(Emit(Run(w, Noted(t.s, x), Orphans(events)), EngineSwitch), IDLE,
                    SessionStep(w, t, Key(x)).steps, RawHeld(t.held, x))
  {
    hide Shape, Run, ArbStep, EffectiveMods, StepsOf, ReservedAction, VkUsable, SessionStep, Noted, Orphans, Observed;
    Arbitrates(t.s, binding, x);
    ArbitratedStep(w, t, x);
    SwallowSteps(events);
    RunAppend(w, Noted(t.s, x), Orphans(events), [SwitchEngine]);
    RunOne(w, Run(w, Noted(t.s, x), Orphans(events)), SwitchEngine);
  }

  // ---- a letter let go inside Ctrl+Shift ----

  /** The letter is held as passed text while the modifiers are these. */
  ghost predicate LetterDown(s: State, phys: Mods) {
    && Serving(s, CTRL_SHIFT) && s.grab.value.physical == phys
    && TrackOf(s, KEY_A) == BasicPassthrough && KEY_A in AppDown(s.log)
  }

  lemma LetterNoted(s: State, phys: Mods, x: KeyInput)
    requires LetterDown(s, phys)
    ensures LetterDown(Noted(s, x), WithKey(phys, x.keysym, x.pressed))
    ensures ArrivalOf(s, x).phys == WithKey(phys, x.keysym, x.pressed) && ArrivalOf(s, x).binding == CTRL_SHIFT
    ensures ArrivalOf(s, x).e.isPress == x.pressed && ArrivalOf(s, x).e.key == x.key
    ensures ArrivalOf(s, x).e.keysym == x.keysym
  {
    hide Shape, VkUsable, Unbound, Noted, AppDown, EffectiveMods, WithKey;
    ServingNoted(s, CTRL_SHIFT, x);
  }

  lemma LetterPress(w: World, t: Session)
    requires Opened(t, CTRL_SHIFT) && forall log :: w.basicForwards(log)
    ensures var r := SessionStep(w, t, KeyDown(KEY_A, SYM_A, 97));
            LetterDown(r.s, NO_MODS) && r.a == IDLE && r.held == {KEY_A}
  {
    hide Shape, SessionStep, ProcessPress, VkUsable, AppDown, RouterHeld;
    var x := KeyDown(KEY_A, SYM_A, 97).x;
    ServingNoted(t.s, CTRL_SHIFT, x);
    Passed(w, t, x, CTRL_SHIFT);
    ServingPress(w, Noted(t.s, x), ArrivalOf(t.s, x).e, CTRL_SHIFT);
    TextPress(w, Noted(t.s, x), ArrivalOf(t.s, x).e, CTRL_SHIFT);
  }

  /** Another key's press does not touch the letter. */
  lemma LetterBeside(w: World, s: State, phys: Mods, e: KeyEvent)
    requires LetterDown(s, phys) && e.isPress && e.key != KEY_A
    ensures LetterDown(ProcessPress(w, s, e), phys)
  {
    hide Shape, ProcessPress, VkUsable, AppDown, Unbound, PressEntries, PressTrack;
    ServingPress(w, s, e, CTRL_SHIFT);
    PressTrace(w, s, e);
    PressEffect(w, s, e);
  }

  lemma CtrlPress(w: World, t: Session)
    requires LetterDown(t.s, NO_MODS) && t.a == IDLE && t.held == {KEY_A}
    ensures var r := SessionStep(w, t, KeyDown(KEY_CTRL, KEY_Control_L, 0));
            LetterDown(r.s, CTRL) && r.a == IDLE && r.held == {KEY_A, KEY_CTRL}
  {
    hide SessionStep, ProcessPress, LetterDown, Noted;
    var x := KeyDown(KEY_CTRL, KEY_Control_L, 0).x;
    LetterNoted(t.s, NO_MODS, x);
    assert Serving(t.s, CTRL_SHIFT) by { LetterServes(t.s, NO_MODS); }
    Passed(w, t, x, CTRL_SHIFT);
    LetterBeside(w, Noted(t.s, x), CTRL, ArrivalOf(t.s, x).e);
  }

  lemma LetterServes(s: State, phys: Mods)
    requires LetterDown(s, phys)
    ensures Serving(s, CTRL_SHIFT) && KEY_A in AppDown(s.log) && TrackOf(s, KEY_A) == BasicPassthrough
  {
  }

  /** The arbiter holds the event back while the chord goes on. */
  lemma LetterHeldBack(w: World, t: Session, phys: Mods, x: KeyInput)
    requires LetterDown(t.s, phys) && x.keysym in USED && x.focused && ArbOk(t.a) && |t.a.buffer| < MAX_BUFFERED - 1
    requires var after := WithKey(phys, x.keysym, x.pressed);
             if x.pressed then t.a == IDLE && ChordKey(CTRL_SHIFT, x.keysym) && after == CTRL_SHIFT
             else t.a.buffering && !Foreign(CTRL_SHIFT, after) && !Disjoint(after, CTRL_SHIFT)
    ensures var r := SessionStep(w, t, Key(x));
            && LetterDown(r.s, WithKey(phys, x.keysym, x.pressed)) && r.held == RawHeld(t.held, x)
            && r.a == Arb(true, t.a.buffer + [ArrivalOf(t.s, x).e])
  {
    hide SessionStep, LetterDown, Noted, WithKey, EffectiveMods, ArrivalOf;
    LetterNoted(t.s, phys, x);
    LetterServes(t.s, phys);
    HeldBack(w, t, x, CTRL_SHIFT);
  }

  lemma LetterSwallowed(w: World, t: Session)
    requires LetterDown(t.s, SHIFT) && t.a.buffering && |t.a.buffer| < MAX_BUFFERED - 1
    ensures var r := SessionStep(w, t, KeyUp(KEY_SHIFT, KEY_Shift_L, 0));
            && KEY_A in AppDown(r.s.log) && TrackOf(r.s, KEY_A) == BasicPassthrough && r.a == IDLE
            && r.held == t.held - {KEY_SHIFT}
  {
    hide SessionStep, LetterDown, Noted, ArrivalOf, EffectiveMods, Run, Orphans, AppDown, TrackOf;
    var x := KeyUp(KEY_SHIFT, KEY_Shift_L, 0).x;
    LetterNoted(t.s, SHIFT, x);
    LetterServes(t.s, SHIFT);
    LetterServes(Noted(t.s, x), NO_MODS);
    var events := t.a.buffer + [ArrivalOf(t.s, x).e];
    Completed(w, t, x, CTRL_SHIFT, events);
    ShapeSizes(Noted(t.s, x));
    SwallowedLetterStaysDown(w, Noted(t.s, x), events, KEY_A);
    SwitchKeeps(Run(w, Noted(t.s, x), Orphans(events)), KEY_A);
  }

  lemma SwitchKeeps(s: State, k: nat)
    ensures var r := Emit(s, EngineSwitch); AppDown(r.log) == AppDown(s.log) && TrackOf(r, k) == TrackOf(s, k)
    ensures RouterHeld(Emit(s, EngineSwitch).log) == RouterHeld(s.log)
  {
    hide AppDown, Entitled, RouterHeld, KeyWire, Paired;
  }

  /** The keys of the session: a letter, Ctrl, Shift; the letter let go before the modifiers. */
  function LetterSession(): seq<Input> {
    Opening() +
    [KeyDown(KEY_A, SYM_A, 97)] + [KeyDown(KEY_CTRL, KEY_Control_L, 0)] + [KeyDown(KEY_SHIFT, KEY_Shift_L, 0)] +
    [KeyUp(KEY_A, SYM_A, 97)] + [KeyUp(KEY_CTRL, KEY_Control_L, 0)] + [KeyUp(KEY_SHIFT, KEY_Shift_L, 0)]
  }

  /** With the default chord and an engine that passes text on: the application keeps the letter
      although every key has been let go. */
  lemma LetterStranded(w: World, s: State)
    requires Initial(s) && s.vk.present && Unbound(s.shortcuts) && s.shortcuts.switchEngine.mods == CTRL_SHIFT
    requires forall log :: w.basicForwards(log)
    ensures var t := RunSession(w, s, LetterSession());
            && KEY_A in AppDown(t.s.log) && TrackOf(t.s, KEY_A) == BasicPassthrough
            && t.held == {} && t.a == IDLE && !Physical(t)
  {
    hide RunSession, SessionStep, LetterDown, Opened, Initial, Unbound, AppDown, TrackOf, ArrivalOf;
    Opens(w, s);
    var i0 := Opening();
    var i1 := i0 + [KeyDown(KEY_A, SYM_A, 97)];
    var i2 := i1 + [KeyDown(KEY_CTRL, KEY_Control_L, 0)];
    var i3 := i2 + [KeyDown(KEY_SHIFT, KEY_Shift_L, 0)];
    var i4 := i3 + [KeyUp(KEY_A, SYM_A, 97)];
    var i5 := i4 + [KeyUp(KEY_CTRL, KEY_Control_L, 0)];
    SessionSnoc(w, s, i0, KeyDown(KEY_A, SYM_A, 97));
    LetterPress(w, RunSession(w, s, i0));
    SessionSnoc(w, s, i1, KeyDown(KEY_CTRL, KEY_Control_L, 0));
    CtrlPress(w, RunSession(w, s, i1));
    SessionSnoc(w, s, i2, KeyDown(KEY_SHIFT, KEY_Shift_L, 0));
    LetterHeldBack(w, RunSession(w, s, i2), CTRL, KeyDown(KEY_SHIFT, KEY_Shift_L, 0).x);
    SessionSnoc(w, s, i3, KeyUp(KEY_A, SYM_A, 97));
    LetterHeldBack(w, RunSession(w, s, i3), CTRL_SHIFT, KeyUp(KEY_A, SYM_A, 97).x);
    SessionSnoc(w, s, i4, KeyUp(KEY_CTRL, KEY_Control_L, 0));
    LetterHeldBack(w, RunSession(w, s, i4), CTRL_SHIFT, KeyUp(KEY_CTRL, KEY_Control_L, 0).x);
    SessionSnoc(w, s, i5, KeyUp(KEY_SHIFT, KEY_Shift_L, 0));
    LetterSwallowed(w, RunSession(w, s, i5));
    var t := RunSession(w, s, LetterSession());
    NotAccounted(t.s, t.held + ReleasedKeys(t.a.buffer), KEY_A);
  }

  // ---- a repeating key let go inside a Shift-only chord ----

  /** The letter is forwarded and auto-repeating while the modifiers are these. */
  ghost predicate LetterRepeats(s: State, phys: Mods) {
    && Serving(s, SHIFT) && s.grab.value.physical == phys
    && TrackOf(s, KEY_A) == Forwarded && KEY_A in AppDown(s.log) && TrackOf(s, KEY_SHIFT) == Idle
    && s.grab.value.repeating && s.grab.value.repeatKey == KEY_A
  }

  lemma RepeatingPress(w: World, t: Session)
    requires Opened(t, SHIFT) && Declines(w) && forall log, e :: w.startsRepeat(log, e)
    ensures var r := SessionStep(w, t, KeyDown(KEY_A, SYM_A, 97));
            LetterRepeats(r.s, NO_MODS) && r.a == IDLE && r.held == {KEY_A}
  {
    hide Shape, SessionStep, ProcessPress, VkUsable, AppDown, RouterHeld, Declines;
    var x := KeyDown(KEY_A, SYM_A, 97).x;
    var e := ArrivalOf(t.s, x).e;
    var n := Noted(t.s, x);
    ServingNoted(t.s, SHIFT, x);
    Passed(w, t, x, SHIFT);
    ServingPress(w, n, e, SHIFT);
    DeclinedPress(w, n, e, SHIFT);
    assert TrackOf(ProcessPress(w, n, e), KEY_SHIFT) == Idle by { BesideTrack(w, n, e, KEY_SHIFT); }
  }

  lemma BesideTrack(w: World, s: State, e: KeyEvent, k: nat)
    requires Shape(s) && s.grab.Some? && e.isPress && e.key != k
    ensures TrackOf(ProcessPress(w, s, e), k) == TrackOf(s, k)
  {
    hide Shape, ProcessPress, PressEntries, PressTrack;
    PressTrace(w, s, e);
  }

  lemma RepeatsNoted(s: State, phys: Mods, x: KeyInput)
    requires LetterRepeats(s, phys)
    ensures LetterRepeats(Noted(s, x), WithKey(phys, x.keysym, x.pressed)) && Serving(s, SHIFT)
    ensures ArrivalOf(s, x).phys == WithKey(phys, x.keysym, x.pressed) && ArrivalOf(s, x).binding == SHIFT
    ensures ArrivalOf(s, x).e.isPress == x.pressed && ArrivalOf(s, x).e.key == x.key
    ensures ArrivalOf(s, x).e.keysym == x.keysym
  {
    hide Shape, VkUsable, Unbound, Noted, AppDown, EffectiveMods, WithKey;
    ServingNoted(s, SHIFT, x);
  }

  lemma RepeatsHeldBack(w: World, t: Session, phys: Mods, x: KeyInput)
    requires LetterRepeats(t.s, phys) && x.focused && ArbOk(t.a) && |t.a.buffer| < MAX_BUFFERED - 1
    requires WithKey(phys, x.keysym, x.pressed) == SHIFT
    requires if x.pressed then t.a == IDLE && x.keysym == KEY_Shift_L else t.a.buffering && x.keysym == SYM_A
    ensures var r := SessionStep(w, t, Key(x));
            && LetterRepeats(r.s, SHIFT) && r.held == RawHeld(t.held, x)
            && r.a == Arb(true, t.a.buffer + [ArrivalOf(t.s, x).e])
  {
    hide SessionStep, LetterRepeats, Noted, WithKey, EffectiveMods, ArrivalOf;
    RepeatsNoted(t.s, phys, x);
    HeldBack(w, t, x, SHIFT);
  }

  /** Settling the letter: it is idle, its timer still runs. */
  ghost predicate TimerLeft(s: State) {
    && s.grab.Some? && s.grab.value.repeating && s.grab.value.repeatKey == KEY_A && s.grab.value.xkbLoaded
    && s.phase == Active && VkUsable(s) && TrackOf(s, KEY_A) == Idle && KEY_A !in RouterHeld(s.log)
  }

  lemma ChordSettles(w: World, s: State, events: seq<KeyEvent>)
    requires LetterRepeats(s, NO_MODS) && |events| == 3
    requires events[0].isPress && !events[1].isPress && events[1].key == KEY_A
    requires !events[2].isPress && events[2].key == KEY_SHIFT
    ensures TimerLeft(Emit(Run(w, s, Orphans(events)), EngineSwitch))
  {
    hide Shape, Run, VkUsable, AppDown, RouterHeld, Observed, Orphans, OrphanRelease, Unbound;
    var r := OrphanRelease(s, events[1]);
    SettledStillRepeats(s, events[1]);
    ShapeSizes(s);
    OneOrphan(s, events[1]);
    OneOrphan(r, events[2]);
    assert TrackOf(r, KEY_SHIFT) == Idle;
    assert Run(w, s, Orphans(events)) == r by { ThreeOrphans(w, s, events); }
    SwitchKeeps(r, KEY_A);
    assert VkUsable(Emit(r, EngineSwitch)) == VkUsable(r) by { SameUsable(r, Emit(r, EngineSwitch)); }
  }

  lemma ThreeOrphans(w: World, s: State, events: seq<KeyEvent>)
    requires |events| == 3 && events[0].isPress && !events[1].isPress && !events[2].isPress
    requires s.grab.Some? && OrphanRelease(s, events[1]).grab.Some?
    ensures Run(w, s, Orphans(events)) == OrphanRelease(OrphanRelease(s, events[1]), events[2])
  {
    hide Run, OrphanRelease;
    assert events[..2][..1] == events[..1] && events[..1][..0] == [] && events[..2][1] == events[1];
    assert Orphans(events[..1]) == [];
    assert Orphans(events[..2]) == [Orphan(events[1])];
    assert Orphans(events) == [Orphan(events[1])] + [Orphan(events[2])];
    RunAfter(w, s, Orphan(events[1]), [Orphan(events[2])]);
    RunOne(w, OrphanRelease(s, events[1]), Orphan(events[2]));
  }

  lemma RepeatsSwallowed(w: World, t: Session)
    requires LetterRepeats(t.s, SHIFT) && t.a.buffering && |t.a.buffer| == 2
    requires t.a.buffer[0].isPress && !t.a.buffer[1].isPress && t.a.buffer[1].key == KEY_A
    ensures var r := SessionStep(w, t, KeyUp(KEY_SHIFT, KEY_Shift_L, 0));
            TimerLeft(r.s) && r.a == IDLE && r.held == t.held - {KEY_SHIFT}
  {
    hide SessionStep, LetterRepeats, Noted, ArrivalOf, EffectiveMods, Run, Orphans, TimerLeft, Observed;
    var x := KeyUp(KEY_SHIFT, KEY_Shift_L, 0).x;
    RepeatsNoted(t.s, SHIFT, x);
    var events := t.a.buffer + [ArrivalOf(t.s, x).e];
    Completed(w, t, x, SHIFT, events);
    ChordSettles(w, Noted(t.s, x), events);
  }

  const TICK := Other(Repeat(SYM_A, 97, NO_MODS, true, true))

  lemma TimerTicks(w: World, t: Session)
    requires TimerLeft(t.s) && Declines(w)
    ensures var r := SessionStep(w, t, TICK);
            KEY_A in AppDown(r.s.log) && r.a == t.a && r.held == t.held
  {
    hide DispatchRepeat, VkUsable, AppDown, RouterHeld, Open;
    TickEffect(w, t.s, TICK.m);
    assert Open(t.s) by { OpenAside(t.s, None, []); }
    assert TickDeclined(w, t.s.log, TimerEvent(t.s.grab.value, SYM_A, 97, NO_MODS));
  }

  /** The keys of the session: a letter, Shift; the letter let go before Shift; one repeat tick. */
  function RepeatSession(): seq<Input> {
    Opening() +
    [KeyDown(KEY_A, SYM_A, 97)] + [KeyDown(KEY_SHIFT, KEY_Shift_L, 0)] +
    [KeyUp(KEY_A, SYM_A, 97)] + [KeyUp(KEY_SHIFT, KEY_Shift_L, 0)] + [TICK]
  }

  /** With Shift alone as the chord and an engine that declines: the settled letter's timer presses it
      again after every key has been let go. */
  lemma RepeatStranded(w: World, s: State)
    requires Initial(s) && s.vk.present && Unbound(s.shortcuts) && s.shortcuts.switchEngine.mods == SHIFT
    requires Declines(w) && forall log, e :: w.startsRepeat(log, e)
    ensures var t := RunSession(w, s, RepeatSession());
            KEY_A in AppDown(t.s.log) && t.held == {} && t.a == IDLE && !Physical(t)
  {
    hide RunSession, SessionStep, LetterRepeats, Opened, Initial, Unbound, AppDown, ArrivalOf, TimerLeft, Declines,
         EffectiveMods;
    Opens(w, s);
    var i0 := Opening();
    var i1 := i0 + [KeyDown(KEY_A, SYM_A, 97)];
    var i2 := i1 + [KeyDown(KEY_SHIFT, KEY_Shift_L, 0)];
    var i3 := i2 + [KeyUp(KEY_A, SYM_A, 97)];
    var i4 := i3 + [KeyUp(KEY_SHIFT, KEY_Shift_L, 0)];
    SessionSnoc(w, s, i0, KeyDown(KEY_A, SYM_A, 97));
    RepeatingPress(w, RunSession(w, s, i0));
    SessionSnoc(w, s, i1, KeyDown(KEY_SHIFT, KEY_Shift_L, 0));
    RepeatsHeldBack(w, RunSession(w, s, i1), NO_MODS, KeyDown(KEY_SHIFT, KEY_Shift_L, 0).x);
    RepeatsNoted(RunSession(w, s, i1).s, NO_MODS, KeyDown(KEY_SHIFT, KEY_Shift_L, 0).x);
    SessionSnoc(w, s, i2, KeyUp(KEY_A, SYM_A, 97));
    RepeatsHeldBack(w, RunSession(w, s, i2), SHIFT, KeyUp(KEY_A, SYM_A, 97).x);
    RepeatsNoted(RunSession(w, s, i2).s, SHIFT, KeyUp(KEY_A, SYM_A, 97).x);
    SessionSnoc(w, s, i3, KeyUp(KEY_SHIFT, KEY_Shift_L, 0));
    RepeatsSwallowed(w, RunSession(w, s, i3));
    SessionSnoc(w, s, i4, TICK);
    TimerTicks(w, RunSession(w, s, i4));
    var t := RunSession(w, s, RepeatSession());
    NotAccounted(t.s, t.held + ReleasedKeys(t.a.buffer), KEY_A);
  }

  // ---- a key outside the table ----

  /** A media key forwarded to the application, at an epoch when the startup window is over. */
  ghost predicate MediaDown(s: State) {
    && Serving(s, CTRL_SHIFT) && s.grab.value.physical == NO_MODS && !s.grab.value.sawBlocking
    && KEY_MEDIA in AppDown(s.log)
  }

  lemma OpenedQuiet(s: State)
    requires Initial(s) && s.vk.present
    ensures var r := OnKeymap(Rebuild(s, 0, true), true, true);
            r.epoch == s.epoch && r.grab.Some? && !r.grab.value.sawBlocking && r.grab.value.createdAt == s.epoch
  {
    hide HardReset, Rebuild;
    InitialShape(s);
    ResetState(s);
    RebuildState(s, 0, true);
  }

  /** The keys of the session: a media key pressed, three dispatch rounds, the media key let go. */
  function MediaSession(): seq<Input> {
    Opening() + [KeyDown(KEY_MEDIA, SYM_MEDIA, 0)] + [Other(Dispatched)] + [Other(Dispatched)] + [Other(Dispatched)] +
    [KeyUp(KEY_MEDIA, SYM_MEDIA, 0)]
  }

  lemma MediaPress(w: World, t: Session)
    requires Opened(t, CTRL_SHIFT) && Declines(w) && !t.s.grab.value.sawBlocking
    ensures var r := SessionStep(w, t, KeyDown(KEY_MEDIA, SYM_MEDIA, 0));
            && MediaDown(r.s) && r.a == IDLE && r.held == {KEY_MEDIA}
            && r.s.epoch == t.s.epoch && r.s.grab.value.createdAt == t.s.grab.value.createdAt
  {
    hide Shape, SessionStep, ProcessPress, VkUsable, AppDown, RouterHeld, Declines;
    var x := KeyDown(KEY_MEDIA, SYM_MEDIA, 0).x;
    var e := ArrivalOf(t.s, x).e;
    var n := Noted(t.s, x);
    ServingNoted(t.s, CTRL_SHIFT, x);
    Passed(w, t, x, CTRL_SHIFT);
    ServingPress(w, n, e, CTRL_SHIFT);
    DeclinedPress(w, n, e, CTRL_SHIFT);
  }

  lemma MediaWaits(w: World, t: Session)
    requires MediaDown(t.s)
    ensures var r := SessionStep(w, t, Other(Dispatched));
            && MediaDown(r.s) && r.a == t.a && r.held == t.held
            && r.s.epoch == t.s.epoch + 1 && r.s.grab.value.createdAt == t.s.grab.value.createdAt
  {
    hide VkUsable, AppDown, Unbound, Shape;
    StepShape(w, t.s, Dispatched);
    assert VkUsable(t.s.(epoch := t.s.epoch + 1)) == VkUsable(t.s) by { SameUsable(t.s, t.s.(epoch := t.s.epoch + 1)); }
  }

  lemma MediaRelease(w: World, t: Session)
    requires MediaDown(t.s) && t.a == IDLE && t.s.epoch > t.s.grab.value.createdAt + STARTUP_GUARD_EPOCHS
    ensures var r := SessionStep(w, t, KeyUp(KEY_MEDIA, SYM_MEDIA, 0));
            KEY_MEDIA in AppDown(r.s.log) && r.held == t.held - {KEY_MEDIA}
  {
    hide Shape, SessionStep, ProcessRelease, VkUsable, AppDown, RouterHeld, StepsOf, Run, Unbound, ReservedAction;
    var x := KeyUp(KEY_MEDIA, SYM_MEDIA, 0).x;
    var e := ArrivalOf(t.s, x).e;
    var n := Noted(t.s, x);
    ServingNoted(t.s, CTRL_SHIFT, x);
    Arbitrates(t.s, CTRL_SHIFT, x);
    ArbitratedStep(w, t, x);
    PassesDeliver([e]);
    assert Passes([e]) == [Pass(e)] && Delivers([e]) == [Deliver(e)];
    RunOne(w, n, Deliver(e));
    assert !OrphanForwarded(n, e);
    UntrackedKeyStuck(w, n, e);
  }

  /** A key at or above 512 that the engine declines stays down after it has been let go. */
  lemma MediaStranded(w: World, s: State)
    requires Initial(s) && s.vk.present && Unbound(s.shortcuts) && s.shortcuts.switchEngine.mods == CTRL_SHIFT
    requires Declines(w)
    ensures var t := RunSession(w, s, MediaSession()); KEY_MEDIA in AppDown(t.s.log) && t.held == {}
  {
    hide RunSession, SessionStep, MediaDown, Opened, Initial, Unbound, AppDown, Declines, Rebuild, OnKeymap;
    Opens(w, s);
    OpeningSteps(w, s);
    OpenedQuiet(s);
    var i0 := Opening();
    var i1 := i0 + [KeyDown(KEY_MEDIA, SYM_MEDIA, 0)];
    var i2 := i1 + [Other(Dispatched)];
    var i3 := i2 + [Other(Dispatched)];
    var i4 := i3 + [Other(Dispatched)];
    SessionSnoc(w, s, i0, KeyDown(KEY_MEDIA, SYM_MEDIA, 0));
    MediaPress(w, RunSession(w, s, i0));
    SessionSnoc(w, s, i1, Other(Dispatched));
    MediaWaits(w, RunSession(w, s, i1));
    SessionSnoc(w, s, i2, Other(Dispatched));
    MediaWaits(w, RunSession(w, s, i2));
    SessionSnoc(w, s, i3, Other(Dispatched));
    MediaWaits(w, RunSession(w, s, i3));
    SessionSnoc(w, s, i4, KeyUp(KEY_MEDIA, SYM_MEDIA, 0));
    MediaRelease(w, RunSession(w, s, i4));
  }
}
