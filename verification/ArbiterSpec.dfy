/**
 The key arbiter: it holds back a possible modifier chord and then either
 replays it to the router or swallows it and switches the engine.
 */
module ArbiterSpec {
  import opened KeyTypes

  const MAX_BUFFERED: nat := 8

  /** A key event as it reaches the arbiter: with the physical modifiers and the switch binding. */
  datatype Arrival = Arrival(e: KeyEvent, phys: Mods, binding: Mods)

  datatype Arb = Arb(buffering: bool, buffer: seq<KeyEvent>)

  /** What one arrival makes the arbiter do, in order. */
  datatype Act =
    | Pass(e: KeyEvent)                 // handed to the router
    | Swallow(events: seq<KeyEvent>)    // chord complete: discarded, engine switched

  const IDLE := Arb(false, [])

  /** The keysym produces one of the binding's modifiers. */
  predicate ChordKey(binding: Mods, keysym: nat) {
    (binding.ctrl && IsCtrl(keysym)) || (binding.shift && IsShift(keysym)) ||
    (binding.alt && IsAlt(keysym)) || (binding.super && IsSuper(keysym))
  }

  /** A Ctrl, Shift, Alt or Super outside the binding is held. */
  predicate Foreign(binding: Mods, phys: Mods) {
    (phys.ctrl && !binding.ctrl) || (phys.shift && !binding.shift) ||
    (phys.alt && !binding.alt) || (phys.super && !binding.super)
  }

  predicate ShouldStart(x: Arrival) {
    ChordKey(x.binding, x.e.keysym) && Includes(x.phys, x.binding) && !Foreign(x.binding, x.phys)
  }

  predicate ShouldCancel(x: Arrival, isPress: bool) {
    (isPress && !ChordKey(x.binding, x.e.keysym)) || Foreign(x.binding, x.phys)
  }

  predicate ChordComplete(x: Arrival) {
    Disjoint(x.phys, x.binding)
  }

  /** The push drops the event when all eight slots are taken. */
  function Push(buffer: seq<KeyEvent>, e: KeyEvent): seq<KeyEvent> {
    if |buffer| >= MAX_BUFFERED then buffer else buffer + [e]
  }

  function Passes(events: seq<KeyEvent>): seq<Act> {
    seq(|events|, i requires 0 <= i < |events| => Pass(events[i]))
  }

  function Replay(a: Arb, e: KeyEvent): (Arb, seq<Act>) {
    (IDLE, Passes(a.buffer + [e]))
  }

  function ArbPress(a: Arb, x: Arrival): (Arb, seq<Act>) {
    if !a.buffering then
      if ShouldStart(x) then (Arb(true, Push(a.buffer, x.e)), []) else (a, [Pass(x.e)])
    else if ShouldCancel(x, true) || |a.buffer| >= MAX_BUFFERED - 1 then Replay(a, x.e)
    else (Arb(true, Push(a.buffer, x.e)), [])
  }

  function ArbRelease(a: Arb, x: Arrival): (Arb, seq<Act>) {
    if !a.buffering then (a, [Pass(x.e)])
    else if ShouldCancel(x, false) then Replay(a, x.e)
    else
      var pushed := Push(a.buffer, x.e);
      if ChordComplete(x) then (IDLE, [Swallow(pushed)]) else (Arb(true, pushed), [])
  }

  function ArbStep(a: Arb, x: Arrival): (Arb, seq<Act>) {
    if x.e.isPress then ArbPress(a, x) else ArbRelease(a, x)
  }

  /** A run from the idle arbiter: where it ends and all it did. */
  function RunArb(xs: seq<Arrival>): (Arb, seq<Act>) {
    if xs == [] then (IDLE, [])
    else
      var n := |xs| - 1;
      var before := RunArb(xs[..n]);
      var step := ArbStep(before.0, xs[n]);
      (step.0, before.1 + step.1)
  }

  // ---- the table of a step, in key symbols and modifier bits ----

  /** The key symbol is Ctrl, Shift, Alt or Super, and that one belongs to the binding. */
  predicate BindingSym(b: Mods, keysym: nat) {
    || (b.ctrl && (keysym == 0xffe3 || keysym == 0xffe4))
    || (b.shift && (keysym == 0xffe1 || keysym == 0xffe2))
    || (b.alt && (keysym == 0xffe9 || keysym == 0xffea))
    || (b.super && (keysym == 0xffeb || keysym == 0xffec))
  }

  /** One of the four is held that does not belong to the binding. */
  predicate Stray(b: Mods, phys: Mods) {
    || (phys.ctrl && !b.ctrl) || (phys.shift && !b.shift) || (phys.alt && !b.alt) || (phys.super && !b.super)
  }

  predicate AllHeld(b: Mods, phys: Mods) {
    && (b.ctrl ==> phys.ctrl) && (b.shift ==> phys.shift) && (b.alt ==> phys.alt) && (b.super ==> phys.super)
    && (b.caps ==> phys.caps) && (b.num ==> phys.num)
  }

  predicate NoneHeld(b: Mods, phys: Mods) {
    && (b.ctrl ==> !phys.ctrl) && (b.shift ==> !phys.shift) && (b.alt ==> !phys.alt) && (b.super ==> !phys.super)
    && (b.caps ==> !phys.caps) && (b.num ==> !phys.num)
  }

  /** For any binding: an idle arbiter opens on a press of one of the binding's keys with all of the
      binding and nothing else held; an open one gives up on a stray modifier, on a press of another key
      and on a press that would be the eighth event; otherwise it holds the event back, until a release
      after which nothing of the binding is held, which it swallows with the rest. */
  lemma StepTable(a: Arb, x: Arrival)
    requires ArbOk(a)
    ensures var opens := x.e.isPress && BindingSym(x.binding, x.e.keysym) && AllHeld(x.binding, x.phys) &&
                         !Stray(x.binding, x.phys);
            var gives := Stray(x.binding, x.phys) ||
                         (x.e.isPress && (!BindingSym(x.binding, x.e.keysym) || |a.buffer| >= 7));
            var more := if |a.buffer| < 8 then a.buffer + [x.e] else a.buffer;
            ArbStep(a, x) ==
            if !a.buffering then (if opens then (Arb(true, [x.e]), []) else (IDLE, [Pass(x.e)]))
            else if gives then (IDLE, Passes(a.buffer + [x.e]))
            else if !x.e.isPress && NoneHeld(x.binding, x.phys) then (IDLE, [Swallow(more)])
            else (Arb(true, more), [])
  {
    SameBits(x);
    hide BindingSym, ChordKey, Stray, Foreign, AllHeld, Includes, NoneHeld, Disjoint, Passes;
    if !a.buffering {
      assert a == IDLE && [] + [x.e] == [x.e];
    }
  }

  lemma SameBits(x: Arrival)
    ensures ChordKey(x.binding, x.e.keysym) == BindingSym(x.binding, x.e.keysym)
    ensures Foreign(x.binding, x.phys) == Stray(x.binding, x.phys)
    ensures Includes(x.phys, x.binding) == AllHeld(x.binding, x.phys)
    ensures Disjoint(x.phys, x.binding) == NoneHeld(x.binding, x.phys)
  {
  }

  // ---- conservation ----

  function Fate(act: Act): seq<KeyEvent> {
    match act
    case Pass(e) => [e]
    case Swallow(events) => events
  }

  /** Every event the arbiter disposed of, delivered or swallowed, in order. */
  function Fates(acts: seq<Act>): seq<KeyEvent> {
    if acts == [] then [] else Fates(acts[..|acts| - 1]) + Fate(acts[|acts| - 1])
  }

  function Inputs(xs: seq<Arrival>): seq<KeyEvent> {
    seq(|xs|, i requires 0 <= i < |xs| => xs[i].e)
  }

  /** A release arrives to a full buffer: the push drops it. */
  predicate Lost(a: Arb, x: Arrival) {
    a.buffering && !x.e.isPress && !ShouldCancel(x, false) && |a.buffer| >= MAX_BUFFERED
  }

  /** The inputs without the releases that were lost. */
  function Kept(xs: seq<Arrival>): seq<KeyEvent> {
    if xs == [] then []
    else
      var n := |xs| - 1;
      Kept(xs[..n]) + if Lost(RunArb(xs[..n]).0, xs[n]) then [] else [xs[n].e]
  }

  ghost predicate NoneLost(xs: seq<Arrival>) {
    forall i :: 0 <= i < |xs| ==> !Lost(RunArb(xs[..i]).0, xs[i])
  }

  function Presses(es: seq<KeyEvent>): seq<KeyEvent> {
    if es == [] then []
    else Presses(es[..|es| - 1]) + if es[|es| - 1].isPress then [es[|es| - 1]] else []
  }

  lemma {:induction false} FatesPasses(acts: seq<Act>, events: seq<KeyEvent>)
    ensures Fates(acts + Passes(events)) == Fates(acts) + events
  {
    hide Fates;
    if events == [] {
      assert acts + Passes(events) == acts;
    } else {
      var n := |events| - 1;
      FatesPasses(acts, events[..n]);
      FatesOne(acts + Passes(events[..n]), Pass(events[n]));
      assert acts + Passes(events) == acts + Passes(events[..n]) + [Pass(events[n])];
    }
  }

  lemma FatesOne(acts: seq<Act>, act: Act)
    ensures Fates(acts + [act]) == Fates(acts) + Fate(act)
  {
    assert (acts + [act])[..|acts|] == acts;
  }

  /** The buffer never holds more than eight events, and none when idle. */
  predicate ArbOk(a: Arb) {
    |a.buffer| <= MAX_BUFFERED && (!a.buffering ==> a.buffer == [])
  }

  /** One arrival: what was held back and what was done account for the event, unless it is lost. */
  ghost predicate Accounts(a: Arb, x: Arrival, done: seq<Act>, r: (Arb, seq<Act>)) {
    && ArbOk(r.0)
    && Fates(done + r.1) + r.0.buffer == Fates(done) + a.buffer + (if Lost(a, x) then [] else [x.e])
  }

  lemma ReplayConserves(a: Arb, x: Arrival, done: seq<Act>)
    requires ArbOk(a) && !Lost(a, x)
    ensures Accounts(a, x, done, Replay(a, x.e))
  {
    hide Lost;
    FatesPasses(done, a.buffer + [x.e]);
    assert Fates(done + Passes(a.buffer + [x.e])) + [] == Fates(done) + a.buffer + [x.e];
  }

  lemma HoldConserves(a: Arb, x: Arrival, done: seq<Act>)
    requires ArbOk(a) && (Lost(a, x) <==> |a.buffer| >= MAX_BUFFERED)
    ensures Accounts(a, x, done, (Arb(true, Push(a.buffer, x.e)), []))
    ensures Accounts(a, x, done, (IDLE, [Swallow(Push(a.buffer, x.e))]))
  {
    hide Lost, Fates;
    assert done + [] == done;
    FatesOne(done, Swallow(Push(a.buffer, x.e)));
  }

  lemma PassConserves(a: Arb, x: Arrival, done: seq<Act>)
    requires ArbOk(a) && !a.buffering
    ensures Accounts(a, x, done, (a, [Pass(x.e)]))
  {
    hide Fates;
    FatesOne(done, Pass(x.e));
  }

  lemma StepConserves(a: Arb, x: Arrival, done: seq<Act>)
    requires ArbOk(a)
    ensures Accounts(a, x, done, ArbStep(a, x))
  {
    hide ShouldStart, ShouldCancel, ChordComplete, Fates, Push, Accounts, Replay;
    if !a.buffering {
      PassConserves(a, x, done);
      HoldConserves(a, x, done);
    } else if ShouldCancel(x, x.e.isPress) || (x.e.isPress && |a.buffer| >= MAX_BUFFERED - 1) {
      ReplayConserves(a, x, done);
    } else {
      HoldConserves(a, x, done);
    }
  }

  /** On every run: disposed events, then the buffer, are exactly the inputs that were not lost. */
  lemma {:induction false} Conservation(xs: seq<Arrival>)
    ensures var r := RunArb(xs);
            ArbOk(r.0) && Fates(r.1) + r.0.buffer == Kept(xs)
  {
    if xs != [] {
      var n := |xs| - 1;
      Conservation(xs[..n]);
      var before := RunArb(xs[..n]);
      StepConserves(before.0, xs[n], before.1);
      hide ArbStep, Fates, Lost, RunArb;
      assert RunArb(xs) == (ArbStep(before.0, xs[n]).0, before.1 + ArbStep(before.0, xs[n]).1) by { RunLast(xs); }
    }
  }

  lemma RunLast(xs: seq<Arrival>)
    ensures RunArb([]) == (IDLE, []) && NoneLost([])
    ensures xs != [] ==>
              var before := RunArb(xs[..|xs| - 1]); var step := ArbStep(before.0, xs[|xs| - 1]);
              RunArb(xs) == (step.0, before.1 + step.1)
  {
    hide ArbStep;
  }

  lemma NoneLostLast(xs: seq<Arrival>)
    requires xs != []
    ensures var n := |xs| - 1; NoneLost(xs) <==> NoneLost(xs[..n]) && !Lost(RunArb(xs[..n]).0, xs[n])
  {
    hide RunArb, Lost;
    var n := |xs| - 1;
    forall i: nat | i < n ensures Lost(RunArb(xs[..n][..i]).0, xs[..n][i]) == Lost(RunArb(xs[..i]).0, xs[i]) {
      assert xs[..n][..i] == xs[..i];
    }
    if NoneLost(xs) {
      assert forall i :: 0 <= i < n ==> !Lost(RunArb(xs[..n][..i]).0, xs[..n][i]);
    }
  }

  lemma {:induction false} KeptLength(xs: seq<Arrival>)
    ensures |Kept(xs)| <= |xs| && (|Kept(xs)| == |xs| <==> NoneLost(xs))
    ensures NoneLost(xs) ==> Kept(xs) == Inputs(xs)
  {
    hide RunArb, Lost, NoneLost;
    if xs == [] {
      assert NoneLost(xs) by { RunLast([]); }
    } else {
      var n := |xs| - 1;
      KeptLength(xs[..n]);
      NoneLostLast(xs);
      assert Inputs(xs) == Inputs(xs[..n]) + [xs[n].e];
    }
  }

  /** Nothing is lost, duplicated or reordered if and only if no release met a full buffer. */
  lemma ConservedExactly(xs: seq<Arrival>)
    ensures Fates(RunArb(xs).1) + RunArb(xs).0.buffer == Inputs(xs) <==> NoneLost(xs)
  {
    Conservation(xs);
    KeptLength(xs);
  }

  lemma PressesAppend(es: seq<KeyEvent>, e: KeyEvent)
    ensures Presses(es + [e]) == Presses(es) + if e.isPress then [e] else []
  {
    assert (es + [e])[..|es|] == es;
  }

  lemma {:induction false} KeptPresses(xs: seq<Arrival>)
    ensures Presses(Kept(xs)) == Presses(Inputs(xs))
  {
    hide RunArb, ShouldCancel, Presses;
    if xs == [] {
      assert Kept(xs) == Inputs(xs);
    } else {
      var n := |xs| - 1;
      KeptPresses(xs[..n]);
      PressesAppend(Kept(xs[..n]), xs[n].e);
      PressesAppend(Inputs(xs[..n]), xs[n].e);
      assert Inputs(xs) == Inputs(xs[..n]) + [xs[n].e];
      assert Kept(xs[..n]) + [] == Kept(xs[..n]);
    }
  }

  /** Even when releases are lost, no press ever is. */
  lemma PressesConserved(xs: seq<Arrival>)
    ensures Presses(Fates(RunArb(xs).1) + RunArb(xs).0.buffer) == Presses(Inputs(xs))
  {
    Conservation(xs);
    KeptPresses(xs);
  }

  // ---- clean chords ----

  /** The arrivals since the arbiter started to buffer, if it still does. */
  function Since(xs: seq<Arrival>): seq<Arrival> {
    if xs == [] || !RunArb(xs).0.buffering then []
    else
      var n := |xs| - 1;
      (if RunArb(xs[..n]).0.buffering then Since(xs[..n]) else []) + [xs[n]]
  }

  /** A chord so far: opened with all its modifiers held, only its keys pressed, no other modifier held. */
  ghost predicate CleanSoFar(chord: seq<Arrival>) {
    && chord != [] && chord[0].e.isPress
    && BindingSym(chord[0].binding, chord[0].e.keysym) && AllHeld(chord[0].binding, chord[0].phys)
    && (forall i :: 0 <= i < |chord| ==> !Stray(chord[i].binding, chord[i].phys))
    && (forall i :: 0 <= i < |chord| && chord[i].e.isPress ==> BindingSym(chord[i].binding, chord[i].e.keysym))
  }

  function FirstEight(chord: seq<Arrival>): seq<KeyEvent> {
    if |chord| <= MAX_BUFFERED then Inputs(chord) else Inputs(chord)[..MAX_BUFFERED]
  }

  lemma PushFirstEight(chord: seq<Arrival>, x: Arrival)
    ensures Push(FirstEight(chord), x.e) == FirstEight(chord + [x])
  {
    var more := Inputs(chord + [x]);
    assert more == Inputs(chord) + [x.e];
    if |chord| >= MAX_BUFFERED {
      assert more[..MAX_BUFFERED] == Inputs(chord)[..MAX_BUFFERED];
    }
  }

  lemma ExtendClean(chord: seq<Arrival>, x: Arrival)
    requires CleanSoFar(chord) && !Stray(x.binding, x.phys)
    requires x.e.isPress ==> BindingSym(x.binding, x.e.keysym)
    ensures CleanSoFar(chord + [x])
  {
    hide Stray, BindingSym, AllHeld;
    var more := chord + [x];
    assert more[0] == chord[0];
    forall i | 0 <= i < |more|
      ensures !Stray(more[i].binding, more[i].phys)
      ensures more[i].e.isPress ==> BindingSym(more[i].binding, more[i].e.keysym)
    {
      assert more[i] == if i < |chord| then chord[i] else x;
    }
  }

  lemma {:induction false} BufferIsClean(xs: seq<Arrival>)
    ensures var a := RunArb(xs).0;
            a.buffering ==> CleanSoFar(Since(xs)) && a.buffer == FirstEight(Since(xs))
  {
    if xs != [] {
      var n := |xs| - 1;
      var a := RunArb(xs[..n]).0;
      BufferIsClean(xs[..n]);
      Conservation(xs[..n]);
      StepTable(a, xs[n]);
      hide ArbStep, Stray, BindingSym, AllHeld, NoneHeld;
      if RunArb(xs).0.buffering {
        if a.buffering {
          PushFirstEight(Since(xs[..n]), xs[n]);
          ExtendClean(Since(xs[..n]), xs[n]);
        } else {
          assert Since(xs) == [xs[n]];
        }
      }
    }
  }

  /** A swallowed chord was clean from its first press to its last release, after which none of the
      binding's modifiers was held, whatever the binding is. */
  lemma CleanChord(xs: seq<Arrival>, x: Arrival, events: seq<KeyEvent>)
    requires Swallow(events) in ArbStep(RunArb(xs).0, x).1
    ensures var chord := Since(xs) + [x];
            CleanSoFar(chord) && !x.e.isPress && NoneHeld(x.binding, x.phys) && events == FirstEight(chord)
    ensures ArbStep(RunArb(xs).0, x).1 == [Swallow(events)] && ArbStep(RunArb(xs).0, x).0 == IDLE
  {
    hide RunArb, Stray, BindingSym, AllHeld, NoneHeld, ArbStep;
    Conservation(xs);
    BufferIsClean(xs);
    PushFirstEight(Since(xs), x);
    StepTable(RunArb(xs).0, x);
    ExtendClean(Since(xs), x);
  }

  /** Any release during a chord ends up swallowed if the chord completes: a concrete session in
      which the release of a letter pressed before the chord never reaches the router. */
  lemma LetterReleaseSwallowed(letter: nat, unicode: nat)
    requires !IsModifierKey(letter)
    ensures var chord := Mods(true, true, false, false, false, false);
            var shift := NO_MODS.(shift := true);
            var ctrl := KeyEvent(true, 29, KEY_Control_L, chord, 0, 2);
            var up := KeyEvent(false, 30, letter, chord, unicode, 3);
            var ctrlUp := KeyEvent(false, 29, KEY_Control_L, shift, 0, 4);
            var shiftUp := KeyEvent(false, 42, KEY_Shift_L, NO_MODS, 0, 5);
            RunArb([Arrival(ctrl, chord, chord), Arrival(up, chord, chord), Arrival(ctrlUp, shift, chord),
                    Arrival(shiftUp, NO_MODS, chord)]) ==
            (IDLE, [Swallow([ctrl, up, ctrlUp, shiftUp])])
  {
    var chord := Mods(true, true, false, false, false, false);
    var shift := NO_MODS.(shift := true);
    var ctrl := KeyEvent(true, 29, KEY_Control_L, chord, 0, 2);
    var up := KeyEvent(false, 30, letter, chord, unicode, 3);
    var ctrlUp := KeyEvent(false, 29, KEY_Control_L, shift, 0, 4);
    var shiftUp := KeyEvent(false, 42, KEY_Shift_L, NO_MODS, 0, 5);
    var x1 := Arrival(ctrl, chord, chord);
    var x2 := Arrival(up, chord, chord);
    var x3 := Arrival(ctrlUp, shift, chord);
    var x4 := Arrival(shiftUp, NO_MODS, chord);
    hide RunArb, ArbStep;
    RunSnoc([], x1);
    RunSnoc([x1], x2);
    RunSnoc([x1, x2], x3);
    RunSnoc([x1, x2, x3], x4);
    assert [] + [x1] == [x1] && [x1] + [x2] == [x1, x2] && [x1, x2] + [x3] == [x1, x2, x3];
    assert [x1, x2, x3] + [x4] == [x1, x2, x3, x4];
    assert RunArb([]) == (IDLE, []) by { RunLast([]); }
    LetterSteps(ctrl, up, ctrlUp, shiftUp);
    var none: seq<Act> := [];
    var chordDone := [Swallow([ctrl, up, ctrlUp, shiftUp])];
    assert none + none == none && none + chordDone == chordDone;
    assert RunArb([x1]) == (Arb(true, [ctrl]), none);
    assert RunArb([x1, x2]) == (Arb(true, [ctrl, up]), none);
    assert RunArb([x1, x2, x3]) == (Arb(true, [ctrl, up, ctrlUp]), none);
  }

  lemma LetterSteps(a: KeyEvent, b: KeyEvent, c: KeyEvent, d: KeyEvent)
    requires a.isPress && a.keysym == KEY_Control_L && !b.isPress && !c.isPress && !d.isPress
    ensures var chord := Mods(true, true, false, false, false, false);
            var shift := NO_MODS.(shift := true);
            && ArbStep(IDLE, Arrival(a, chord, chord)) == (Arb(true, [a]), [])
            && ArbStep(Arb(true, [a]), Arrival(b, chord, chord)) == (Arb(true, [a, b]), [])
            && ArbStep(Arb(true, [a, b]), Arrival(c, shift, chord)) == (Arb(true, [a, b, c]), [])
            && ArbStep(Arb(true, [a, b, c]), Arrival(d, NO_MODS, chord)) == (IDLE, [Swallow([a, b, c, d])])
  {
    assert [] + [a] == [a] && [a] + [b] == [a, b] && [a, b] + [c] == [a, b, c] && [a, b, c] + [d] == [a, b, c, d];
  }

  lemma RunSnoc(xs: seq<Arrival>, x: Arrival)
    ensures var before := RunArb(xs); var step := ArbStep(before.0, x);
            RunArb(xs + [x]) == (step.0, before.1 + step.1)
  {
    hide ArbStep;
    assert (xs + [x])[..|xs|] == xs;
  }

  const CTRL_SHIFT := Mods(true, true, false, false, false, false)

  /** The i-th of several letter keys going down with no modifier held. */
  function LetterPressed(k: nat, i: nat): Arrival {
    Arrival(KeyEvent(true, k + i, 0x61 + i, NO_MODS, 97 + i, i), NO_MODS, CTRL_SHIFT)
  }

  /** The same key going up while Ctrl and Shift are held. */
  function LetterReleased(k: nat, i: nat): Arrival {
    Arrival(KeyEvent(false, k + i, 0x61 + i, CTRL_SHIFT, 97 + i, 100 + i), CTRL_SHIFT, CTRL_SHIFT)
  }

  function ShiftDown(): Arrival {
    var shift := NO_MODS.(shift := true);
    Arrival(KeyEvent(true, 42, KEY_Shift_L, shift, 0, 90), shift, CTRL_SHIFT)
  }

  function CtrlDown(): Arrival {
    Arrival(KeyEvent(true, 29, KEY_Control_L, CTRL_SHIFT, 0, 91), CTRL_SHIFT, CTRL_SHIFT)
  }

  function LettersDown(k: nat, n: nat): seq<Arrival> {
    seq(n, i requires 0 <= i < n => LetterPressed(k, i))
  }

  function LettersUp(k: nat, n: nat): seq<Arrival> {
    seq(n, i requires 0 <= i < n => LetterReleased(k, i))
  }

  /** Hold several letters, press Shift and Ctrl, and let the first m letters go. */
  function Handful(k: nat, n: nat, m: nat): seq<Arrival> {
    LettersDown(k, n) + [ShiftDown()] + [CtrlDown()] + LettersUp(k, m)
  }

  lemma {:induction false} LettersPass(k: nat, n: nat)
    requires n <= 26
    ensures RunArb(LettersDown(k, n)).0 == IDLE
  {
    hide RunArb, ArbStep;
    if n == 0 {
      assert LettersDown(k, 0) == [];
      RunLast([]);
    } else {
      LettersPass(k, n - 1);
      assert LettersDown(k, n) == LettersDown(k, n - 1) + [LetterPressed(k, n - 1)];
      RunSnoc(LettersDown(k, n - 1), LetterPressed(k, n - 1));
      assert ArbStep(IDLE, LetterPressed(k, n - 1)).0 == IDLE by { FirstSteps(k, n - 1); }
    }
  }

  lemma FirstSteps(k: nat, i: nat)
    ensures ArbStep(IDLE, LetterPressed(k, i)).0 == IDLE && ArbStep(IDLE, ShiftDown()).0 == IDLE
    ensures ArbStep(IDLE, CtrlDown()).0 == Arb(true, [CtrlDown().e])
  {
  }

  /** Letting go of letters fills the buffer, since only a press checks for overflow: after the Ctrl
      press there is room for seven releases. */
  lemma {:induction false} ReleasesFill(k: nat, n: nat, m: nat)
    requires m <= n <= 26 && m < MAX_BUFFERED
    ensures var a := RunArb(Handful(k, n, m)).0; a.buffering && |a.buffer| == m + 1
  {
    hide RunArb, ArbStep;
    if m == 0 {
      var letters := LettersDown(k, n);
      LettersPass(k, n);
      FirstSteps(0, 0);
      RunSnoc(letters, ShiftDown());
      RunSnoc(letters + [ShiftDown()], CtrlDown());
      assert Handful(k, n, 0) == letters + [ShiftDown()] + [CtrlDown()];
    } else {
      var before := Handful(k, n, m - 1);
      ReleasesFill(k, n, m - 1);
      assert Handful(k, n, m) == before + [LetterReleased(k, m - 1)] by {
        assert LettersUp(k, m) == LettersUp(k, m - 1) + [LetterReleased(k, m - 1)];
      }
      RunSnoc(before, LetterReleased(k, m - 1));
      LetterHeld(RunArb(before).0, k, m - 1);
    }
  }

  lemma LetterHeld(a: Arb, k: nat, i: nat)
    requires a.buffering && |a.buffer| < MAX_BUFFERED
    ensures ArbStep(a, LetterReleased(k, i)).0 == Arb(true, a.buffer + [LetterReleased(k, i).e])
  {
  }

  /** Eight letters held before the chord, none of them Ctrl or Shift: the release of the eighth is lost. */
  lemma EighthReleaseLost(k: nat)
    requires k > ShiftDown().e.key
    ensures Lost(RunArb(Handful(k, 8, 7)).0, LetterReleased(k, 7))
    ensures Handful(k, 8, 8) == Handful(k, 8, 7) + [LetterReleased(k, 7)] && !NoneLost(Handful(k, 8, 8))
  {
    hide RunArb;
    ReleasesFill(k, 8, 7);
    var before := Handful(k, 8, 7);
    var all := Handful(k, 8, 8);
    assert all == before + [LetterReleased(k, 7)] by {
      assert LettersUp(k, 8) == LettersUp(k, 7) + [LetterReleased(k, 7)];
    }
    assert all[..|before|] == before && all[|before|] == LetterReleased(k, 7);
  }
}
