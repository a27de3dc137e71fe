/**
 What every step of the key machine puts in the log, entry by entry, and where
 it leaves its key. The conditions are written out in key symbols, modifier
 bits and numbers, not in terms of the router's own helpers.
 */
module KeyTrace {
  import opened KeyTypes
  import opened KeySpec

  // ---- the words of the tables ----

  predicate ModifierSym(keysym: nat) {
    keysym in {0xffe1, 0xffe2, 0xffe3, 0xffe4, 0xffe9, 0xffea, 0xffeb, 0xffec}
  }

  predicate ArrowSym(keysym: nat) {
    keysym in {0xff51, 0xff52, 0xff53, 0xff54}
  }

  predicate ChordHeld(m: Mods) { m.ctrl || m.alt || m.super }

  /** The binding's key is pressed with at least the binding's modifiers. */
  predicate Bound(b: Binding, keysym: nat, m: Mods) {
    && b.keysym != 0 && keysym == b.keysym
    && (b.mods.shift ==> m.shift) && (b.mods.ctrl ==> m.ctrl) && (b.mods.alt ==> m.alt)
    && (b.mods.super ==> m.super) && (b.mods.caps ==> m.caps) && (b.mods.num ==> m.num)
  }

  /** The virtual keyboard takes events: it is ready, or holds the keymap of this very generation. */
  predicate Open(s: State) {
    || s.vk.state == Ready
    || (s.vk.present && s.vk.state == NeedsKeymap && s.activeGeneration != 0 &&
        s.vk.keymapGeneration == s.activeGeneration)
  }

  /** At most two dispatch rounds after the grab was made. */
  predicate Early(g: Grab, epoch: nat) {
    g.createdAt <= epoch <= g.createdAt + 2
  }

  function Wire(open: bool, key: nat, pressed: bool): Log {
    if open then [WireKey(key, pressed)] else []
  }

  function Mask(open: bool, d: nat, l: nat, k: nat, g: nat): Log {
    if open then [WireMods(d, l, k, g)] else []
  }

  /** One entry of the tracking table. */
  function Put(track: seq<Track>, key: nat, t: Track): seq<Track> {
    if key < |track| then track[key := t] else track
  }

  // ---- presses ----

  /** What happens to a press. */
  datatype Decision = Ignore | Resend | Hold | Exit | Talk | NoTalk | Shortcut | Text | Offer

  /** A press that no latch and no startup guard stops. */
  function Verdict(w: World, log: Log, sc: Shortcuts, e: KeyEvent): Decision {
    if Bound(sc.emergencyExit, e.keysym, e.mods) then Exit
    else if Bound(sc.voicePtt, e.keysym, e.mods) && w.haveVoice then
      if w.voiceAvailable(log) then Talk else NoTalk
    else if ChordHeld(e.mods) && !ModifierSym(e.keysym) && !Bound(sc.voicePtt, e.keysym, e.mods) then Shortcut
    else if !ChordHeld(e.mods) && 32 <= e.unicode && e.unicode != 127 && w.basicForwards(log) then Text
    else Offer
  }

  /** An offered press goes on to the application, unless the engine took it (modifiers go on all the
      same) or it is an arrow key kept for the candidates shown. */
  predicate OfferForwards(w: World, log: Log, e: KeyEvent) {
    var handled := w.engineHandles(log, e, false);
    if handled then ModifierSym(e.keysym)
    else !(ArrowSym(e.keysym) && w.hasCandidates(log + [ToEngine(e.key, true, false)]))
  }

  function VerdictEntries(w: World, log: Log, sc: Shortcuts, open: bool, e: KeyEvent): Log {
    match Verdict(w, log, sc, e)
    case Exit => [Stopped(e.key)]
    case Talk => [VoiceStart(e.key)]
    case NoTalk => []
    case Offer => [ToEngine(e.key, true, false)] + Wire(open && OfferForwards(w, log, e), e.key, true)
    case _ => Wire(open, e.key, true)
  }

  function VerdictTrack(w: World, log: Log, sc: Shortcuts, e: KeyEvent, before: Track): Track {
    match Verdict(w, log, sc, e)
    case Talk => VoicePtt
    case NoTalk => VoicePttUnavailable
    case Shortcut => AppShortcut
    case Text => BasicPassthrough
    case Offer => if OfferForwards(w, log, e) then Forwarded else before
    case _ => before
  }

  function PressDecision(w: World, s: State, e: KeyEvent): Decision
    requires s.grab.Some?
  {
    match TrackOf(s, e.key)
    case ReleasedPending => Ignore
    case SuppressedStartup => Ignore
    case AppShortcut => if ChordHeld(s.grab.value.physical) then Resend else Ignore
    case Forwarded => Resend
    case _ =>
      if s.grab.value.suppressStale && Early(s.grab.value, s.epoch) then Hold
      else Verdict(w, s.log + [Routed(e)], s.shortcuts, e)
  }

  function PressEntries(w: World, s: State, e: KeyEvent): Log
    requires s.grab.Some?
  {
    match PressDecision(w, s, e)
    case Ignore => []
    case Hold => []
    case Resend => Wire(Open(s), e.key, true)
    case _ => VerdictEntries(w, s.log + [Routed(e)], s.shortcuts, Open(s), e)
  }

  function PressTrack(w: World, s: State, e: KeyEvent): Track
    requires s.grab.Some?
  {
    match PressDecision(w, s, e)
    case Ignore => TrackOf(s, e.key)
    case Resend => TrackOf(s, e.key)
    case Hold => SuppressedStartup
    case _ => VerdictTrack(w, s.log + [Routed(e)], s.shortcuts, e, TrackOf(s, e.key))
  }

  lemma SentEntries(s: State, k: nat, pressed: bool, t: Track)
    ensures var r := ForwardKey(s, k, pressed);
            && r.log == s.log + Wire(Open(s), k, pressed) && r.track == s.track
            && SetTrack(r, k, t).log == r.log && SetTrack(r, k, t).track == Put(s.track, k, t)
  {
    hide Send, AppDown, Entitled, RouterHeld, KeyWire, Paired;
    SendFrame(s, WireKey(k, pressed));
  }

  lemma QuietEntries(s: State, k: nat)
    ensures ReleaseGrab(Emit(s, Stopped(k))).(running := false).log == s.log + [Stopped(k)]
    ensures ReleaseGrab(Emit(s, Stopped(k))).(running := false).track == s.track
    ensures SetTrack(Emit(s, VoiceStart(k)), k, VoicePtt).log == s.log + [VoiceStart(k)]
    ensures SetTrack(Emit(s, VoiceStart(k)), k, VoicePtt).track == Put(s.track, k, VoicePtt)
    ensures SetTrack(s, k, VoicePttUnavailable).log == s.log
    ensures SetTrack(s, k, VoicePttUnavailable).track == Put(s.track, k, VoicePttUnavailable)
  {
    hide Observed;
  }

  lemma AskedEntries(s: State, e: KeyEvent, again: bool)
    ensures var r := AskEngine(s, e, again);
            && r.log == s.log + [ToEngine(e.key, e.isPress, again)] && r.track == s.track
            && Open(r) == Open(s)
  {
    hide Observed;
  }

  /** The router's own words and the table's are the same. */
  lemma SameWords(keysym: nat, m: Mods, b: Binding, unicode: nat)
    ensures IsModifierKey(keysym) == ModifierSym(keysym) && IsNavigation(keysym) == ArrowSym(keysym)
    ensures Blocking(m) == ChordHeld(m) && BindingMatches(b, keysym, m) == Bound(b, keysym, m)
    ensures IsPrintable(unicode) == (32 <= unicode && unicode != 127)
  {
  }

  lemma OfferTrace(w: World, s: State, e: KeyEvent)
    requires e.isPress
    ensures (!CandidateKeeps(w, s, e, false) && (!w.engineHandles(s.log, e, false) || IsModifierKey(e.keysym))) ==
            OfferForwards(w, s.log, e)
    ensures CandidateKeeps(w, s, e, false) ==> !OfferForwards(w, s.log, e)
  {
    hide IsModifierKey, ModifierSym, IsNavigation, ArrowSym, Observed;
    SameWords(e.keysym, e.mods, Binding(e.mods, 0), 0);
  }

  /** The state a verdict leads to. */
  lemma PassedCases(w: World, s: State, e: KeyEvent)
    requires s.grab.Some? && e.isPress
    ensures var r := RoutePassed(w, s, e); var asked := AskEngine(s, e, false);
            match Verdict(w, s.log, s.shortcuts, e)
            case Exit => r == ReleaseGrab(Emit(s, Stopped(e.key))).(running := false)
            case Talk => r == SetTrack(Emit(s, VoiceStart(e.key)), e.key, VoicePtt)
            case NoTalk => r == SetTrack(s, e.key, VoicePttUnavailable)
            case Shortcut => r == SetTrack(ForwardKey(s, e.key, true), e.key, AppShortcut)
            case Text => r == SetTrack(ForwardKey(s, e.key, true), e.key, BasicPassthrough)
            case _ =>
              r == if OfferForwards(w, s.log, e) then SetTrack(ForwardKey(asked, e.key, true), e.key, Forwarded)
                   else asked
  {
    hide ForwardKey, AskEngine, CandidateKeeps, ReleaseGrab, Emit, SetTrack, IsModifierKey, ModifierSym, OfferForwards,
         BindingMatches, Bound, Blocking, ChordHeld, IsPrintable;
    SameWords(e.keysym, e.mods, s.shortcuts.emergencyExit, e.unicode);
    SameWords(e.keysym, e.mods, s.shortcuts.voicePtt, e.unicode);
    OfferTrace(w, s, e);
  }

  lemma PassedTrace(w: World, s: State, e: KeyEvent)
    requires s.grab.Some? && e.isPress
    ensures var r := RoutePassed(w, s, e);
            && r.log == s.log + VerdictEntries(w, s.log, s.shortcuts, Open(s), e)
            && r.track == Put(s.track, e.key, VerdictTrack(w, s.log, s.shortcuts, e, TrackOf(s, e.key)))
  {
    hide ForwardKey, AskEngine, ReleaseGrab, Emit, SetTrack, RoutePassed, Verdict, OfferForwards, Open, Put, TrackOf;
    PassedCases(w, s, e);
    VerdictPasses(w, s.log, s.shortcuts, e);
    QuietEntries(s, e.key);
    SentEntries(s, e.key, true, AppShortcut);
    SentEntries(s, e.key, true, BasicPassthrough);
    AskedEntries(s, e, false);
    SentEntries(AskEngine(s, e, false), e.key, true, Forwarded);
    SetAside(s, e.key, Idle);
    var asked := [ToEngine(e.key, true, false)];
    var wire := Wire(Open(s), e.key, true);
    assert s.log + asked + wire == s.log + (asked + wire) && s.log + asked + [] == s.log + (asked + []);
    assert s.log + [] == s.log;
  }

  lemma FreshTrace(w: World, s: State, e: KeyEvent)
    requires s.grab.Some? && e.isPress
    ensures var r := RouteFresh(w, s, e);
            if s.grab.value.suppressStale && Early(s.grab.value, s.epoch) then
              r.log == s.log && r.track == Put(s.track, e.key, SuppressedStartup)
            else
              && r.log == s.log + VerdictEntries(w, s.log, s.shortcuts, Open(s), e)
              && r.track == Put(s.track, e.key, VerdictTrack(w, s.log, s.shortcuts, e, TrackOf(s, e.key)))
  {
    hide RoutePassed, VerdictEntries, VerdictTrack, Claim, Open, Put, SetTrack;
    var claimed := Claim(s, e.key);
    var calm := claimed.(grab := Some(s.grab.value.(suppressStale := false)));
    ClaimedAside(s, e.key);
    PassedTrace(w, claimed, e);
    PassedTrace(w, calm, e);
    assert Open(calm) == Open(claimed) by { OpenAside(claimed, calm.grab, []); }
    assert TrackOf(calm, e.key) == TrackOf(claimed, e.key);
    assert SetTrack(claimed, e.key, SuppressedStartup).track == Put(s.track, e.key, SuppressedStartup) &&
           SetTrack(claimed, e.key, SuppressedStartup).log == s.log by { SetAside(claimed, e.key, SuppressedStartup); }
  }

  lemma ClaimedAside(s: State, k: nat)
    ensures var r := Claim(s, k);
            && r.log == s.log && r.track == s.track && r.grab == s.grab && r.shortcuts == s.shortcuts
            && r.epoch == s.epoch && Open(r) == Open(s)
  {
  }

  /** Neither the grab record nor the log nor a carry decides what the keyboard takes. */
  lemma OpenAside(s: State, g: Option<Grab>, log: Log)
    ensures Open(s.(grab := g)) == Open(s) && Open(s.(log := log)) == Open(s)
    ensures Open(s.(grab := g, log := log)) == Open(s) && Open(s) == VkUsable(s)
    ensures Open(s.(carried := true)) == Open(s) && CanSend(s.(carried := true)) == CanSend(s)
  {
  }

  lemma SetAside(s: State, k: nat, t: Track)
    ensures SetTrack(s, k, t).log == s.log && SetTrack(s, k, t).track == Put(s.track, k, t)
    ensures Put(s.track, k, TrackOf(s, k)) == s.track
  {
  }

  /** A press, whole: everything it adds to the log, in order, and where it leaves its key. */
  lemma PressTrace(w: World, s: State, e: KeyEvent)
    requires s.grab.Some? && e.isPress
    ensures var r := ProcessPress(w, s, e);
            && r.log == s.log + [Routed(e)] + PressEntries(w, s, e)
            && r.track == Put(s.track, e.key, PressTrack(w, s, e))
  {
    hide RouteFresh, ForwardKey, VerdictEntries, VerdictTrack, Observed, Early, Put, Open;
    var a := Emit(s, Routed(e));
    assert a == s.(log := s.log + [Routed(e)]);
    assert Open(a) == Open(s) by { OpenAside(s, None, a.log); }
    FreshTrace(w, a, e);
    SentEntries(a, e.key, true, Idle);
    SetAside(s, e.key, Idle);
    VerdictPasses(w, a.log, s.shortcuts, e);
    assert RoutePress(w, s, e).log == s.log + [Routed(e)] + PressEntries(w, s, e);
  }

  lemma VerdictPasses(w: World, log: Log, sc: Shortcuts, e: KeyEvent)
    ensures Verdict(w, log, sc, e) !in {Ignore, Resend, Hold}
  {
  }

  /** Which presses the engine is given: exactly those of a key that is not latched, outside the startup
      window, bound neither to the emergency exit nor to push-to-talk (if there is voice), neither a
      shortcut for the application nor passed as text; each once, and nothing else for the engine. */
  lemma EngineAsked(w: World, s: State, e: KeyEvent)
    requires s.grab.Some? && e.isPress
    ensures var r := ProcessPress(w, s, e);
            var log := s.log + [Routed(e)];
            var g := s.grab.value;
            var offered :=
              && TrackOf(s, e.key) !in {Forwarded, AppShortcut, SuppressedStartup, ReleasedPending}
              && !(g.suppressStale && g.createdAt <= s.epoch <= g.createdAt + 2)
              && !Bound(s.shortcuts.emergencyExit, e.keysym, e.mods)
              && !(w.haveVoice && Bound(s.shortcuts.voicePtt, e.keysym, e.mods))
              && ((e.mods.ctrl || e.mods.alt || e.mods.super) ==>
                    ModifierSym(e.keysym) || Bound(s.shortcuts.voicePtt, e.keysym, e.mods))
              && !(!e.mods.ctrl && !e.mods.alt && !e.mods.super && 32 <= e.unicode && e.unicode != 127 &&
                   w.basicForwards(log));
            && |log| <= |r.log| && r.log[..|log|] == log
            && (offered <==> ToEngine(e.key, true, false) in r.log[|log|..])
            && (forall i, j :: |log| <= i < j < |r.log| && r.log[i].ToEngine? ==> !r.log[j].ToEngine?)
            && (forall i :: |log| <= i < |r.log| && r.log[i].ToEngine? ==> r.log[i] == ToEngine(e.key, true, false))
  {
    hide ProcessPress, Bound, ModifierSym, OfferForwards, Open;
    PressTrace(w, s, e);
    var r := ProcessPress(w, s, e);
    var log := s.log + [Routed(e)];
    assert r.log[|log|..] == PressEntries(w, s, e);
    assert forall i :: |log| <= i < |r.log| ==> r.log[i] == PressEntries(w, s, e)[i - |log|];
  }

  // ---- releases ----

  /** The release of a key whose press this grab never routed goes on to the application. */
  predicate OrphanGoesOn(s: State, e: KeyEvent)
    requires s.grab.Some?
  {
    && !ModifierSym(e.keysym)
    && (Early(s.grab.value, s.epoch) || e.keysym == 0xff0d || e.keysym == 0xff8d ||
        s.grab.value.sawBlocking || ChordHeld(e.mods))
  }

  function ReleaseEntries(w: World, s: State, e: KeyEvent): Log
    requires s.grab.Some?
  {
    var log := s.log + [Routed(e)];
    var wire := Wire(Open(s), e.key, false);
    match TrackOf(s, e.key)
    case ReleasedPending => []
    case VoicePttUnavailable => []
    case VoicePtt => if w.haveVoice then [VoiceStop(e.key)] else []
    case Forwarded =>
      var asked := [ToEngine(e.key, false, false)];
      if !w.engineHandles(log, e, false) && ArrowSym(e.keysym) && w.hasCandidates(log + asked) then asked
      else asked + wire
    case Idle =>
      if s.activeGeneration != 0 && GenerationOf(s, e.key) == s.activeGeneration then
        [ToEngine(e.key, false, false)]
      else if OrphanGoesOn(s, e) then wire else []
    case _ => wire
  }

  lemma ClearedEntries(s: State, k: nat)
    ensures ClearTracking(s, k).log == s.log && Open(ClearTracking(s, k)) == Open(s)
    ensures ClearTracking(s, k).track == Put(s.track, k, Idle)
    ensures s.grab.Some? ==> ClearStaleFlag(s).log == s.log && ClearStaleFlag(s).track == s.track
    ensures forall g :: ClearTracking(s, k).(grab := g).log == s.log && Open(ClearTracking(s, k).(grab := g)) == Open(s)
  {
  }

  lemma IdleTrace(w: World, s: State, e: KeyEvent)
    requires s.grab.Some? && !e.isPress && TrackOf(s, e.key) == Idle
    ensures var r := RouteReleaseBody(w, s, e);
            && r.track == Put(s.track, e.key, Idle)
            && r.log == s.log +
               if OwnedByActive(s, e.key) then [ToEngine(e.key, false, false)]
               else Wire(Open(s) && OrphanForwarded(s, e), e.key, false)
  {
    hide ForwardKey, ClearTracking, ClearStaleFlag, AskEngine, OrphanForwarded, Open, OwnedByActive;
    SentEntries(s, e.key, false, Idle);
    ClearedEntries(s, e.key);
    ClearedEntries(ForwardKey(s, e.key, false), e.key);
    AskedEntries(ClearStaleFlag(s), e, false);
    ClearedEntries(AskEngine(ClearStaleFlag(s), e, false), e.key);
  }

  lemma CountedTrace(s: State, k: nat)
    requires s.grab.Some?
    ensures var g := s.grab.value;
            var counted := ClearTracking(s, k).(
              grab := Some(g.(suppressedCount := if g.suppressedCount > 0 then g.suppressedCount - 1 else 0)));
            var r := ForwardKey(ClearStaleFlag(counted), k, false);
            r.log == s.log + Wire(Open(s), k, false) && r.track == Put(s.track, k, Idle)
  {
    hide ForwardKey, ClearTracking, Put, Open;
    var g := s.grab.value;
    var counted := ClearTracking(s, k).(
      grab := Some(g.(suppressedCount := if g.suppressedCount > 0 then g.suppressedCount - 1 else 0)));
    ClearAside(s, k);
    ClearedEntries(s, k);
    SentEntries(ClearStaleFlag(counted), k, false, Idle);
    OpenAside(ClearTracking(s, k), ClearStaleFlag(counted).grab, []);
  }

  lemma BodyTrace(w: World, s: State, e: KeyEvent)
    requires s.grab.Some? && !e.isPress
    ensures var r := RouteReleaseBody(w, s, e);
            && r.track == Put(s.track, e.key, Idle)
            && r.log == s.log +
               (match TrackOf(s, e.key)
                case ReleasedPending => []
                case VoicePttUnavailable => []
                case VoicePtt => if w.haveVoice then [VoiceStop(e.key)] else []
                case Forwarded => [ToEngine(e.key, false, false)] +
                                  Wire(Open(s) && !CandidateKeeps(w, s, e, false), e.key, false)
                case Idle => (if OwnedByActive(s, e.key) then [ToEngine(e.key, false, false)]
                              else Wire(Open(s) && OrphanForwarded(s, e), e.key, false))
                case _ => Wire(Open(s), e.key, false))
  {
    hide ForwardKey, ClearTracking, ClearStaleFlag, AskEngine, OrphanForwarded, Open, OwnedByActive, SetTrack,
         CandidateKeeps, Observed;
    var cleared := ClearTracking(s, e.key);
    ClearedEntries(s, e.key);
    match TrackOf(s, e.key)
    case Idle => IdleTrace(w, s, e);
    case SuppressedStartup => CountedTrace(s, e.key);
    case VoicePtt =>
      ClearedEntries(Emit(s, VoiceStop(e.key)), e.key);
    case Forwarded =>
      AskedEntries(cleared, e, false);
      SentEntries(AskEngine(cleared, e, false), e.key, false, Idle);
      SameLogKeeps(w, cleared, s, e);
    case _ => SentEntries(cleared, e.key, false, Idle);
  }

  lemma SameLogKeeps(w: World, a: State, b: State, e: KeyEvent)
    requires a.log == b.log
    ensures CandidateKeeps(w, a, e, false) == CandidateKeeps(w, b, e, false)
  {
    hide Observed;
    assert AskEngine(a, e, false).log == AskEngine(b, e, false).log;
  }

  /** The state in which ProcessRelease settles the release. */
  function Accepted(s: State, e: KeyEvent): State
    requires s.grab.Some?
  {
    var g := s.grab.value;
    Emit(if g.repeating && g.repeatKey == e.key then StopRepeat(s) else s, Routed(e))
  }

  lemma AcceptedLog(s: State, e: KeyEvent)
    requires s.grab.Some?
    ensures var a := Accepted(s, e);
            && a == s.(grab := a.grab, log := s.log + [Routed(e)]) && a.grab.Some?
            && VkUsable(a) == VkUsable(s) && OrphanForwarded(a, e) == OrphanForwarded(s, e)
  {
    hide Observed, OrphanNeedsCleanup, IsModifierKey, InGuardWindow;
  }

  lemma OrphanWords(s: State, e: KeyEvent)
    requires s.grab.Some?
    ensures OrphanForwarded(s, e) == OrphanGoesOn(s, e)
  {
    hide IsModifierKey, ModifierSym;
    SameWords(e.keysym, e.mods, Binding(e.mods, 0), 0);
  }

  /** A release, whole: everything it adds to the log, in order; its key is idle afterwards and no longer
      of this generation, and no other key is touched. */
  lemma ReleaseTrace(w: World, s: State, e: KeyEvent)
    requires s.grab.Some? && !e.isPress
    ensures var r := ProcessRelease(w, s, e);
            && r.log == s.log + [Routed(e)] + ReleaseEntries(w, s, e) + [Freed(e.key)]
            && r.track == Put(s.track, e.key, Idle)
  {
    hide RouteReleaseBody, OrphanForwarded, OrphanGoesOn, AppDown, Entitled, RouterHeld, KeyWire, Paired, Observed,
         SetTrack, IsNavigation, ArrowSym;
    var a := Accepted(s, e);
    AcceptedLog(s, e);
    OrphanWords(s, e);
    SameWords(e.keysym, e.mods, Binding(e.mods, 0), 0);
    assert a.track == s.track && GenerationOf(a, e.key) == GenerationOf(s, e.key) && Open(a) == Open(s);
    BodyTrace(w, a, e);
  }

  // ---- the repeat timer ----

  /** The event the timer makes up. */
  function TimerEvent(g: Grab, keysym: nat, unicode: nat, xkb: Mods): KeyEvent {
    KeyEvent(true, g.repeatKey, keysym,
             Mods(g.physical.shift, g.physical.ctrl, g.physical.alt, g.physical.super,
                  g.physical.caps || xkb.caps, g.physical.num || xkb.num),
             unicode, g.repeatTime)
  }

  /** The tick is dispatched to its key. */
  predicate Ticks(s: State, timerRead: bool, focused: bool) {
    s.grab.Some? && s.grab.value.repeating && s.phase == Active && timerRead && s.grab.value.xkbLoaded && focused
  }

  /** An engine that does not take the tick and keeps no arrow key for candidates. */
  predicate TickDeclined(w: World, log: Log, e: KeyEvent) {
    !w.engineHandles(log, e, true) && !(ArrowSym(e.keysym) && w.hasCandidates(log + [ToEngine(e.key, true, true)]))
  }

  function TickEntries(w: World, s: State, e: KeyEvent): Log
    requires s.grab.Some?
  {
    match TrackOf(s, e.key)
    case AppShortcut => Wire(Open(s) && ChordHeld(s.grab.value.physical), e.key, true)
    case Forwarded => Wire(Open(s), e.key, true)
    case BasicPassthrough => Wire(Open(s), e.key, true)
    case SuppressedStartup => []
    case ReleasedPending => []
    case _ => [ToEngine(e.key, true, true)] + Wire(Open(s) && TickDeclined(w, s.log, e), e.key, true)
  }

  function TickTrack(w: World, s: State, e: KeyEvent): Track {
    var t := TrackOf(s, e.key);
    if t in {Idle, VoicePtt, VoicePttUnavailable} && TickDeclined(w, s.log, e) then Forwarded else t
  }

  lemma FireTrace(w: World, s: State, e: KeyEvent)
    requires s.grab.Some? && e.isPress
    ensures var r := RepeatFire(w, s, e);
            r.log == s.log + TickEntries(w, s, e) && r.track == Put(s.track, e.key, TickTrack(w, s, e))
  {
    hide ForwardKey, AskEngine, Open, CandidateKeeps, TickDeclined, SetTrack, Put, StopRepeat;
    SentEntries(s, e.key, true, Idle);
    var asked := AskEngine(s, e, true);
    AskedEntries(s, e, true);
    SentEntries(asked, e.key, true, Forwarded);
    SetAside(s, e.key, Idle);
    DeclinedTick(w, s, e);
    assert StopRepeat(s).log == s.log && StopRepeat(s).track == s.track by { StopAside(s); }
  }

  lemma DeclinedTick(w: World, s: State, e: KeyEvent)
    requires e.isPress
    ensures (w.engineHandles(s.log, e, true) || CandidateKeeps(w, s, e, true)) == !TickDeclined(w, s.log, e)
  {
    hide IsNavigation, ArrowSym, Observed;
    SameWords(e.keysym, e.mods, Binding(e.mods, 0), 0);
  }

  lemma StopAside(s: State)
    ensures StopRepeat(s).log == s.log && StopRepeat(s).track == s.track
  {
  }

  /** A tick of the timer, whole: what it adds to the log and where it leaves its key. */
  lemma TickTrace(w: World, s: State, keysym: nat, unicode: nat, xkb: Mods, timerRead: bool, focused: bool)
    requires s.grab.Some?
    ensures var r := DispatchRepeat(w, s, keysym, unicode, xkb, timerRead, focused);
            var e := TimerEvent(s.grab.value, keysym, unicode, xkb);
            if Ticks(s, timerRead, focused) then
              r.log == s.log + TickEntries(w, s, e) && r.track == Put(s.track, e.key, TickTrack(w, s, e))
            else r.log == s.log && r.track == s.track
  {
    hide RepeatFire, TickEntries, TickTrack, Put;
    FireTrace(w, s, RepeatEvent(s.grab.value, keysym, unicode, xkb));
  }

  // ---- chords and boundaries ----

  /** One release of a swallowed chord. */
  function OrphanEntries(s: State, e: KeyEvent): Log {
    if TrackOf(s, e.key) == Forwarded then Wire(Open(s), e.key, false) + [Freed(e.key)] else []
  }

  lemma OrphanTrace(s: State, e: KeyEvent)
    ensures OrphanRelease(s, e).log == s.log + OrphanEntries(s, e)
  {
    hide ForwardKey, Open, Observed, ClearTracking;
    SentEntries(s, e.key, false, Idle);
    ClearedEntries(ForwardKey(s, e.key, false), e.key);
  }

  predicate Carries(s: State) {
    s.grab.Some? && s.owned && s.phase == Deactivating &&
    !(s.grab.value.depressed == 0 && s.grab.value.latched == 0 && s.grab.value.locked == 0)
  }

  predicate CanSend(s: State) {
    s.vk.present && s.vk.state != Absent && s.vk.state != Broken
  }

  /** What an owned grab puts on the wire at its end: the held keys released, then the modifiers carried on
      or cleared. */
  function OwnedEntries(s: State): Log {
    (if CanSend(s) then ReleasesFor(s.track) else []) +
    if Carries(s) then
      var g := s.grab.value;
      Mask(Open(s), g.depressed, g.latched, g.locked, g.group)
    else Mask(Open(s), 0, 0, 0, 0)
  }

  /** What settles the wire: an earlier carry undone, then that. */
  function SettleEntries(s: State): Log {
    (if s.carried && s.phase != Deactivating then Mask(Open(s), 0, 0, 0, 0) else []) +
    (if s.owned then OwnedEntries(s) else [])
  }

  /** What a hard reset adds: that, and the end of the grab if there was one. */
  function ResetEntries(s: State): Log {
    SettleEntries(s) + if s.grab.Some? then [Boundary] else []
  }

  /** What the modifier updates of a boundary leave alone. */
  ghost predicate SameBase(s: State, r: State) {
    && Open(r) == Open(s) && CanSend(r) == CanSend(s) && r.track == s.track && r.owned == s.owned
    && r.phase == s.phase && r.grab.Some? == s.grab.Some? && r.epoch == s.epoch && r.vk.present == s.vk.present
    && (r.vk.state == s.vk.state || r.vk.state == Ready)
  }

  lemma MaskEntries(s: State, d: nat, l: nat, k: nat, g: nat)
    ensures var r := ForwardModifiers(s, d, l, k, g); r.log == s.log + Mask(Open(s), d, l, k, g) && SameBase(s, r)
  {
    hide Send, AppDown, Entitled, RouterHeld, KeyWire, Paired;
    SendFrame(s, WireMods(d, l, k, g));
  }

  lemma ClearedMask(s: State)
    ensures var r := ResetModifiers(s); r.log == s.log + Mask(Open(s), 0, 0, 0, 0) && SameBase(s, r)
  {
    hide Send, VkGate, AppDown, Entitled, RouterHeld, KeyWire, Paired;
    MaskEntries(s, 0, 0, 0, 0);
    VkGateFrame(s);
  }

  lemma ReleasedEntries(s: State)
    ensures var r := ReleaseForwardedKeys(s);
            && r.log == s.log + (if CanSend(s) then ReleasesFor(s.track) else [])
            && Open(r) == Open(s) && CanSend(r) == CanSend(s) && r.owned == s.owned && r.phase == s.phase
            && r.grab == s.grab && r.vk == s.vk
            && (CanSend(s) ==> ReleasesFor(r.track) == []) && (!CanSend(s) ==> r.track == s.track)
  {
    if CanSend(s) {
      NoReleases(MarkReleasedPending(s.track));
    }
  }

  lemma {:induction false} NoReleases(track: seq<Track>)
    requires forall k :: 0 <= k < |track| ==> !AppHeld(track[k])
    ensures ReleasesFor(track) == []
  {
    if track != [] {
      NoReleases(track[..|track| - 1]);
    }
  }

  /** The modifiers at the end of an owned grab: carried on or cleared. */
  lemma LastMask(s: State)
    ensures if CarriesModifiers(s) then
              var g := s.grab.value;
              var r := ForwardModifiers(s, g.depressed, g.latched, g.locked, g.group).(carried := true);
              SameBase(s, r) && r.log == s.log + Mask(Open(s), g.depressed, g.latched, g.locked, g.group)
            else
              SameBase(s, ResetModifiers(s)) && ResetModifiers(s).log == s.log + Mask(Open(s), 0, 0, 0, 0)
  {
    hide ResetModifiers, ForwardModifiers, Open, CanSend, Mask;
    ClearedMask(s);
    if CarriesModifiers(s) {
      var g := s.grab.value;
      MaskEntries(s, g.depressed, g.latched, g.locked, g.group);
      OpenAside(ForwardModifiers(s, g.depressed, g.latched, g.locked, g.group), None, []);
    }
  }

  /** The last part of settling an owned grab. */
  function OwnedEnd(s: State): State {
    var released := ReleaseForwardedKeys(s);
    if CarriesModifiers(released) then
      var g := released.grab.value;
      ForwardModifiers(released, g.depressed, g.latched, g.locked, g.group).(carried := true)
    else ResetModifiers(released)
  }

  lemma OwnedTrace(s: State)
    requires s.owned
    ensures var r := OwnedEnd(s);
            && r.log == s.log + OwnedEntries(s)
            && Open(r) == Open(s) && CanSend(r) == CanSend(s) && r.grab.Some? == s.grab.Some?
            && (if CanSend(s) then ReleasesFor(r.track) == [] else r.track == s.track)
            && r.vk.present == s.vk.present && (r.vk.state == s.vk.state || r.vk.state == Ready)
  {
    hide ResetModifiers, ReleaseForwardedKeys, ForwardModifiers, Open, CanSend, ReleasesFor, Mask;
    ReleasedEntries(s);
    var b := ReleaseForwardedKeys(s);
    LastMask(b);
    assert CarriesModifiers(b) == Carries(s);
  }

  lemma SettleTrace(s: State)
    ensures var r := SettleWire(s);
            && r.log == s.log + SettleEntries(s)
            && Open(r) == Open(s) && CanSend(r) == CanSend(s) && r.grab.Some? == s.grab.Some?
            && (if s.owned && CanSend(s) then ReleasesFor(r.track) == [] else r.track == s.track)
            && r.vk.present == s.vk.present && (r.vk.state == s.vk.state || r.vk.state == Ready)
  {
    hide ResetModifiers, OwnedEnd, Open, CanSend, ReleasesFor, Mask, OwnedEntries;
    ClearedMask(s);
    var a := if s.carried && s.phase != Deactivating then ResetModifiers(s) else s;
    if s.owned {
      OwnedTrace(a);
      EndsSo(s);
    }
  }

  lemma EndsSo(s: State)
    ensures var a := if s.carried && s.phase != Deactivating then ResetModifiers(s) else s;
            && (SameBase(s, a) ==> OwnedEntries(a) == OwnedEntries(s))
            && (s.owned ==> SettleWire(s) == OwnedEnd(a))
  {
    hide ResetModifiers, ReleaseForwardedKeys, ForwardModifiers, Open, CanSend, ReleasesFor, Mask;
  }

  lemma DestroyTrace(s: State)
    ensures KeyboardDestroy(s).log == s.log + (if CanSend(s) then ReleasesFor(s.track) else []) + [Boundary]
    ensures CancelKeymapWait(s).log == s.log
    ensures s.vk.present || s.vk.state != NeedsKeymap ==>
              Open(CancelKeymapWait(KeyboardDestroy(s).(owned := false))) == Open(s) &&
              Open(CancelKeymapWait(s.(owned := false))) == Open(s)
  {
    hide Observed, ReleasesFor;
  }

  /** A hard reset, whole. */
  lemma ResetTrace(s: State)
    requires Shape(s)
    ensures HardReset(s).log == s.log + ResetEntries(s) && Open(HardReset(s)) == Open(s)
  {
    hide SettleWire, KeyboardDestroy, CancelKeymapWait, Open, CanSend, ReleasesFor, SettleEntries;
    SettleTrace(s);
    var settled := SettleWire(s);
    DestroyTrace(settled);
    DestroyTrace(KeyboardDestroy(settled).(owned := false));
    DestroyTrace(settled.(owned := false));
    if !s.owned {
      NoReleases(s.track);
    }
  }

  /** The rebuild and the resume after it. */
  lemma BoundaryTrace(s: State, now: nat, created: bool)
    requires Shape(s)
    ensures Rebuild(s, now, created).log == s.log + ResetEntries(s) + [Boundary]
    ensures OnResume(s).log == s.log + ResetEntries(s) + Mask(Open(s), 0, 0, 0, 0)
  {
    hide HardReset, ResetModifiers, Open, ResetEntries, Observed;
    ResetTrace(s);
    ClearedMask(HardReset(s));
  }

  // ---- every step ----

  /** Everything a step adds to the log, in order. */
  function Entries(w: World, s: State, m: Step): Log {
    if NeedsGrab(m) && s.grab.None? then []
    else match m
      case Deliver(e) =>
        if e.isPress then [Routed(e)] + PressEntries(w, s, e)
        else [Routed(e)] + ReleaseEntries(w, s, e) + [Freed(e.key)]
      case Orphan(e) => OrphanEntries(s, e)
      case SwitchEngine => [EngineSwitch]
      case Repeat(keysym, unicode, xkb, timerRead, focused) =>
        if Ticks(s, timerRead, focused) then TickEntries(w, s, TimerEvent(s.grab.value, keysym, unicode, xkb)) else []
      case ModifierUpdate(d, l, k, g, before, after) => Mask(Open(s), d, l, k, g)
      case Reset => ResetEntries(s)
      case Regrab(now, created) => ResetEntries(s) + [Boundary]
      case Resume => ResetEntries(s) + Mask(Open(s), 0, 0, 0, 0)
      case _ => []
  }

  lemma FlagTrace(w: World, s: State, m: Step)
    requires m.Keymap? || m.SetPhysical? || m.Reject? || m.EarlyExit? || m.SetPhase? || m.Dispatched? || m.Reload? ||
             m.Health?
    ensures Apply(w, s, m).log == s.log
  {
  }

  lemma ModifierTrace(s: State, d: nat, l: nat, k: nat, g: nat, before: Mods, after: Mods)
    requires s.grab.Some?
    ensures OnModifiers(s, d, l, k, g, before, after).log == s.log + Mask(Open(s), d, l, k, g)
  {
    hide ForwardModifiers;
    var noted := s.(grab := Some(GrabModifiers(s.grab.value, d, l, k, g, before, after)));
    MaskEntries(noted, d, l, k, g);
    assert Open(noted) == Open(s);
  }

  /** Every step of every kind adds exactly its entries. */
  lemma StepTrace(w: World, s: State, m: Step)
    requires Shape(s)
    ensures Apply(w, s, m).log == s.log + Entries(w, s, m)
  {
    hide ProcessPress, ProcessRelease, OrphanRelease, DispatchRepeat, OnModifiers, HardReset, Rebuild, OnResume,
         OnKeymap, RejectKey, ReleaseGrab, HealthCheck, PressEntries, ReleaseEntries, TickEntries, OrphanEntries,
         ResetEntries, Observed, Open;
    if NeedsGrab(m) && s.grab.None? {
      return;
    }
    match m
    case Deliver(e) =>
      if e.isPress {
        PressTrace(w, s, e);
      } else {
        ReleaseTrace(w, s, e);
      }
    case Orphan(e) => OrphanTrace(s, e);
    case SwitchEngine =>
    case Repeat(keysym, unicode, xkb, timerRead, focused) =>
      TickTrace(w, s, keysym, unicode, xkb, timerRead, focused);
    case ModifierUpdate(d, l, k, g, before, after) => ModifierTrace(s, d, l, k, g, before, after);
    case Reset => ResetTrace(s);
    case Regrab(now, created) => BoundaryTrace(s, now, created);
    case Resume => BoundaryTrace(s, 0, false);
    case _ => FlagTrace(w, s, m);
  }
}
