/**
 Modifiers on the wire: which mask the application is left with by a boundary.
 */
module KeyMask {
  import opened KeyTypes
  import opened KeySpec
  import opened KeyShape
  import opened KeyBoundary
  import opened KeyRuns
  import KeyTrace

  datatype Mask = Mask(depressed: nat, latched: nat, locked: nat, group: nat)

  const NO_MASK := Mask(0, 0, 0, 0)

  function MaskStep(m: Mask, o: Obs): Mask {
    match o
    case WireMods(d, l, k, g) => Mask(d, l, k, g)
    case _ => m
  }

  /** The modifier state the application was last sent. */
  ghost function LastMask(log: Log): Mask {
    if log == [] then NO_MASK else MaskStep(LastMask(log[..|log| - 1]), log[|log| - 1])
  }

  lemma MaskNext(log: Log, o: Obs)
    ensures LastMask(log + [o]) == MaskStep(LastMask(log), o)
  {
    assert (log + [o])[..|log|] == log;
  }

  lemma {:induction false} MaskReleases(log: Log, track: seq<Track>)
    ensures LastMask(log + ReleasesFor(track)) == LastMask(log)
  {
    if track == [] {
      assert log + ReleasesFor(track) == log;
    } else {
      var n := |track| - 1;
      MaskReleases(log, track[..n]);
      if AppHeld(track[n]) {
        MaskNext(log + ReleasesFor(track[..n]), WireKey(n, false));
        assert log + ReleasesFor(track) == log + ReleasesFor(track[..n]) + [WireKey(n, false)];
      } else {
        assert ReleasesFor(track) == ReleasesFor(track[..n]);
      }
    }
  }

  // ---- a hard reset ----

  /** The mask a hard reset leaves with the application. */
  ghost function MaskAfter(s: State): Mask {
    if !VkUsable(s) then LastMask(s.log)
    else if s.owned then
      if CarriesModifiers(s) then
        var g := s.grab.value;
        Mask(g.depressed, g.latched, g.locked, g.group)
      else NO_MASK
    else if s.carried && s.phase != Deactivating then NO_MASK
    else LastMask(s.log)
  }

  lemma MaskSent(log: Log, open_: bool, m: Mask)
    ensures LastMask(log + KeyTrace.Mask(open_, m.depressed, m.latched, m.locked, m.group)) ==
            if open_ then m else LastMask(log)
  {
    MaskNext(log, WireMods(m.depressed, m.latched, m.locked, m.group));
    assert log + [] == log;
  }

  /** Through the entries of an owned grab's end. */
  lemma OwnedMask(log: Log, s: State)
    ensures LastMask(log + KeyTrace.OwnedEntries(s)) ==
            if !VkUsable(s) then LastMask(log) else if CarriesModifiers(s) then GrabMask(s.grab.value) else NO_MASK
  {
    hide LastMask, ReleasesFor, KeyTrace.Mask, KeyTrace.Open, VkUsable;
    var live := KeyTrace.Open(s);
    var keys := if KeyTrace.CanSend(s) then ReleasesFor(s.track) else [];
    var last := if CarriesModifiers(s) then GrabMask(s.grab.value) else NO_MASK;
    KeyTrace.OpenAside(s, None, []);
    MaskReleases(log, s.track);
    assert log + [] == log;
    MaskSent(log + keys, live, last);
    var masks := KeyTrace.Mask(live, last.depressed, last.latched, last.locked, last.group);
    assert log + KeyTrace.OwnedEntries(s) == log + keys + masks;
  }

  /** Through the entries of a hard reset. */
  lemma ResetEntriesMask(s: State)
    ensures LastMask(s.log + KeyTrace.ResetEntries(s)) == MaskAfter(s)
  {
    hide LastMask, KeyTrace.Mask, KeyTrace.Open, KeyTrace.OwnedEntries, VkUsable;
    KeyTrace.OpenAside(s, None, []);
    var undo := if s.carried && s.phase != Deactivating then KeyTrace.Mask(KeyTrace.Open(s), 0, 0, 0, 0) else [];
    var owned := if s.owned then KeyTrace.OwnedEntries(s) else [];
    var log := s.log + undo;
    MaskSent(s.log, KeyTrace.Open(s), NO_MASK);
    OwnedMask(log, s);
    assert s.log + [] == s.log && log + [] == log && log + owned + [] == log + owned;
    MaskNext(log + owned, Boundary);
    assert s.log + KeyTrace.ResetEntries(s) == log + owned + if s.grab.Some? then [Boundary] else [];
  }

  function GrabMask(g: Grab): Mask { Mask(g.depressed, g.latched, g.locked, g.group) }

  /** A hard reset, exactly: which mask it leaves, and that it does not change whether the keyboard is
      usable. */
  lemma HardResetMask(s: State)
    requires Shape(s)
    ensures LastMask(HardReset(s).log) == MaskAfter(s) && VkUsable(HardReset(s)) == VkUsable(s)
  {
    hide HardReset, LastMask, MaskAfter, KeyTrace.ResetEntries;
    KeyTrace.ResetTrace(s);
    ResetEntriesMask(s);
  }

  /** When a hard reset leaves no modifier behind. With an unusable keyboard: only if none was there. In
      a grab that routed a key: unless it deliberately carries the modifiers into a deactivation. In a
      grab that routed none: only if none was there, or an earlier carry is undone. */
  lemma NoMaskAfterReset(s: State)
    requires Shape(s)
    ensures LastMask(HardReset(s).log) == NO_MASK <==>
            if !VkUsable(s) then LastMask(s.log) == NO_MASK
            else if s.owned then !CarriesModifiers(s)
            else LastMask(s.log) == NO_MASK || (s.carried && s.phase != Deactivating)
  {
    hide VkUsable, LastMask, HardReset;
    HardResetMask(s);
  }

  lemma RebuildMask(s: State, now: nat, created: bool)
    requires Shape(s)
    ensures LastMask(Rebuild(s, now, created).log) == MaskAfter(s)
  {
    hide HardReset, LastMask, MaskAfter, Observed;
    HardResetMask(s);
    MaskNext(HardReset(s).log, Boundary);
  }

  /** A resume leaves no modifier behind exactly if the keyboard is usable or none was there. */
  lemma NoMaskAfterResume(s: State)
    requires Shape(s)
    ensures LastMask(OnResume(s).log) == (if VkUsable(s) then NO_MASK else LastMask(s.log))
  {
    hide HardReset, OnResume, VkUsable, KeyTrace.Open, LastMask, KeyTrace.ResetEntries;
    assert VkUsable(s) == KeyTrace.Open(s) by { KeyTrace.OpenAside(s, None, []); }
    HardResetMask(s);
    KeyTrace.ResetTrace(s);
    KeyTrace.BoundaryTrace(s, 0, false);
    MaskSent(HardReset(s).log, KeyTrace.Open(s), NO_MASK);
  }

  const CTRL_MASK: nat := 4

  /** A concrete loss: Ctrl goes down in a grab that then ends before any key was routed. The keyboard is
      ready, and the application is left with Ctrl held. */
  lemma MaskStranded(w: World, s: State)
    requires Initial(s) && s.vk.present
    ensures var ms := [Regrab(0, true), Keymap(true, true),
                       ModifierUpdate(CTRL_MASK, 0, 0, 0, NO_MODS, NO_MODS.(ctrl := true)), Reset];
            LastMask(Run(w, s, ms).log) == Mask(CTRL_MASK, 0, 0, 0)
  {
    hide Rebuild, OnKeymap, OnModifiers, HardReset, LastMask, Shape, VkUsable, Run;
    var ms := [Regrab(0, true), Keymap(true, true),
               ModifierUpdate(CTRL_MASK, 0, 0, 0, NO_MODS, NO_MODS.(ctrl := true)), Reset];
    InitialShape(s);
    RebuildShape(s, 0, true);
    var a := Rebuild(s, 0, true);
    KeymapShape(a, true, true);
    var b := OnKeymap(a, true, true);
    OpensReady(s);
    ModifiersShape(b, CTRL_MASK, 0, 0, 0, NO_MODS, NO_MODS.(ctrl := true));
    var c := OnModifiers(b, CTRL_MASK, 0, 0, 0, NO_MODS, NO_MODS.(ctrl := true));
    PressedMask(b, NO_MODS, NO_MODS.(ctrl := true));
    HardResetMask(c);
    RunFour(w, s, ms);
  }

  lemma OpensReady(s: State)
    requires Initial(s) && s.vk.present
    ensures var b := OnKeymap(Rebuild(s, 0, true), true, true);
            b.grab.Some? && VkUsable(b) && !b.owned && !b.carried
  {
    hide Observed;
  }

  lemma PressedMask(s: State, before: Mods, after: Mods)
    requires s.grab.Some? && VkUsable(s) && !s.owned && !s.carried
    ensures var r := OnModifiers(s, CTRL_MASK, 0, 0, 0, before, after);
            && LastMask(r.log) == Mask(CTRL_MASK, 0, 0, 0) && VkUsable(r) && !r.owned && !r.carried && r.grab.Some?
  {
    hide Send, LastMask, AppDown, Entitled, RouterHeld, KeyWire, Paired;
    var g := GrabModifiers(s.grab.value, CTRL_MASK, 0, 0, 0, before, after);
    SendFrame(s.(grab := Some(g)), WireMods(CTRL_MASK, 0, 0, 0));
    MaskNext(s.log, WireMods(CTRL_MASK, 0, 0, 0));
  }
}
