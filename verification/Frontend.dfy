/**
 The Wayland frontend as the program keeps it: records updated in place and two
 arrays indexed by key code. Each method is proved to compute the function of
 the same name in KeySpec, from the state before to the state after.
 */
module FrontendClass {
  import opened KeyTypes
  import opened KeySpec

  /** The keyboard grab record. */
  class Keyboard {
    var live: bool
    var xkbLoaded: bool
    var physical: Mods
    var depressed: nat
    var latched: nat
    var locked: nat
    var group: nat
    var sawBlocking: bool
    var repeating: bool
    var repeatKey: nat
    var repeatTime: nat
    var suppressStale: bool
    var suppressedCount: nat
    var createdAt: nat

    function Record(): Grab
      reads this
    {
      Grab(live, xkbLoaded, physical, depressed, latched, locked, group, sawBlocking,
           repeating, repeatKey, repeatTime, suppressStale, suppressedCount, createdAt)
    }

    constructor (epoch: nat)
      ensures Record() == FreshGrab(epoch)
    {
      live, xkbLoaded, physical := true, false, NO_MODS;
      depressed, latched, locked, group := 0, 0, 0, 0;
      sawBlocking, repeating, repeatKey, repeatTime := false, false, 0, 0;
      suppressStale, suppressedCount, createdAt := true, 0, epoch;
    }

    method ZeroModifiers()
      modifies this
      ensures Record() == old(Record()).(physical := NO_MODS, depressed := 0, latched := 0, locked := 0, group := 0)
    {
      physical := NO_MODS;
      depressed, latched, locked, group := 0, 0, 0, 0;
    }

    method StoreMask(d: nat, l: nat, k: nat, g: nat)
      modifies this`depressed, this`latched, this`locked, this`group
      ensures Record() == if xkbLoaded then old(Record()).(depressed := d, latched := l, locked := k, group := g)
                          else old(Record())
    {
      if xkbLoaded {
        depressed, latched, locked, group := d, l, k, g;
      }
    }

    /** A modifier update: the mask is stored only with a keymap; a changed blocking modifier
        cancels the repeat. */
    method NoteModifiers(d: nat, l: nat, k: nat, g: nat, before: Mods, after: Mods)
      modifies this
      ensures Record() == GrabModifiers(old(Record()), d, l, k, g, before, after)
    {
      var was := if xkbLoaded then before else NO_MODS;
      var cur := if xkbLoaded then after else NO_MODS;
      StoreMask(d, l, k, g);
      sawBlocking := sawBlocking || Blocking(cur);
      repeating := repeating && was.ctrl == cur.ctrl && was.alt == cur.alt && was.super == cur.super;
    }
  }

  /** Every application-held state becomes released-pending; the result counts them. */
  method MarkStates(states: array<Track>) returns (changed: nat)
    modifies states
    ensures states[..] == KeySpec.MarkReleasedPending(old(states[..]))
    ensures changed == |ReleasesFor(old(states[..]))|
  {
    changed := 0;
    for i := 0 to states.Length
      invariant states[i..] == old(states[i..])
      invariant states[..i] == KeySpec.MarkReleasedPending(old(states[..i]))
      invariant changed == |ReleasesFor(old(states[..i]))|
    {
      assert old(states[..i + 1])[..i] == old(states[..i]);
      assert states[i] == old(states[i]) by { assert states[i..][0] == old(states[i..])[0]; }
      if AppHeld(states[i]) {
        states[i] := ReleasedPending;
        changed := changed + 1;
      }
      assert states[..i + 1] == states[..i] + [states[i]];
      assert states[i + 1..] == old(states[i + 1..]) by {
        assert old(states[i + 1..]) == old(states[i..])[1..];
      }
    }
    assert states[..states.Length] == states[..];
    assert old(states[..states.Length]) == old(states[..]);
  }

  method Clear<T>(a: array<T>, zero: T)
    modifies a
    ensures a[..] == seq(a.Length, _ => zero)
  {
    forall i | 0 <= i < a.Length {
      a[i] := zero;
    }
  }

  class Frontend {
    const keyStates: array<Track>
    const keyGenerations: array<nat>
    var activeGeneration: nat
    var owned: bool
    var carried: bool
    var vk: VirtualKeyboard
    var phase: Phase
    var running: bool
    var pendingReactivation: bool
    var epoch: nat
    var shortcuts: Shortcuts
    var keyboard: Keyboard?
    var log: Log

    ghost predicate Valid()
      reads this
    {
      keyStates.Length == MAX_TRACKED_KEYS && keyGenerations.Length == MAX_TRACKED_KEYS
    }

    ghost function Abs(): State
      reads this, keyStates, keyGenerations, keyboard
    {
      State(keyStates[..], keyGenerations[..], activeGeneration, owned, carried, vk, phase, running,
            pendingReactivation, epoch, shortcuts, if keyboard == null then None else Some(keyboard.Record()), log)
    }

    constructor (vk: VirtualKeyboard, shortcuts: Shortcuts)
      requires vk.keymapGeneration == 0 && (vk.present <==> vk.state == NeedsKeymap) && vk.state != Ready
      ensures Valid() && Initial(Abs()) && keyboard == null && fresh(keyStates) && fresh(keyGenerations)
    {
      keyStates := new Track[MAX_TRACKED_KEYS](_ => Idle);
      keyGenerations := new nat[MAX_TRACKED_KEYS](_ => 0);
      activeGeneration, owned, carried := 0, false, false;
      this.vk, this.shortcuts := vk, shortcuts;
      phase, running, pendingReactivation, epoch := Inactive, true, false, 0;
      keyboard, log := null, [];
    }

    method Observe(o: Obs)
      requires Valid()
      modifies this`log
      ensures Valid() && Abs() == Emit(old(Abs()), o)
    {
      log := log + [o];
    }

    // ---- key_tracking_access.h ----

    method GetState(key: nat) returns (t: Track)
      requires Valid()
      ensures t == TrackOf(Abs(), key)
    {
      t := if key < keyStates.Length then keyStates[key] else Idle;
    }

    method SetState(key: nat, t: Track)
      requires Valid()
      modifies keyStates
      ensures Valid() && Abs() == SetTrack(old(Abs()), key, t)
    {
      if key < keyStates.Length {
        keyStates[key] := t;
      }
    }

    method SetGeneration(key: nat, g: nat)
      requires Valid()
      modifies keyGenerations
      ensures Valid() && Abs() == KeySpec.SetGeneration(old(Abs()), key, g)
    {
      if key < keyGenerations.Length {
        keyGenerations[key] := g;
      }
    }

    method ClaimCurrentGeneration(key: nat)
      requires Valid()
      modifies this`owned, keyGenerations
      ensures Valid() && Abs() == Claim(old(Abs()), key)
    {
      SetGeneration(key, activeGeneration);
      owned := true;
    }

    method ClearKey(key: nat)
      requires Valid()
      modifies keyStates, keyGenerations
      ensures Valid() && Abs() == ClearTracking(old(Abs()), key)
    {
      SetState(key, Idle);
      SetGeneration(key, 0);
    }

    method ResetTables()
      requires Valid()
      modifies keyStates, keyGenerations
      ensures Valid() && Abs() == ResetTracking(old(Abs()))
    {
      Clear(keyStates, Idle);
      Clear(keyGenerations, 0);
    }

    // ---- vk_bridge.c ----

    method SetVkState(st: VkState)
      requires Valid()
      modifies this`vk
      ensures Valid() && Abs() == VkSetState(old(Abs()), st)
    {
      var previous := vk.state;
      vk := vk.(state := st);
      if st == Ready || st == Broken || st == Absent {
        vk := vk.(deadline := 0);
      }
      if previous != st && st == Ready {
        vk := vk.(dropCount := 0);
      }
    }

    method DropGrab()
      requires Valid()
      modifies keyboard
      ensures Valid() && Abs() == ReleaseGrab(old(Abs()))
    {
      if keyboard != null {
        keyboard.live := false;
      }
    }

    method Stop()
      requires Valid()
      modifies this`running, keyboard
      ensures Valid() && Abs() == FailSafe(old(Abs())) && keyboard == old(keyboard)
    {
      if running {
        DropGrab();
        running := false;
      }
    }

    /** Whether the virtual keyboard can take an event now; if not, the event counts as dropped. */
    method VkIsReady() returns (ready: bool)
      requires Valid()
      modifies this`vk, this`running, keyboard
      ensures Valid() && Abs() == VkGate(old(Abs())) && keyboard == old(keyboard)
      ensures ready == VkUsable(old(Abs()))
    {
      if vk.present && vk.state == NeedsKeymap && activeGeneration != 0 && vk.keymapGeneration == activeGeneration {
        SetVkState(Ready);
      }
      if vk.state == Ready {
        return true;
      }
      vk := vk.(dropCount := vk.dropCount + 1);
      if vk.state == Broken {
        Stop();
      }
      return false;
    }

    method SendObs(o: Obs)
      requires Valid()
      modifies this`vk, this`running, this`log, keyboard
      ensures Valid() && Abs() == Send(old(Abs()), o) && keyboard == old(keyboard)
    {
      hide VkGate, VkUsable, Observed;
      var ready := VkIsReady();
      if ready {
        Observe(o);
      }
    }

    method ForwardKey(key: nat, pressed: bool)
      requires Valid()
      modifies this`vk, this`running, this`log, keyboard
      ensures Valid() && Abs() == KeySpec.ForwardKey(old(Abs()), key, pressed) && keyboard == old(keyboard)
    {
      hide Send;
      SendObs(WireKey(key, pressed));
    }

    method ForwardModifiers(depressed: nat, latched: nat, locked: nat, group: nat)
      requires Valid()
      modifies this`vk, this`running, this`log, keyboard
      ensures Valid() && keyboard == old(keyboard)
      ensures Abs() == KeySpec.ForwardModifiers(old(Abs()), depressed, latched, locked, group)
    {
      hide Send;
      SendObs(WireMods(depressed, latched, locked, group));
    }

    method ResetModifiers()
      requires Valid()
      modifies this`vk, this`running, this`log, this`carried, keyboard
      ensures Valid() && Abs() == KeySpec.ResetModifiers(old(Abs())) && keyboard == old(keyboard)
    {
      hide VkGate, VkUsable, Observed;
      var ready := VkIsReady();
      if !ready {
        return;
      }
      Observe(WireMods(0, 0, 0, 0));
      carried := false;
      if keyboard != null {
        keyboard.ZeroModifiers();
      }
    }

    method SendReleases()
      requires Valid()
      modifies this`log
      ensures Valid() && log == old(log) + ReleasesFor(keyStates[..])
    {
      for key := 0 to MAX_TRACKED_KEYS
        invariant Valid() && log == old(log) + ReleasesFor(keyStates[..key])
      {
        assert keyStates[..key + 1][..key] == keyStates[..key];
        if AppHeld(keyStates[key]) {
          log := log + [WireKey(key, false)];
        }
      }
      assert keyStates[..MAX_TRACKED_KEYS] == keyStates[..];
    }

    /** One wire release per application-held key, in key order; then they are marked. */
    method ReleaseForwardedKeys()
      requires Valid()
      modifies this`log, keyStates
      ensures Valid() && Abs() == KeySpec.ReleaseForwardedKeys(old(Abs())) && keyboard == old(keyboard)
    {
      hide KeySpec.MarkReleasedPending, ReleasesFor;
      if !vk.present || vk.state == Absent || vk.state == Broken {
        return;
      }
      SendReleases();
      var changed := MarkStates(keyStates);
    }

    method ExpectKeymap(now: nat)
      requires Valid()
      modifies this`vk
      ensures Valid() && Abs() == KeySpec.ExpectKeymap(old(Abs()), now)
    {
      if !vk.present {
        return;
      }
      vk := vk.(deadline := now + KEYMAP_TIMEOUT_MS);
      SetVkState(NeedsKeymap);
    }

    method CancelKeymapWait()
      requires Valid()
      modifies this`vk
      ensures Valid() && Abs() == KeySpec.CancelKeymapWait(old(Abs()))
    {
      if vk.state != NeedsKeymap {
        return;
      }
      if activeGeneration != 0 && vk.keymapGeneration == activeGeneration {
        SetVkState(Ready);
        return;
      }
      vk := vk.(deadline := 0);
    }

    method ForwardKeymap(duplicated: bool)
      requires Valid()
      modifies this`vk
      ensures Valid() && Abs() == KeySpec.ForwardKeymap(old(Abs()), duplicated)
    {
      if !vk.present {
        return;
      }
      if !duplicated {
        SetVkState(Broken);
        return;
      }
      vk := vk.(keymapGeneration := activeGeneration);
      SetVkState(Ready);
    }

    method HealthCheck(now: nat)
      requires Valid()
      modifies this`running, keyboard
      ensures Valid() && Abs() == KeySpec.HealthCheck(old(Abs()), now) && keyboard == old(keyboard)
    {
      if !running || keyboard == null || !keyboard.live || vk.state != NeedsKeymap || vk.deadline == 0 {
        return;
      }
      if now < vk.deadline {
        return;
      }
      Stop();
    }

    // ---- lifecycle.c, wl_keyboard.c, wl_input_method.c ----

    method DestroyKeyboard()
      requires Valid() && keyboard != null
      modifies this`log, this`keyboard, keyStates, keyGenerations
      ensures Valid() && Abs() == KeyboardDestroy(old(Abs())) && keyboard == null
    {
      hide KeySpec.ReleaseForwardedKeys, ResetTracking, Observed;
      ReleaseForwardedKeys();
      ResetTables();
      Observe(Boundary);
      keyboard := null;
    }

    method NextKeyGeneration()
      requires Valid()
      modifies this`activeGeneration
      ensures Valid() && activeGeneration == NextGeneration(old(activeGeneration))
    {
      activeGeneration := (activeGeneration + 1) % GENERATIONS;
      if activeGeneration == 0 {
        activeGeneration := 1;
      }
    }

    method CreateKeyboard(created: bool)
      requires Valid() && keyboard == null
      modifies this`activeGeneration, this`owned, this`log, this`keyboard, keyStates, keyGenerations
      ensures Valid() && Abs() == KeyboardCreate(old(Abs()), created)
      ensures if created then keyboard != null && fresh(keyboard) else keyboard == null
    {
      hide Observed, NextGeneration, FreshGrab;
      NextKeyGeneration();
      owned := false;
      ResetTables();
      Observe(Boundary);
      if created {
        keyboard := new Keyboard(epoch);
      }
    }

    method SettleWire()
      requires Valid()
      modifies this`vk, this`running, this`log, this`carried, keyStates, keyboard
      ensures Valid() && Abs() == KeySpec.SettleWire(old(Abs())) && keyboard == old(keyboard)
    {
      hide KeySpec.ResetModifiers, KeySpec.ReleaseForwardedKeys, KeySpec.ForwardModifiers;
      var own := owned;
      if carried && phase != Deactivating {
        ResetModifiers();
      }
      if own {
        ReleaseForwardedKeys();
        if keyboard != null && owned && phase == Deactivating &&
           (keyboard.depressed != 0 || keyboard.latched != 0 || keyboard.locked != 0) {
          ForwardModifiers(keyboard.depressed, keyboard.latched, keyboard.locked, keyboard.group);
          carried := true;
        } else {
          ResetModifiers();
        }
      }
    }

    method HardReset()
      requires Valid()
      modifies this, keyStates, keyGenerations, keyboard
      ensures Valid() && Abs() == KeySpec.HardReset(old(Abs())) && keyboard == null
    {
      hide KeySpec.SettleWire, KeyboardDestroy, KeySpec.CancelKeymapWait;
      SettleWire();
      if keyboard != null {
        DestroyKeyboard();
      }
      owned := false;
      CancelKeymapWait();
    }

    method Rebuild(now: nat, created: bool)
      requires Valid()
      modifies this, keyStates, keyGenerations, keyboard
      ensures Valid() && Abs() == KeySpec.Rebuild(old(Abs()), now, created)
      ensures keyboard == null || fresh(keyboard)
    {
      hide KeySpec.HardReset, Observed;
      var had := keyboard != null;
      HardReset();
      CreateKeyboard(created);
      if created {
        ExpectKeymap(now);
        if !had {
          keyboard.suppressStale := false;
        }
      }
    }

    method OnResume()
      requires Valid()
      modifies this, keyStates, keyGenerations, keyboard
      ensures Valid() && Abs() == KeySpec.OnResume(old(Abs())) && keyboard == null
    {
      hide KeySpec.HardReset, KeySpec.ResetModifiers, NextGeneration;
      HardReset();
      ResetModifiers();
      carried := false;
      NextKeyGeneration();
      ResetTables();
      phase := Inactive;
      pendingReactivation := false;
    }

    method OnModifiers(depressed: nat, latched: nat, locked: nat, group: nat, before: Mods, after: Mods)
      requires Valid() && keyboard != null
      modifies this`vk, this`running, this`log, keyboard
      ensures Valid() && keyboard == old(keyboard)
      ensures Abs() == KeySpec.OnModifiers(old(Abs()), depressed, latched, locked, group, before, after)
    {
      hide KeySpec.ForwardModifiers, GrabModifiers;
      keyboard.NoteModifiers(depressed, latched, locked, group, before, after);
      ForwardModifiers(depressed, latched, locked, group);
    }

    method OnKeymap(duplicated: bool, compiled: bool)
      requires Valid() && keyboard != null
      modifies this`vk, keyboard
      ensures Valid() && keyboard == old(keyboard) && Abs() == KeySpec.OnKeymap(old(Abs()), duplicated, compiled)
    {
      hide KeySpec.ForwardKeymap;
      ForwardKeymap(duplicated);
      if compiled {
        keyboard.xkbLoaded := true;
      }
    }
  }
}
