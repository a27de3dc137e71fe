# Typio: a verified model of the key path, the IPC byte layer and the small algorithms

Typio is an input-method daemon for Wayland. It grabs the keyboard, gives key events to an engine
and hands what the engine does not want to the application through a virtual keyboard. This project
models that daemon in Dafny and proves what its parts are for:

* **The key path** (`KeyTypes`, `KeySpec`, `KeyShape`, `KeySafety`, `KeyBoundary`, `KeyRuns`, `KeyFence`,
  `KeyStartup`, `ArbiterSpec`, `KeySession`, `KeyPhysical`, `KeyStranded`, `KeyMask`, `KeyTrace`, `KeyState`,
  `KeyDispatch`, `KeyVoice`, `KeyHandshake`). Functions on values give one step each of the arbiter, the
  router with its eight tracking states, per-key generations and startup guard, the virtual keyboard's
  keymap handshake, the repeat timer, hard reset, grab rebuild and resume. The environment is a record of
  arbitrary functions of the whole history (`KeySpec.World`): what the engine answers, whether candidates
  are shown, whether a key repeats. Time, focus, modifiers and keymap results are inputs of the steps.
  A log records everything observable; the key sets the theorems speak of (keys the application sees as
  down, keys the engine may be given a release for, keys held at the router) are functions of the log alone.
* **The key path as tables** (`KeyTrace`, `KeyState`, `KeyDispatch`, the table part of `ArbiterSpec`): for every
  kind of step, which entries it adds to the log, where it leaves its key, and the rest of the state. The
  tables are written in key symbols, modifier bits and numbers and use none of the router's own tests, so
  they are an independent account of each decision.
* **The same operations as the program keeps them** (`FrontendClass`, `KeyRouter`, `KeyArbiterClass`):
  classes with the source's fields, arrays and loops. Every method ends in the state that its function
  computes from the old one, so the theorems about runs are about these methods.
* **The IPC byte layer** (`Framing`, `UdsClient`, `JsonText`, `JsonParams`, `TipJson`): a stream decoder and a
  client with fixed buffers, a growable JSON builder and hand-written scanners.
* **Smaller algorithms** (`Utf8`, `NotifierSpec`, `NotifierClass`, `Reconcile`, `Resume`, `ShortcutSpec`,
  `ShortcutText`, `RecentPair`).

`dafny verify dfyconfig.toml` checks everything.

## What the proofs show about the code

The first ones are promises kept; the others are promises the code breaks, each with the exact condition.

* On any run, the application's keys are always tracked as held if and only if no step is one of an explicit
  list of uncovering steps (`KeyRuns.RunCovered`). If presses and releases alternate at the router the list
  shrinks to four cases (`KeyRuns.NoStuckKey`): a release while the virtual keyboard is not usable, the
  release of a forwarded navigation key kept for the candidates, a chord consumed while the virtual keyboard
  is not usable, and a boundary while it is absent or broken.
* From the raw key events to the application, with no assumption on the session: each tracked key the
  application sees as down is physically held since the last boundary, or has its release waiting in the
  arbiter, if and only if no input is a stranding one (`KeyPhysical.PhysicallyHeld`). The stranding inputs are
  named by what can be seen before them: a release ignored or rejected in front of the arbiter, lost at a full
  buffer, swallowed with a chord that does not settle its key, or delivered and not sent; a press replayed
  after its key was let go unnoticed; a boundary that does not release a down key; and a tick of the repeat
  timer on a key that is no longer held.
* Which presses the engine is given, exactly: one each, unless the key is latched, inside the startup window,
  bound to the emergency exit or to push-to-talk, a shortcut for the application, or passed as text
  (`KeyTrace.EngineAsked`).
* A voice session is open for exactly the keys tracked as push-to-talk, over any run, if and only if no step is
  a parting one (`KeyVoice.VoiceFollowsKeys`). The parting steps leave a session open that no release will
  stop: a boundary while a key talks, a press that takes the talking key elsewhere, a repeat tick on it that the
  engine declines, and a push-to-talk binding on a key at or above 512.
* A grab whose keymap does not come stops the daemon from 1500 ms after the last grab was made, and not before
  (`KeyHandshake.HandshakeTimeout`).
* No release reaches the engine without its press; hard reset, rebuild and resume are fences
  (`KeyRuns.EnginePairing`, `KeyFence.BoundaryFence`), at any generation number, because every boundary
  blanks the generation table.
* The documentation of the RELEASED_PENDING state (docs/dev/maintenance.md:61,
  daemon/wayland/wl_frontend_internal.h:100) says the physical release that follows a boundary release
  is consumed. In the code `typio_wl_keyboard_destroy` blanks the table at the same boundary, so the mark
  never survives one. A key is released a second time exactly when the orphan policy claims it and the
  virtual keyboard is usable (`KeyFence.SecondRelease`); directly after a rebuild that means every key but a
  modifier (`KeyFence.ReleasedTwice`, with a concrete session in `KeyFence.ReturnReleasedTwice`).
* The arbiter's release path pushes without an overflow check, so a release that meets a full buffer
  vanishes; nothing else is ever lost, and no press is (`ArbiterSpec.ConservedExactly`, `ArbiterSpec.PressesConserved`,
  `ArbiterSpec.ReleasesFill`).
* A completed chord settles only keys tracked FORWARDED. The release of a letter or an application shortcut
  that falls inside the chord is swallowed with it and the key stays down (`KeySession.SwallowedLetterStaysDown`;
  `KeyStranded.LetterStranded` is a session with the default Ctrl+Shift chord). A forwarded key that is settled
  while it auto-repeats keeps its timer and is pressed again with nobody holding it
  (`KeySession.SettledKeyRepeats`; `KeyStranded.RepeatStranded` is a session with Shift alone as the chord).
  Tracked and repeating keys stay held at the router exactly unless that happens (`KeyRuns.RunHeld`).
* Keys at or above 512 are in no table; their release reaches the application only as an orphan
  (`KeyRuns.UntrackedKeyStuck`, with a session in `KeyStranded.MediaStranded`).
* Frames up to 1 MiB are allowed by the length check, but a sequence of frames can get through the read buffer
  if and only if none of them has more than 8188 bytes (`Framing.DeliverableExactly`). A larger one fills the
  buffer, the next recv is offered no room and returns zero, and that closes the client
  (`Framing.LargeFrameCloses`).
* The params scanner takes a quote after a backslash as escaped. It cuts an object right whenever no string
  body ends in a backslash, and for strings without inner quotes only then (`JsonParams.ExtractsObjectExactly`).
* A notification key of 96 bytes or more is stored cut to 95. It is never rate-limited
  (`NotifierSpec.LongKeyNeverRefused`), and it stands in for the 95-byte key it begins with, which can then be
  refused without ever having been sent (`NotifierSpec.PrefixRefused`). For every key of at most 95 bytes, on
  any run, the limiter is exact whenever no longer key among the last sixteen insertions begins with it
  (`NotifierSpec.RefusedExactly`; keys of at most 94 bytes always), and a key that is not itself among them can
  be refused exactly when one does (`NotifierSpec.ClashRefuses`).
* A response larger than the 64 KiB write buffer, though within the 1 MiB limit, always closes its client
  (`UdsClient.Client.SendFrame`).
* A hard reset does not always leave the application without modifiers. In a grab that routed no key it leaves
  the last forwarded mask where it is, unless an earlier carry is undone (`KeyMask.NoMaskAfterReset`, with a
  concrete run in `KeyMask.MaskStranded`). A resume clears it exactly if the keyboard is usable
  (`KeyMask.NoMaskAfterResume`).
* A repair ends the disagreement it answers only under an exact condition (`Reconcile.RepairConverges`). A
  focused frontend declared inactive while an engine wants a grab does not meet it, and as long as every tick
  disagrees the repairs recur, each at the first tick past the threshold after the last one
  (`Reconcile.RepairsRecur`).

## Model

Lines are those of the repository's files; a range covers the code the member models.

| member | source | states |
|---|---|---|
| KeyShape.RunShape | daemon/wayland/key_tracking_access.h:33-46 | Every state of every run is well formed: each generation is zero or the active one, no key is left half released, an unowned generation has a blank table, a repeating grab is owned |
| KeyShape.StepShape | daemon/wayland/lifecycle.c:47-176 | The well-formedness is kept by every single step, whatever the environment answers |
| KeyShape.NoSilentWait | daemon/wayland/vk_bridge.c:328-351 | In every reachable state a live grab waiting for its keymap has a deadline, and the health check stops the daemon exactly from then on |
| KeySafety.PressSafe | daemon/wayland/key_route.c:302-545 | A press keeps coverage except exactly when it re-decides a key the application holds into a suppressed or voice key; it keeps the engine and held-key invariants |
| KeySafety.ReleaseSafe | daemon/wayland/key_route.c:547-808 | A release keeps coverage except exactly when a key the application holds is settled without a wire release; the engine is given only releases it is entitled to |
| KeySafety.PressEffect | daemon/wayland/key_route.c:302-545 | Every press in the views of the log: what it adds to the keys down, entitled and held; a key it puts on the wire is then tracked as held; no other key is touched |
| KeySafety.ReleaseEffect | daemon/wayland/key_route.c:547-808 | Every release in the views of the log: it takes its key off the wire exactly when it is sent, leaves it idle with generation zero, and is given to the engine exactly if forwarded or owned; no other key is touched |
| KeyBoundary.ReleasesForOnce | daemon/wayland/vk_bridge.c:440-455 | The boundary pass sends one release for each application-held key and nothing else |
| KeyBoundary.ReleasesViews | daemon/wayland/vk_bridge.c:440-455 | The pass removes exactly the held keys from what the application sees as down and changes no other view of the history |
| KeyBoundary.HardResetBoundary | daemon/wayland/lifecycle.c:47-113 | In every reachable state a hard reset sends the boundary releases once although two passes run, blanks the table, drops the grab and empties what the engine may still be given |
| KeyBoundary.RebuildBoundary | daemon/wayland/wl_input_method.c:119-165 | A rebuilt grab starts from the same complete boundary under the next generation |
| KeyBoundary.ResumeBoundary | daemon/wayland/lifecycle.c:115-176 | A resume is the same boundary and changes the generation to a different nonzero one, also when the 32-bit counter wraps |
| KeyBoundary.BoundaryReleasesOnce | daemon/wayland/vk_bridge.c:426-464 | With the virtual keyboard able to send: one release on the wire per application-held key, none for any other, none of them down or held afterwards |
| KeyBoundary.ReleaseAfterBoundary | daemon/wayland/key_route.c:672-740 | The release of a key the grab never saw pressed goes over the wire exactly when the cleanup policy wants it and the keyboard is usable, and never to the engine |
| KeyBoundary.PendingReleaseConsumed | daemon/wayland/key_route.c:563-571 | Where a released-pending mark stands, the release is consumed: nothing is sent and the key becomes idle. No run reaches such a state between steps (KeyShape.RunShape) |
| KeyRuns.StepSafe | daemon/wayland/key_route.c:302-808 | One step of any kind: coverage survives if and only if the step is not an uncovering one, the held-key invariant if and only if it does not settle a repeating key; engine pairing survives always |
| KeyRuns.RunInvariants | daemon/wayland/key_tracking_access.h:33-46 | Shape, quiescence without a grab and engine pairing hold at every point of every run |
| KeyRuns.RunCovered | daemon/wayland/vk_bridge.c:353-382 | Over any run at all, keys the application sees as down are always tracked as held if and only if no step uncovers one |
| KeyRuns.ExceptionsOnly | daemon/wayland/key_route.c:795-804 | On alternating presses and releases the uncovering steps are exactly four: an unusable keyboard at a release, candidate navigation, an unusable keyboard at a chord, a boundary that cannot send |
| KeyRuns.NoStuckKey | daemon/wayland/key_route.c:302-808 | No stuck key: on alternating runs coverage holds throughout if and only if none of those four is taken |
| KeyRuns.RunHeld | daemon/wayland/key_arbiter.c:75-97 | On any run every tracked or repeating key stays held at the router if and only if no chord settles the key that is auto-repeating |
| KeyRuns.RunText | daemon/wayland/key_route.c:469-487 | On any run a key passed on as plain text is held at the router |
| KeyRuns.DownHeldAtRouter | daemon/wayland/key_route.c:302-808 | With coverage throughout and no such chord, each key the application sees as down is held at the router: pressed there and its release not yet accepted |
| KeyRuns.UntrackedKeyStuck | daemon/wayland/key_tracking_access.h:11-20 | A key outside the table stays down after its release exactly unless the orphan cleanup forwards it |
| KeyRuns.TickEffect | daemon/wayland/keyboard_repeat.c:156-248 | A dispatched tick in the views of the log: it adds exactly its own key, exactly when it goes over the wire |
| KeyRuns.RepeatCovered | daemon/wayland/keyboard_repeat.c:156-248 | A repeat tick keeps coverage, held keys and engine pairing, although it may turn its key into a forwarded one |
| KeyRuns.OrphanSafe | daemon/wayland/key_arbiter.c:75-97 | Settling a key of a consumed chord uncovers it exactly when the application holds it and the keyboard is not usable, and breaks the held-key invariant exactly when that key is repeating |
| KeyRuns.EntitledMeans | daemon/wayland/key_route.c:668-805 | What entitlement is in terms of the history: an engine press of the key (or an emergency exit) with no settled release and no boundary since |
| KeyRuns.EnginePairing | daemon/wayland/key_route.c:668-805 | On every run, each release handed to the engine follows such a press |
| KeyTrace.PressTrace | daemon/wayland/key_route.c:302-545 | Every press, whole: all it adds to the log, in order, and where it leaves its key, by a table of decisions in key symbols, bits and numbers |
| KeyTrace.EngineAsked | daemon/wayland/key_route.c:473-545 | Which presses the engine is given: exactly those not latched, outside the startup window, not bound to the emergency exit or to push-to-talk, neither application shortcut nor text; each once |
| KeyTrace.ReleaseTrace | daemon/wayland/key_route.c:547-808 | Every release, whole: all it adds to the log, in order; its key is idle afterwards and no other changes |
| KeyTrace.TickTrace | daemon/wayland/keyboard_repeat.c:120-250 | A timer tick, whole: what it sends or asks and where it leaves its key, for every tracking state |
| KeyTrace.OrphanTrace | daemon/wayland/key_arbiter.c:75-97 | One release of a swallowed chord, whole |
| KeyTrace.ResetTrace | daemon/wayland/lifecycle.c:47-113 | A hard reset, whole: an earlier carry undone, then in an owned grab the held keys released and the modifiers carried or cleared, then the end of the grab |
| KeyTrace.BoundaryTrace | daemon/wayland/lifecycle.c:115-176 | What a rebuild and a resume add after the reset |
| KeyTrace.StepTrace | daemon/wayland/wl_keyboard.c:151-383 | Every step of every kind adds exactly its entries to the log |
| KeyState.PressState | daemon/wayland/key_route.c:302-545 | The rest of the state after a press: generations, ownership, guard counter and flag, timer, the attempt to send and its fail-safe |
| KeyState.ReleaseState | daemon/wayland/key_route.c:547-808 | The rest of the state after a release, in every tracking state |
| KeyState.TickState | daemon/wayland/keyboard_repeat.c:120-250 | The rest of the state after a tick, and exactly when the timer is stopped by it |
| KeyState.OrphanState | daemon/wayland/key_arbiter.c:75-97 | The rest of the state after one release of a swallowed chord |
| KeyState.ModifierState | daemon/wayland/wl_keyboard.c:151-171 | A modifier update: the stored mask, the memory of a blocking modifier, and the timer stopped exactly by a change of Ctrl, Alt or Super |
| KeyState.KeymapState | daemon/wayland/vk_bridge.c:490-517 | A keymap: ready under the active generation, or broken; no deadline left in either case |
| KeyState.ClearedTried | daemon/wayland/vk_bridge.c:466-488 | Clearing the modifiers: zero masks in the grab and nothing carried any more, exactly behind an open keyboard |
| KeyState.ResetState | daemon/wayland/lifecycle.c:47-113 | The state at the end of a grab, field by field |
| KeyState.RebuildState | daemon/wayland/wl_keyboard.c:196-241 | A new grab, field by field: the next generation, a fresh record that suppresses stale keys only if there was a grab, a keymap waited for until 1500 ms from now |
| KeyState.ResumeState | daemon/wayland/lifecycle.c:115-176 | The state after a resume, field by field |
| KeyState.FlagState | daemon/wayland/wl_keyboard.c:301-357 | Rejected keys, early exit and health check: what stops the daemon and the timer, exactly |
| KeyDispatch.KeyTable | daemon/wayland/wl_keyboard.c:301-383 | One raw key event from end to end: dropped, early exit, rejected, or noted and then delivered, held back, replayed or swallowed by the arbiter, in key symbols and bits |
| KeyTypes.ModsTable | daemon/wayland/modifier_policy.c:43-56 | The modifiers the router is told, bit by bit, for owned and unowned grabs and for the key's own modifier |
| KeyTypes.WithKeyTable | daemon/wayland/modifier_policy.c:11-41 | What one key does to the physical modifiers, bit by bit |
| KeyVoice.PressRecords | daemon/wayland/key_route.c:413-437 | A press starts the voice session exactly when it is decided as push-to-talk with voice available, and is then tracked so if the table has room |
| KeyVoice.ReleaseRecords | daemon/wayland/key_route.c:612-625 | The release of a key tracked as push-to-talk stops the session exactly once if there is voice, and no other release does |
| KeyVoice.StepInStep | daemon/wayland/key_route.c:612-625 | One step of any kind: open sessions and tracking table stay in step if and only if the step is not a parting one |
| KeyVoice.VoiceFollowsKeys | daemon/wayland/key_route.c:413-437 | Over any run: the session is open for exactly the keys tracked as push-to-talk, throughout, if and only if no step parts them |
| KeyHandshake.HandshakeTimeout | daemon/wayland/vk_bridge.c:328-351 | Over any run: a health check stops the running daemon if and only if a live grab still waits for its keymap at least 1500 ms after the last grab was made |
| KeyFence.RunExtends | daemon/wayland/lifecycle.c:115-176 | The observations of an earlier moment are a prefix of those of any later one |
| KeyFence.BoundaryFence | daemon/wayland/lifecycle.c:143-156 | After a hard reset, rebuild or resume no key pressed before it reaches the engine on release, whatever the generation counter does |
| KeyFence.SecondRelease | daemon/wayland/wl_keyboard.c:243-261 | After any boundary, whether reset, rebuild or resume, how often a key is released on the wire when the physical release follows under a later grab: twice exactly when the orphan policy claims it and the keyboard is usable |
| KeyFence.ReleasedTwice | daemon/wayland/key_route.c:672-708 | Right after a completed rebuild every application-held key except a modifier is released a second time |
| KeyFence.ReturnReleasedTwice | daemon/wayland/wl_keyboard.c:243-261 | A concrete session in which one press of Return gets two releases |
| KeyMask.HardResetMask | daemon/wayland/lifecycle.c:47-113 | Which modifier mask a hard reset leaves with the application, in every case |
| KeyMask.NoMaskAfterReset | daemon/wayland/lifecycle.c:71-100 | When it leaves none, exactly: by usability, ownership of the grab, carrying and what was there before |
| KeyMask.RebuildMask | daemon/wayland/wl_input_method.c:119-165 | A rebuild leaves the mask its hard reset leaves |
| KeyMask.NoMaskAfterResume | daemon/wayland/lifecycle.c:115-142 | A resume leaves none exactly if the keyboard is usable, else whatever was there |
| KeyMask.MaskStranded | daemon/wayland/lifecycle.c:71-100 | A concrete run after whose hard reset the application still has Ctrl |
| KeyStartup.PressSuppressed | daemon/wayland/key_route.c:379-390 | A suppressed press counts once and adds exactly its key, if the table has room for it |
| KeyStartup.StepCounts | daemon/wayland/key_route.c:573-589 | Within a grab the counter moves with the set of suppressed keys in every step, except for suppressed keys outside the table; the guard flag is never raised again |
| KeyStartup.SuppressedCount | daemon/wayland/key_route.c:364-390 | On every run the counter is the number of suppressed keys plus the suppressed presses of untracked keys in this grab |
| KeyStartup.PassedOnce | daemon/wayland/startup_guard.c:8-28 | Once one press has passed the guard, no later press of the same grab is suppressed |
| ArbiterSpec.Conservation | daemon/wayland/key_arbiter.c:29-64 | On every run, what was delivered or swallowed followed by the buffer is the input without the lost releases, in order; the buffer holds at most eight and none when idle |
| ArbiterSpec.ConservedExactly | daemon/wayland/key_arbiter.c:183-268 | It is the whole input if and only if no release arrived at a full buffer |
| ArbiterSpec.PressesConserved | daemon/wayland/key_arbiter.c:201-223 | No press is ever lost, duplicated or reordered |
| ArbiterSpec.BufferIsClean | daemon/wayland/key_arbiter.c:125-169 | While buffering: the chord began with all its modifiers held, every press is a chord key, no arrival saw a foreign modifier, and the buffer is its first eight events |
| ArbiterSpec.CleanChord | daemon/wayland/key_arbiter.c:255-265 | A swallowed chord is clean from its first press to a last release with none of the binding's modifiers held, for any binding, in bits |
| ArbiterSpec.StepTable | daemon/wayland/key_arbiter.c:125-169 | For any binding: when an idle arbiter opens, when an open one gives up, holds back or swallows, in key symbols and modifier bits |
| ArbiterSpec.LetterReleaseSwallowed | daemon/wayland/key_arbiter.c:244-265 | A concrete session in which a letter released inside a chord never reaches the router |
| ArbiterSpec.ReleasesFill | daemon/wayland/key_arbiter.c:255-256 | Letting go of letters held before the chord fills the buffer, since only a press checks for overflow |
| ArbiterSpec.EighthReleaseLost | daemon/wayland/key_arbiter.c:32-33 | Eight letters held before Ctrl and Shift: the release of the eighth is lost |
| KeySession.SessionIsRun | daemon/wayland/wl_keyboard.c:301-383 | Every session of raw key events and other inputs is a run of the key machine, with a well-formed arbiter |
| KeySession.SessionNoStuckKey | daemon/wayland/wl_keyboard.c:301-383 | The no-stuck-key result for whole sessions through guard, arbiter and router |
| KeySession.SettledMeans | daemon/wayland/key_arbiter.c:79-90 | Which keys a chord settles: exactly the forwarded ones with a release inside it, each once |
| KeySession.SwallowSettles | daemon/wayland/key_arbiter.c:75-118 | Each of them gets exactly one wire release if the keyboard is usable and ends idle with generation zero; nothing else is sent and no other key moves |
| KeySession.SwallowedLetterStaysDown | daemon/wayland/key_arbiter.c:84-90 | A key held as text or shortcut stays down when its release is inside a chord |
| KeySession.SettledKeyRepeats | daemon/wayland/key_arbiter.c:92-96 | A settled key whose repeat timer runs is pressed again in the application although it is not held at the router |
| KeyPhysical.QueuePhysical | daemon/wayland/key_arbiter.c:46-64 | A replay leaves every down key held or released later exactly if no single delivery strands one |
| KeyPhysical.SwallowedDown | daemon/wayland/key_arbiter.c:75-118 | What a swallowed chord leaves down: everything but the forwarded keys released inside it on a usable keyboard |
| KeyPhysical.BoundaryPhysical | daemon/wayland/lifecycle.c:47-113 | A boundary leaves no key down exactly when each down key is application-held and the keyboard can send releases |
| KeyPhysical.StepPhysical | daemon/wayland/wl_keyboard.c:301-383 | One input of any kind: down keys stay physically held, or their release waiting, if and only if the input is not a stranding one |
| KeyPhysical.PhysicallyHeld | daemon/wayland/wl_keyboard.c:301-383 | Over every session from any initial state, with no assumption: down keys are physically held or their release waits at every moment if and only if no input strands one |
| KeyStranded.LetterStranded | daemon/wayland/key_arbiter.c:244-265 | A session with the default chord after which the application keeps a letter although every key has been let go |
| KeyStranded.RepeatStranded | daemon/wayland/keyboard_repeat.c:211-248 | A session with a Shift-only chord after which a settled letter is pressed again by its timer although every key has been let go |
| KeyStranded.MediaStranded | daemon/wayland/key_tracking_access.h:11-20 | A session after which a key at or above 512 stays down although it has been let go |
| FrontendClass.MarkStates | daemon/wayland/key_tracking.c:25-43 | The marking loop turns exactly the application-held states and returns how many releases the pass sent |
| FrontendClass.Frontend.constructor | daemon/wayland/wl_frontend.c:312-326 | A bound frontend is an initial state of the key machine |
| FrontendClass.Frontend.ClaimCurrentGeneration | daemon/wayland/key_tracking_access.h:33-36 | Computes the claim of a key and nothing else |
| FrontendClass.Frontend.ClearKey | daemon/wayland/key_tracking_access.h:38-41 | Computes the clearing of a key and nothing else |
| FrontendClass.Frontend.SetVkState | daemon/wayland/vk_bridge.c:152-198 | Computes the state change with its deadline and drop counter |
| FrontendClass.Frontend.Stop | daemon/wayland/vk_bridge.c:243-292 | Computes the fail-safe: the grab is released and the daemon stops, once |
| FrontendClass.Frontend.VkIsReady | daemon/wayland/vk_bridge.c:294-326 | The gate is open exactly when the keyboard is ready or holds the current keymap; otherwise the event is counted as dropped |
| FrontendClass.Frontend.ForwardKey | daemon/wayland/vk_bridge.c:353-382 | One wire event exactly when the gate is open |
| FrontendClass.Frontend.ForwardModifiers | daemon/wayland/vk_bridge.c:384-424 | One modifier update exactly when the gate is open |
| FrontendClass.Frontend.ReleaseForwardedKeys | daemon/wayland/vk_bridge.c:426-464 | The two loops send the boundary releases and mark the same keys |
| FrontendClass.Frontend.ResetModifiers | daemon/wayland/vk_bridge.c:466-488 | Zeroes the modifiers on the wire and in the grab, only behind the gate |
| FrontendClass.Frontend.ExpectKeymap | daemon/wayland/vk_bridge.c:200-218 | Starts the handshake, whose deadline over runs is KeyHandshake.HandshakeTimeout |
| FrontendClass.Frontend.CancelKeymapWait | daemon/wayland/vk_bridge.c:220-241 | Ends it as ready only with the current keymap |
| FrontendClass.Frontend.ForwardKeymap | daemon/wayland/vk_bridge.c:490-517 | Ready under the active generation, or broken |
| FrontendClass.Frontend.HealthCheck | daemon/wayland/vk_bridge.c:328-351 | Stops a live grab whose handshake is overdue |
| FrontendClass.Frontend.DestroyKeyboard | daemon/wayland/wl_keyboard.c:243-261 | Release pass, blank table, no grab |
| FrontendClass.Frontend.CreateKeyboard | daemon/wayland/wl_keyboard.c:196-241 | Next generation (never zero), blank table, and a fresh guarded grab if creation succeeds |
| FrontendClass.Frontend.HardReset | daemon/wayland/lifecycle.c:47-113 | Computes the hard reset that KeyBoundary.HardResetBoundary is about |
| FrontendClass.Frontend.Rebuild | daemon/wayland/wl_input_method.c:119-165 | Computes the rebuild; stale keys are suppressed only if a grab existed |
| FrontendClass.Frontend.OnResume | daemon/wayland/lifecycle.c:115-176 | Computes the resume that KeyBoundary.ResumeBoundary is about |
| FrontendClass.Keyboard.NoteModifiers | daemon/wayland/wl_keyboard.c:151-171 | Stores a modifier update, remembers a blocking modifier and cancels the repeat when one changed |
| KeyRouter.PassedPress | daemon/wayland/key_route.c:392-545 | The decision of a press that passed the guard; KeyTrace.EngineAsked says which of them the engine sees |
| KeyRouter.FreshPress | daemon/wayland/key_route.c:362-390 | Claim, guard flag, suppression, then the decision |
| KeyRouter.RoutePressEvent | daemon/wayland/key_route.c:302-545 | A press in any tracking state |
| KeyRouter.ReleaseBody | daemon/wayland/key_route.c:547-808 | A release in any tracking state, as KeyTrace.ReleaseTrace has it; the end of a voice session in KeyVoice.ReleaseRecords |
| KeyRouter.ReleaseIdle | daemon/wayland/key_route.c:672-777 | The release of an idle key, owned or orphaned |
| KeyRouter.ReleaseForwarded | daemon/wayland/key_route.c:655-661 | The release of a forwarded key, through the engine and the candidate exception |
| KeyRouter.ProcessKeyPress | daemon/wayland/wl_keyboard.c:274-286 | Routing, then the repeat timer |
| KeyRouter.ProcessKeyRelease | daemon/wayland/wl_keyboard.c:288-297 | The timer stops for its own key, then routing |
| KeyRouter.DispatchRepeatTimer | daemon/wayland/keyboard_repeat.c:120-250 | One tick of the repeat timer |
| KeyArbiterClass.ReplayBuffer | daemon/wayland/key_arbiter.c:46-64 | The loop delivers the buffer in order and goes idle |
| KeyArbiterClass.ConsumeChord | daemon/wayland/key_arbiter.c:75-118 | The loop settles the chord, switches the engine and goes idle |
| KeyArbiterClass.PressKey | daemon/wayland/key_arbiter.c:183-227 | A press through the arbiter, on the frontend and the buffer together |
| KeyArbiterClass.ReleaseKey | daemon/wayland/key_arbiter.c:229-268 | A release through the arbiter |
| KeyArbiterClass.DispatchKey | daemon/wayland/wl_keyboard.c:301-383 | The whole dispatcher: early exit, routing guard, physical modifiers, arbiter |
| Framing.DecodeAppend | daemon/ipc/uds_server.c:201-243 | Decoding a longer stream continues from the undecoded rest of a shorter one |
| Framing.DecodeStream | daemon/ipc/uds_server.c:163-178 | Round trip: an encoded stream decodes to its frames |
| Framing.DecodePrefix | daemon/ipc/uds_server.c:204-243 | Part of a stream decodes to a prefix of its frames |
| Framing.ChunkIndependent | daemon/ipc/uds_server.c:180-244 | However the bytes are cut into reads: the frames of the whole stream in order, exactly the undecoded rest in the buffer, closed exactly on an oversized frame |
| Framing.FramesArrive | daemon/ipc/uds_server.c:180-244 | For frames of at most 8188 bytes exactly those frames arrive, and the space offered to recv is never zero |
| Framing.RoomToReceive | daemon/ipc/uds_server.c:185-185 | Such frames never fill the buffer |
| Framing.HandledFit | daemon/ipc/uds_server.c:185-219 | Over any reads that recv can make, no frame of more than 8188 bytes is ever handed over |
| Framing.DeliverableExactly | daemon/ipc/uds_server.c:180-244 | Some cut into such reads gets a sequence of frames through if and only if none has more than 8188 bytes |
| Framing.LargeFrameCloses | daemon/ipc/uds_server.c:185-199 | Before a larger frame everything is handed over; at most one buffer of it is taken in, then the zero-byte recv closes the client |
| Framing.FullBufferMeans | daemon/ipc/uds_server.c:210-219 | A full buffer happens only with such a frame |
| Framing.NetworkOrder | daemon/ipc/uds_server.c:163-178 | The length is written most significant byte first |
| Framing.RefusedFirst | daemon/ipc/uds_server.c:204-219 | A stream is refused at once exactly if its first four bytes announce more than 1 MiB |
| UdsClient.Client.ProcessRead | daemon/ipc/uds_server.c:180-244 | One readable event is one step of the reader that Framing.ChunkIndependent and Framing.LargeFrameCloses are about |
| UdsClient.Client.ExtractFrames | daemon/ipc/uds_server.c:202-243 | The extraction loop computes the stream decoder on the buffer |
| UdsClient.Client.Write | daemon/ipc/uds_server.c:128-148 | Any short write keeps: accepted bytes followed by the waiting ones are all the queued ones |
| UdsClient.Client.Enqueue | daemon/ipc/uds_server.c:150-161 | Queueing appends, or closes on overflow; the same conservation |
| UdsClient.Client.SendFrame | daemon/ipc/uds_server.c:163-178 | While the client is open a sent response adds exactly its frame to the queued bytes, which stay the stream of all responses sent; a response larger than the write buffer always closes it, one that fits only on a failed send |
| UdsClient.Client.PeerDecodes | daemon/ipc/uds_server.c:128-178 | For every open client: its peer decodes from the bytes taken so far a prefix of the responses sent, and all of them once nothing waits |
| UdsClient.PeerSeesPrefix | daemon/ipc/uds_server.c:128-178 | What the socket has taken decodes to a prefix of the frames sent, and to all of them once nothing waits |
| UdsClient.StreamSnoc | daemon/ipc/uds_server.c:163-178 | Queued frames make up the stream, one after the other |
| JsonText.UnescapeEscape | daemon/ipc/tip_json.c:264-307 | Reading what the builder escaped gives the string back |
| JsonText.EscapeInjective | daemon/ipc/tip_json.c:264-307 | Distinct strings are written differently |
| JsonText.EscapeIsBody | daemon/ipc/tip_json.c:264-307 | The builder writes well-formed string bodies |
| JsonText.StringEndAtBody | daemon/ipc/tip_json.c:51-58 | The scan of a string stops right behind any well-formed body |
| JsonText.ExtractsFirst | daemon/ipc/tip_json.c:25-66 | The first member of an object is extracted exactly, for any key text, white space, body and tail |
| JsonText.ExtractsExactly | daemon/ipc/tip_json.c:25-66 | For every text and key: a body is returned if and only if the key has at most 100 characters and its first quoted occurrence, wherever it is, is followed by a colon and a closed string with that body |
| JsonText.NameMissing | daemon/ipc/tip_json.c:34-41 | Nothing for a key over 100 characters or one that does not occur |
| JsonText.ValueMissing | daemon/ipc/tip_json.c:43-60 | Nothing without a colon, for a value that is no string, or for a string never closed |
| JsonText.ReadsMethod | docs/reference/ipc-protocol.md:38 | The documented request is read: its method, the third member, is GetAll |
| JsonText.EscapePrintable | daemon/ipc/tip_json.c:264-307 | No control character is written as it is |
| JsonText.WriteThenRead | daemon/ipc/tip_json.c:25-66 | Write then read: the escaped string comes back, which stands for the original; unescaped strings come back as themselves |
| JsonText.ReadsApart | daemon/ipc/tip_json.c:25-66 | Different strings are never read as the same |
| JsonParams.LooseEndAtBody | daemon/ipc/tip_json.c:115-122 | The params scan stops at a closing quote exactly when the body does not end in a backslash |
| JsonParams.ScansObject | daemon/ipc/tip_json.c:110-127 | The object scan ends where the object does, at any depth, braces inside strings ignored |
| JsonParams.NeverInStep | daemon/ipc/tip_json.c:115-122 | Once out of step with quote-free strings the scan never ends where the object does |
| JsonParams.ExtractsObject | daemon/ipc/tip_json.c:88-132 | The params slice is exactly the object when no string body ends in a backslash |
| JsonParams.ExtractsObjectExactly | daemon/ipc/tip_json.c:88-132 | For quote-free strings and text behind the object that condition is exact |
| JsonParams.ParamsMissing | daemon/ipc/tip_json.c:99-104 | Reported missing exactly when the name occurs nowhere |
| JsonParams.ParamsMalformed | daemon/ipc/tip_json.c:105-108 | Malformed when no colon follows its first occurrence |
| JsonParams.ParamsScalar | daemon/ipc/tip_json.c:133-142 | A value that is no object ends before the first comma or closing brace, or with the text |
| TipJson.Builder.EnsureCap | daemon/ipc/tip_json.c:242-251 | The doubling loop ends with room for the text and its terminator, contents unchanged |
| TipJson.Builder.AppendRaw | daemon/ipc/tip_json.c:253-262 | Appends exactly the text and keeps the terminator inside the buffer |
| TipJson.Builder.AppendString | daemon/ipc/tip_json.c:264-307 | Appends exactly the quoted, escaped string |
| TipJson.FindString | daemon/ipc/tip_json.c:25-66 | The scanner computes the extraction that JsonText.ExtractsExactly is about |
| TipJson.FindParams | daemon/ipc/tip_json.c:88-143 | The scanner computes the slice that JsonParams.ExtractsObjectExactly is about |
| Utf8.UnitsShape | core/src/string.rs:281-310 | Every encoding is a lead byte that announces its length and then continuations, none of them zero |
| Utf8.ShortestForm | core/src/string.rs:281-310 | The shortest form by range: ASCII as it is, two, three or four bytes for the rest, none above 0x10FFFF |
| Utf8.ReadsBroken | core/src/string.rs:250-278 | A byte that starts no character, or a character broken off, reads as U+FFFD |
| Utf8.StepsExactly | core/src/string.rs:222-247 | In any bytes at all a step forward or back ends at the neighbouring byte that is no continuation |
| Utf8.ReadsBack | core/src/string.rs:250-278 | Reading where an encoding stands gives its code point |
| Utf8.StepsOver | core/src/string.rs:222-247 | Stepping forward passes exactly one encoding and stepping back returns |
| Utf8.RoundTrip | core/src/string.rs:211-310 | Walking the text of any code points gives them back in order |
| Utf8.StrlenCounts | core/src/string.rs:211-219 | The length is the number of code points |
| Utf8.BackVisits | core/src/string.rs:236-247 | Walking back from the end visits the same boundaries in reverse |
| Utf8.Encode | core/src/string.rs:281-310 | Writes exactly the encoding and leaves the rest of the buffer alone |
| Utf8.ReadChar | core/src/string.rs:250-278 | The loop computes the reading that the round trip is about |
| Utf8.NextChar | core/src/string.rs:222-233 | The loop computes the forward step |
| Utf8.PrevChar | core/src/string.rs:236-247 | The loop computes the backward step |
| NotifierSpec.RunFaithful | daemon/notify/notifications.c:42-74 | After any run, keys of any length, the table is the last sixteen insertions as stored; each short key has its last permitted time where it went, and is inserted only when stored nowhere |
| NotifierSpec.RefusedExactly | daemon/notify/notifications.c:52-63 | On any run, for a key of at most 95 bytes without a clash: refused if and only if it is among the last sixteen inserted and was permitted less than the cooldown ago |
| NotifierSpec.ClashRefuses | daemon/notify/notifications.c:52-69 | A key not among the last sixteen inserted can be refused exactly when a longer key that begins with it is |
| NotifierSpec.ShorterNeverClashes | daemon/notify/notifications.c:65-69 | Keys of at most 94 bytes have no clash |
| NotifierSpec.SpacedApart | daemon/notify/notifications.c:42-74 | On any run, two permitted sends of a key of at most 95 bytes are a cooldown apart unless the insertion that held the first was pushed out |
| NotifierSpec.LongKeyNeverRefused | daemon/notify/notifications.c:65-69 | On no run is a key of 96 bytes or more refused |
| NotifierSpec.PrefixRefused | daemon/notify/notifications.c:52-69 | A concrete 95-byte key refused without ever having been sent |
| NotifierClass.Notifier.IsRateLimited | daemon/notify/notifications.c:42-74 | The scan of the table computes the decision and the new table |
| Reconcile.RepairExactly | daemon/wayland/reconcile_model.c:13-37 | A repair happens if and only if a divergence armed earlier has lasted without an agreeing tick or a repair and this is the first tick past the threshold |
| Reconcile.DivergesMeans | daemon/wayland/lifecycle_state.c:46-73 | Which ticks disagree: declared active without connection, focus or grab, or declared inactive while served, and never without an engine wanting the grab |
| Reconcile.AgreementResets | daemon/wayland/reconcile_model.c:20-23 | One agreeing tick discards the time gathered: no repair within the threshold after it |
| Reconcile.RepairsRecur | daemon/wayland/reconcile_model.c:25-34 | While every tick disagrees, the tick after a repair arms again and the first one past the threshold repairs again |
| Reconcile.RepairConverges | daemon/wayland/wl_input_method.c:475-524 | When a repair ends the disagreement it answers, exactly |
| Reconcile.RepairIsRun | daemon/wayland/wl_input_method.c:475-524 | The repair is a run of the key machine |
| Reconcile.Reconciler.TickOnce | daemon/wayland/reconciler.c:38-99 | One tick: agreement, the benign case without an engine, and the decision with its new start |
| Resume.CalledExactly | daemon/wayland/resume_signal.c:60-90 | The callback runs if and only if the event reports a resume and every earlier callback is a cooldown ago |
| Resume.CallsApart | daemon/wayland/resume_model.h:57-61 | Callbacks are at least 5000 ms apart |
| Resume.GapAnswered | daemon/wayland/resume_signal.c:252-283 | A sample that sees a suspend gap fires or follows a callback by less than the cooldown |
| Resume.SamplesKept | daemon/wayland/resume_signal.c:252-283 | The gap is measured against the previous sample |
| Resume.ResumeSignal.OnEvent | daemon/wayland/resume_signal.c:252-283 | One event computes the detector step |
| ShortcutSpec.Canonical | daemon/wayland/shortcut_config.c:112-243 | For every text the parser accepts, formatting needs no hexadecimal fallback, fits and parses back to the same binding |
| ShortcutSpec.FormatParses | daemon/wayland/shortcut_config.c:180-243 | Any lock-free binding with a modifier and a nameable key survives being written and read |
| ShortcutSpec.ParseMeans | daemon/wayland/shortcut_config.c:112-176 | What any text means: the union of its modifier names in any case and order, "control" as good as "ctrl", at least one, and at most one key |
| ShortcutSpec.ControlReads | daemon/wayland/shortcut_config.c:85-92 | The alias and the case of a name make no difference |
| ShortcutSpec.FormatsAs | daemon/wayland/shortcut_config.c:187-222 | The written order of the modifiers and the capitalized key name |
| ShortcutSpec.HexTextMeans | daemon/wayland/shortcut_config.c:225-236 | The hexadecimal fallback: the digits stand for the keysym, with no zero in front |
| ShortcutSpec.TokensWritable | daemon/wayland/shortcut_config.c:137-163 | What a parse can give: no lock modifier and a key with a name |
| ShortcutSpec.SplitsJoin | daemon/wayland/shortcut_config.c:132-163 | Splitting the joined text gives the pieces back |
| ShortcutSpec.KeyTextReads | daemon/wayland/shortcut_config.c:205-236 | The text of a key reads back as the key and as no modifier |
| ShortcutText.ParseShortcut | daemon/wayland/shortcut_config.c:112-176 | The token loop computes the parse |
| ShortcutText.FormatShortcut | daemon/wayland/shortcut_config.c:180-243 | Filling the buffer by position computes the text, and any 32-bit keysym fits in 128 bytes |
| RecentPair.RemembersLatestTwo | core/src/engine_manager.rs:259-286 | After any history the primary is the latest name and the secondary the latest different one |
| RecentPair.PartnerSwaps | core/src/engine_manager.rs:288-305 | Partner lookup swaps the two; twice returns to the start exactly when it is the first entry of its name |
| RecentPair.EngineManager.UpdateRecentPair | core/src/engine_manager.rs:259-286 | Computes the update in place |
| RecentPair.EngineManager.RecentPartnerIndex | core/src/engine_manager.rs:288-305 | Computes the partner lookup |

## Left out

- JsonParams.ExtractsObjectExactly: the converse is stated for strings without inner quotes, because an escaped quote inside a later string can put a scan that fell out of step back into step.
- JsonText.WriteThenRead: keys with control characters, quotes or backslashes, which the builder escapes and the reader looks for unescaped.
- KeySession.SessionNoStuckKey: events still in the arbiter's buffer when a boundary destroys the keyboard are dropped with it; they were never routed.
- KeyPhysical.PhysicallyHeld: a key held across a boundary counts as let go there, because the boundary is where its release is due; key events that arrive while there is no grab are not seen.
- KeySession.SwallowSettles: the engine manager's answer to the switch is not modelled, only that it is asked.
- KeyStartup.PassedOnce: the dispatch epoch does not wrap around 64 bits.
- UdsClient.Client.ProcessRead: a client closed from inside the write of a response while its read loop is running; responses are written by a separate call.
- UdsClient.Client.SendFrame: responses are byte strings without NUL.
- NotifierSpec.RefusedExactly: a clock that goes back, or fails and reads zero.
- Resume.CalledExactly: clocks that read zero, which the source treats as not started yet.
- The time stamp and Unicode value on wire events, and the drop and cancel counters that only drive log messages.
- `active_generation_vk_dirty`, the watchdog flag and the last-progress times, which no modelled decision reads.
- The streak counter of the routing guard: whether it has reached its limit is an input.
- The input context, candidate list, engine manager, voice session and configuration: their answers are the environment.
- The frontend's preedit clearing on resume, and binding and unbinding of Wayland globals.
- Activation, reactivation and focus-out beyond the phase they set and the boundary they take.
- Allocation failures, and the errors of `epoll`, `timerfd` and `xkbcommon` calls other than a grab that cannot be created.
- `tip_json_extract_string_array`, `tip_json_extract_id` and the number writers: easy members beside the string scanners.
- Names, traces and log messages; the control panel, tray, D-Bus, PipeWire and text rendering.
- Loading and saving the recent pair; the memory starts empty.
