/**
 The lifecycle reconciler: when a disagreement between the declared phase and
 the observed state is repaired, and when the repair ends it.
 */
module Reconcile {
  import opened KeyTypes
  import opened KeySpec
  import opened KeyShape
  import opened KeyBoundary
  import opened KeyRuns
  import opened KeyState

  const THRESHOLD_MS: nat := 2000

  datatype Action = Ok | Arm | Wait | Repair

  // ---- lifecycle_state.c ----

  /** The observed axes; the grab axis is only ever none or ready. */
  datatype Snapshot = Snapshot(connected: bool, focused: bool, grabbed: bool)

  function Project(o: Snapshot): Phase {
    if !o.connected || !o.focused then Inactive else if o.grabbed then Active else Activating
  }

  predicate Agrees(o: Snapshot, declared: Phase) {
    declared == Deactivating || declared == Activating || Project(o) == declared
  }

  /** One tick's view of the world. */
  datatype Tick = Tick(observed: Snapshot, declared: Phase, engineActive: bool, now: nat)

  /** Focused without a grab is no disagreement while no engine wants one. */
  predicate TickAgrees(t: Tick) {
    || Agrees(t.observed, t.declared)
    || (t.observed.focused && !t.observed.grabbed && !t.engineActive)
  }

  // ---- reconcile_model.c ----

  /** Decision and the new start of the divergence (zero when there is none). */
  function Decide(agree: bool, now: nat, since: nat, threshold: nat): (Action, nat) {
    if agree then (Ok, 0)
    else if since == 0 then (Arm, now)
    else if now >= since && now - since >= threshold then (Repair, 0)
    else (Wait, since)
  }

  class Reconciler {
    var divergenceSince: nat

    constructor ()
      ensures divergenceSince == 0
    {
      divergenceSince := 0;
    }

    method TickOnce(t: Tick) returns (action: Action)
      modifies this
      ensures (action, divergenceSince) == Decide(TickAgrees(t), t.now, old(divergenceSince), THRESHOLD_MS)
    {
      var agree := Agrees(t.observed, t.declared);
      if !agree && t.observed.focused && !t.observed.grabbed && !t.engineActive {
        agree := true;
      }
      if agree {
        divergenceSince := 0;
        return Ok;
      }
      if divergenceSince == 0 {
        divergenceSince := t.now;
        return Arm;
      }
      if t.now >= divergenceSince && t.now - divergenceSince >= THRESHOLD_MS {
        divergenceSince := 0;
        return Repair;
      }
      return Wait;
    }
  }

  // ---- traces ----

  /** The divergence start after the first n ticks. */
  function SinceAfter(ts: seq<Tick>, n: nat): nat
    requires n <= |ts|
  {
    if n == 0 then 0 else Decide(TickAgrees(ts[n - 1]), ts[n - 1].now, SinceAfter(ts, n - 1), THRESHOLD_MS).1
  }

  function ActionAt(ts: seq<Tick>, i: nat): Action
    requires i < |ts|
  {
    Decide(TickAgrees(ts[i]), ts[i].now, SinceAfter(ts, i), THRESHOLD_MS).0
  }

  ghost predicate Clocked(ts: seq<Tick>) {
    && (forall i :: 0 <= i < |ts| ==> ts[i].now > 0)
    && (forall i, j :: 0 <= i < j < |ts| ==> ts[i].now <= ts[j].now)
  }

  /** Armed at i and still waiting after tick n - 1. */
  ghost predicate OpenSince(ts: seq<Tick>, i: nat, n: nat) {
    && i < n <= |ts| && ActionAt(ts, i) == Arm
    && (forall k :: i < k < n ==> ActionAt(ts, k) == Wait)
  }

  lemma {:induction false} SinceMeans(ts: seq<Tick>, n: nat)
    requires n <= |ts| && Clocked(ts)
    ensures SinceAfter(ts, n) == 0 ==> forall i: nat :: !OpenSince(ts, i, n)
    ensures SinceAfter(ts, n) != 0 ==> exists i: nat :: OpenSince(ts, i, n) && SinceAfter(ts, n) == ts[i].now
  {
    if n > 0 {
      var m := n - 1;
      SinceMeans(ts, m);
      if SinceAfter(ts, n) != 0 {
        if ActionAt(ts, m) == Arm {
          assert OpenSince(ts, m, n);
        } else {
          var i: nat :| OpenSince(ts, i, m) && SinceAfter(ts, m) == ts[i].now;
          assert OpenSince(ts, i, n);
        }
      } else {
        forall i: nat ensures !OpenSince(ts, i, n) {
          if i < m {
            assert OpenSince(ts, i, n) ==> ActionAt(ts, m) == Wait;
          }
        }
      }
    }
  }

  /** The two disagreements that count: declared active without connection, focus or grab, and declared
      inactive while connected, focused and served. Focus without a grab or an engine is never one, and the
      phases in between never disagree. */
  predicate Diverges(t: Tick) {
    var o := t.observed;
    || (t.declared == Active && !(o.connected && o.focused && o.grabbed) &&
        !(o.focused && !o.grabbed && !t.engineActive))
    || (t.declared == Inactive && o.connected && o.focused && (o.grabbed || t.engineActive))
  }

  lemma DivergesMeans(t: Tick)
    ensures Diverges(t) <==> !TickAgrees(t)
  {
  }

  /** All ticks after i up to and including j disagree, and none before j reached the threshold. */
  ghost predicate LongDivergence(ts: seq<Tick>, i: nat, j: nat) {
    && i < j < |ts| && ActionAt(ts, i) == Arm
    && (forall k :: i < k <= j ==> Diverges(ts[k]))
    && (forall k :: i < k < j ==> ActionAt(ts, k) != Repair && ts[k].now - ts[i].now < 2000)
    && ts[j].now - ts[i].now >= 2000
  }

  lemma {:induction false} WaitsWhileDiverging(ts: seq<Tick>, i: nat, n: nat)
    requires Clocked(ts) && i < n <= |ts| && ActionAt(ts, i) == Arm
    requires forall k :: i < k < n ==> Diverges(ts[k]) && ts[k].now - ts[i].now < 2000
    ensures OpenSince(ts, i, n) && SinceAfter(ts, n) == ts[i].now
  {
    if n > i + 1 {
      WaitsWhileDiverging(ts, i, n - 1);
    }
  }

  lemma {:induction false} OpenDiverges(ts: seq<Tick>, i: nat, n: nat)
    requires Clocked(ts) && OpenSince(ts, i, n)
    ensures SinceAfter(ts, n) == ts[i].now
    ensures forall k :: i < k < n ==> Diverges(ts[k]) && ts[k].now - ts[i].now < 2000
  {
    if n == i + 1 {
      assert SinceAfter(ts, n) == Decide(TickAgrees(ts[i]), ts[i].now, SinceAfter(ts, i), 2000).1;
    } else {
      assert OpenSince(ts, i, n - 1);
      OpenDiverges(ts, i, n - 1);
      assert ActionAt(ts, n - 1) == Wait;
      assert SinceAfter(ts, n) == SinceAfter(ts, n - 1);
    }
  }

  /** A repair happens at a tick if and only if a divergence armed earlier has lasted, without one
      agreeing tick and without a repair, and this is the first tick past the threshold. */
  lemma RepairExactly(ts: seq<Tick>, j: nat)
    requires Clocked(ts) && j < |ts|
    ensures ActionAt(ts, j) == Repair <==> exists i: nat :: LongDivergence(ts, i, j)
  {
    hide Diverges, TickAgrees, SinceAfter;
    SinceMeans(ts, j);
    DivergesMeans(ts[j]);
    if ActionAt(ts, j) == Repair {
      var i: nat :| OpenSince(ts, i, j) && SinceAfter(ts, j) == ts[i].now;
      OpenDiverges(ts, i, j);
      assert LongDivergence(ts, i, j);
    }
    if i: nat :| LongDivergence(ts, i, j) {
      WaitsWhileDiverging(ts, i, j);
    }
  }

  /** One agreeing tick, of any kind, discards the time gathered so far. */
  lemma AgreementResets(ts: seq<Tick>, i: nat, j: nat)
    requires Clocked(ts) && i < j < |ts| && !Diverges(ts[i])
    requires ts[j].now - ts[i].now < 2000
    ensures ActionAt(ts, j) != Repair
  {
    RepairExactly(ts, j);
    forall a: nat ensures !LongDivergence(ts, a, j) {
      assert i < a < |ts| ==> ts[i].now <= ts[a].now;
    }
  }

  /** While every tick disagrees, a repair comes at the first tick past the threshold after the arming. */
  lemma {:induction false} RepairComes(ts: seq<Tick>, i: nat, j: nat)
    requires Clocked(ts) && i < j < |ts| && ActionAt(ts, i) == Arm
    requires (forall k :: i < k <= j ==> Diverges(ts[k])) && ts[j].now - ts[i].now >= 2000
    ensures exists r: nat :: r <= j && LongDivergence(ts, i, r)
  {
    if j - 1 > i && ts[j - 1].now - ts[i].now >= 2000 {
      RepairComes(ts, i, j - 1);
    } else {
      forall k | i < k < j ensures ts[k].now - ts[i].now < 2000 {
        assert ts[k].now <= ts[j - 1].now;
      }
      WaitsWhileDiverging(ts, i, j);
      assert LongDivergence(ts, i, j);
    }
  }

  /** Repairs recur: if every tick after a repair disagrees, the next tick arms again, and the first
      tick past the threshold after it repairs again. */
  lemma RepairsRecur(ts: seq<Tick>, r: nat, j: nat)
    requires Clocked(ts) && ActionAtIs(ts, r, Repair) && r + 1 < j < |ts|
    requires (forall k :: r < k <= j ==> Diverges(ts[k])) && ts[j].now - ts[r + 1].now >= 2000
    ensures ActionAt(ts, r + 1) == Arm
    ensures exists next: nat :: r + 1 < next <= j && ActionAt(ts, next) == Repair && LongDivergence(ts, r + 1, next)
  {
    assert SinceAfter(ts, r + 1) == 0;
    RepairComes(ts, r + 1, j);
    var next: nat :| next <= j && LongDivergence(ts, r + 1, next);
    RepairExactly(ts, next);
  }

  predicate ActionAtIs(ts: seq<Tick>, i: nat, action: Action) {
    i < |ts| && ActionAt(ts, i) == action
  }

  // ---- the repair itself ----

  /** typio_wl_input_method_handle_resume: scrub, then regrab if the client was being served. */
  function HandleResume(s: State, focused: bool, engineActive: bool, created: bool, now: nat): State {
    var scrubbed := OnResume(s);
    if !focused || s.phase != Active || !engineActive then scrubbed
    else Rebuild(scrubbed.(phase := Activating), now, created).(phase := if created then Active else Inactive)
  }

  function ObserveState(s: State, connected: bool, focused: bool): Snapshot {
    Snapshot(connected, focused, s.grab.Some?)
  }

  lemma AfterScrub(s: State)
    requires Shape(s) && Quiescent(s)
    ensures var r := OnResume(s).(phase := Activating); Shape(r) && Quiescent(r) && r.grab.None?
    ensures OnResume(s).phase == Inactive && OnResume(s).grab.None?
  {
    hide OnResume, BoundaryEffect;
    ResumeShape(s);
    ResumeBoundary(s);
  }

  /** The regrab half of the repair. */
  function RegrabSteps(created: bool, now: nat): seq<Step> {
    [Resume, SetPhase(Activating, false), Regrab(now, created), SetPhase(if created then Active else Inactive, false)]
  }

  /** The repair is a run of the key machine, so everything proved of runs holds across it. */
  lemma RepairIsRun(w: World, s: State, focused: bool, engineActive: bool, created: bool, now: nat)
    requires Shape(s) && Quiescent(s)
    ensures HandleResume(s, focused, engineActive, created, now) ==
            Run(w, s, if !focused || s.phase != Active || !engineActive then [Resume] else RegrabSteps(created, now))
  {
    hide OnResume, Rebuild, BoundaryEffect, Shape;
    AfterScrub(s);
    ScrubClears(s);
    RebuildKeepsPending(OnResume(s).(phase := Activating), now, created);
    RunFour(w, s, RegrabSteps(created, now));
    assert [Resume][..0] == [] && Run(w, s, []) == s;
  }

  lemma ScrubClears(s: State)
    ensures !OnResume(s).pendingReactivation
  {
    hide HardReset, ResetModifiers;
  }

  lemma RebuildKeepsPending(s: State, now: nat, created: bool)
    requires Shape(s)
    ensures Rebuild(s, now, created).pendingReactivation == s.pendingReactivation
  {
    hide HardReset, Shape, Observed;
    ResetState(s);
    RebuildState(s, now, created);
  }

  /** Does a repair end the disagreement it answers? With the grab rebuilt, exactly while connected;
      otherwise only if not connected, not focused or no engine wants a grab. So a focused frontend
      that was declared inactive is scrubbed again and again. */
  lemma RepairConverges(s: State, connected: bool, focused: bool, engineActive: bool, created: bool,
                        now: nat, later: nat)
    requires Shape(s) && Quiescent(s)
    ensures var r := HandleResume(s, focused, engineActive, created, now);
            !Diverges(Tick(ObserveState(r, connected, focused), r.phase, engineActive, later)) <==>
            if focused && s.phase == Active && engineActive && created then connected
            else !connected || !focused || !engineActive
  {
    hide OnResume, Rebuild, Shape, BoundaryEffect;
    AfterScrub(s);
    RebuildBoundary(OnResume(s).(phase := Activating), now, created);
  }
}
