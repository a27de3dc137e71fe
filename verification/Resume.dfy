/**
 The resume detector: logind wake signals and clock samples, de-duplicated by a
 cooldown.
 */
module Resume {

  const GAP_MS: nat := 2000
  const COOLDOWN_MS: nat := 5000
  const WORD: nat := 0x1_0000_0000_0000_0000

  /** What happens: logind before sleep, logind after it, or a clock sample. A sample reads both
      clocks and, if it fires, the monotonic one again. */
  datatype Event = Sleep | Wake(now: nat) | Sample(mono: nat, boot: nat, firing: nat)

  datatype Detector = Detector(lastMono: nat, lastBoot: nat, lastFire: nat)

  function Delta(now: nat, last: nat): nat {
    if now >= last then now - last else 0
  }

  /** The boot clock ran ahead of the monotonic clock by at least the threshold. */
  predicate GapExceeded(monoDelta: nat, bootDelta: nat) {
    bootDelta > monoDelta && bootDelta - monoDelta >= GAP_MS
  }

  /** Unsigned 64-bit subtraction, as the original computes it. */
  predicate InCooldown(now: nat, lastFire: nat) {
    lastFire != 0 && (now - lastFire) % WORD < COOLDOWN_MS
  }

  function Fire(d: Detector, now: nat): (Detector, bool) {
    if InCooldown(now, d.lastFire) then (d, false) else (d.(lastFire := now), true)
  }

  /** One event: the detector afterwards, and whether the callback ran. */
  function Step(d: Detector, e: Event): (Detector, bool) {
    match e
    case Sleep => (d, false)
    case Wake(now) => Fire(d, now)
    case Sample(mono, boot, firing) =>
      var sampled := d.(lastMono := mono, lastBoot := boot);
      if d.lastMono == 0 || d.lastBoot == 0 then (sampled, false)
      else if GapExceeded(Delta(mono, d.lastMono), Delta(boot, d.lastBoot)) then Fire(sampled, firing)
      else (sampled, false)
  }

  class ResumeSignal {
    var lastMono: nat
    var lastBoot: nat
    var lastFire: nat

    ghost function Abs(): Detector
      reads this
    {
      Detector(lastMono, lastBoot, lastFire)
    }

    constructor (mono: nat, boot: nat)
      ensures Abs() == Detector(mono, boot, 0)
    {
      lastMono, lastBoot, lastFire := mono, boot, 0;
    }

    method FireCallback(now: nat) returns (called: bool)
      modifies this`lastFire
      ensures (Abs(), called) == Fire(old(Abs()), now)
    {
      if lastFire != 0 && (now - lastFire) % WORD < COOLDOWN_MS {
        return false;
      }
      lastFire := now;
      return true;
    }

    method OnEvent(e: Event) returns (called: bool)
      modifies this
      ensures (Abs(), called) == Step(old(Abs()), e)
    {
      match e
      case Sleep => return false;
      case Wake(now) => called := FireCallback(now);
      case Sample(mono, boot, firing) =>
        if lastMono == 0 || lastBoot == 0 {
          lastMono, lastBoot := mono, boot;
          return false;
        }
        var monoDelta := if mono >= lastMono then mono - lastMono else 0;
        var bootDelta := if boot >= lastBoot then boot - lastBoot else 0;
        lastMono, lastBoot := mono, boot;
        if !GapExceeded(monoDelta, bootDelta) {
          return false;
        }
        called := FireCallback(firing);
    }
  }

  // ---- traces ----

  function After(d: Detector, es: seq<Event>, n: nat): Detector
    requires n <= |es|
  {
    if n == 0 then d else Step(After(d, es, n - 1), es[n - 1]).0
  }

  /** The callback runs at event i. */
  predicate Called(d: Detector, es: seq<Event>, i: nat)
    requires i < |es|
  {
    Step(After(d, es, i), es[i]).1
  }

  /** The time a callback at this event is counted from. */
  function Time(e: Event): nat {
    match e
    case Sleep => 0
    case Wake(now) => now
    case Sample(_, _, firing) => firing
  }

  /** Positive clocks; the monotonic one never goes back, from one reading to the next. */
  ghost predicate Clocked(d: Detector, es: seq<Event>) {
    && d.lastMono > 0 && d.lastBoot > 0 && d.lastFire == 0
    && (forall i :: 0 <= i < |es| ==>
          match es[i]
          case Sleep => true
          case Wake(now) => 0 < now < WORD
          case Sample(mono, boot, firing) => 0 < mono <= firing < WORD && boot > 0)
    && (forall i, j :: 0 <= i < j < |es| && !es[i].Sleep? && !es[j].Sleep? ==> Time(es[i]) <= Time(es[j]))
  }

  /** The sample a later one is compared with: the last one, or the readings at creation. */
  function PreviousSample(d: Detector, es: seq<Event>, n: nat): (nat, nat)
    requires n <= |es|
  {
    if n == 0 then (d.lastMono, d.lastBoot)
    else if es[n - 1].Sample? then (es[n - 1].mono, es[n - 1].boot)
    else PreviousSample(d, es, n - 1)
  }

  /** The event reports a resume: a wake signal, or a sample since the last of which the boot clock ran two
      seconds ahead of the monotonic one; a clock that went back counts as standing still. */
  predicate Reports(d: Detector, es: seq<Event>, i: nat)
    requires i < |es|
  {
    match es[i]
    case Sleep => false
    case Wake(_) => true
    case Sample(mono, boot, _) =>
      var last := PreviousSample(d, es, i);
      var monotonic := if mono > last.0 then mono - last.0 else 0;
      var total := if boot > last.1 then boot - last.1 else 0;
      total - monotonic >= 2000
  }

  lemma {:induction false} SamplesKept(d: Detector, es: seq<Event>, n: nat)
    requires Clocked(d, es) && n <= |es|
    ensures var a := After(d, es, n);
            (a.lastMono, a.lastBoot) == PreviousSample(d, es, n) && a.lastMono > 0 && a.lastBoot > 0
  {
    if n > 0 {
      SamplesKept(d, es, n - 1);
      match es[n - 1] {
        case Sleep =>
        case Wake(now) =>
        case Sample(mono, boot, firing) => assert 0 < mono && boot > 0;
      }
    }
  }

  lemma StepFire(d: Detector, e: Event)
    ensures var r := Step(d, e);
            r.0.lastFire == (if r.1 then Time(e) else d.lastFire) && (r.1 ==> !e.Sleep?)
  {
  }

  lemma LastFireNext(d: Detector, es: seq<Event>, m: nat)
    requires m < |es|
    ensures After(d, es, m + 1).lastFire == if Called(d, es, m) then Time(es[m]) else After(d, es, m).lastFire
    ensures Called(d, es, m) ==> !es[m].Sleep?
  {
    StepFire(After(d, es, m), es[m]);
  }

  /** The callbacks before n: the last of them is remembered, and none is later. */
  ghost predicate FireRecord(d: Detector, es: seq<Event>, n: nat, last: nat)
    requires n <= |es|
  {
    && (last == 0 ==> forall i :: 0 <= i < n ==> !Called(d, es, i))
    && (last != 0 ==> exists i: nat :: i < n && Called(d, es, i) && last == Time(es[i]))
    && (forall i :: 0 <= i < n && Called(d, es, i) ==> Time(es[i]) <= last)
  }

  lemma {:induction false} LastFireMeans(d: Detector, es: seq<Event>, n: nat)
    requires Clocked(d, es) && n <= |es|
    ensures FireRecord(d, es, n, After(d, es, n).lastFire)
  {
    hide Called, After;
    if n > 0 {
      var m := n - 1;
      LastFireMeans(d, es, m);
      LastFireNext(d, es, m);
      if Called(d, es, m) {
        assert Time(es[m]) > 0 by { assert !es[m].Sleep?; }
        forall i | 0 <= i < n && Called(d, es, i) ensures Time(es[i]) <= Time(es[m]) {
          if i < m {
            LastFireNext(d, es, i);
          }
        }
      }
    } else {
      assert After(d, es, 0).lastFire == 0 by { AfterNothing(d, es); }
    }
  }

  lemma AfterNothing(d: Detector, es: seq<Event>)
    ensures After(d, es, 0) == d
  {
  }

  /** The detector, exactly: the callback runs at an event if and only if the event reports a resume
      and every earlier callback is at least five seconds ago. */
  lemma CalledExactly(d: Detector, es: seq<Event>, i: nat)
    requires Clocked(d, es) && i < |es|
    ensures Called(d, es, i) <==>
            Reports(d, es, i) && forall j :: 0 <= j < i && Called(d, es, j) ==> Time(es[i]) - Time(es[j]) >= 5000
  {
    hide InCooldown;
    SamplesKept(d, es, i);
    LastFireMeans(d, es, i);
    var last := After(d, es, i).lastFire;
    if Reports(d, es, i) {
      assert Called(d, es, i) == !InCooldown(Time(es[i]), last);
      if last != 0 {
        var k: nat :| k < i && Called(d, es, k) && last == Time(es[k]);
        assert !es[k].Sleep? && last <= Time(es[i]);
        CooldownMeans(Time(es[i]), last);
      } else {
        CooldownMeans(Time(es[i]), 0);
      }
    }
  }

  lemma CooldownMeans(now: nat, last: nat)
    requires last <= now < WORD
    ensures InCooldown(now, last) <==> last != 0 && now - last < 5000
  {
  }

  /** Callbacks keep their distance. */
  lemma CallsApart(d: Detector, es: seq<Event>, i: nat, j: nat)
    requires Clocked(d, es) && i < j < |es| && Called(d, es, i) && Called(d, es, j)
    ensures Time(es[j]) - Time(es[i]) >= 5000
  {
    CalledExactly(d, es, j);
  }

  /** No suspend goes unanswered: a sample that sees the gap either calls back or comes less than the
      cooldown after a callback. */
  lemma GapAnswered(d: Detector, es: seq<Event>, i: nat)
    requires Clocked(d, es) && i < |es| && es[i].Sample? && Reports(d, es, i)
    ensures Called(d, es, i) || exists j: nat :: j < i && Called(d, es, j) && Time(es[i]) - Time(es[j]) < 5000
  {
    CalledExactly(d, es, i);
  }
}
