/**
 The notification rate limiter: a table of sixteen keys, replaced first in,
 first out, and what it means for how often one key may be sent.
 */
module NotifierSpec {
  const CAPACITY: nat := 16
  const MAX_KEY_BYTES: nat := 95

  datatype Table = Table(keys: seq<string>, sent: seq<nat>, next: nat)

  datatype Ask = Ask(key: string, cooldown: nat, now: nat)

  function Empty(): Table {
    Table(seq(CAPACITY, _ => ""), seq(CAPACITY, _ => 0), 0)
  }

  /** The slot of a key, or the capacity if it is in none. */
  function Lookup(keys: seq<string>, key: string): (r: nat)
    ensures r <= |keys| && (r < |keys| ==> keys[r] == key)
    ensures forall i :: 0 <= i < r ==> keys[i] != key
  {
    if keys == [] then 0 else if keys[0] == key then 0 else 1 + Lookup(keys[1..], key)
  }

  ghost predicate TableOk(t: Table) {
    |t.keys| == CAPACITY && |t.sent| == CAPACITY && t.next < CAPACITY
  }

  /** Snprintf into a 96-byte field keeps at most 95 bytes. */
  function Stored(key: string): string {
    if |key| <= MAX_KEY_BYTES then key else key[..MAX_KEY_BYTES]
  }

  predicate Ignored(a: Ask) {
    a.key == "" || a.cooldown == 0
  }

  function Insert(t: Table, a: Ask): Table
    requires TableOk(t)
  {
    Table(t.keys[t.next := Stored(a.key)], t.sent[t.next := a.now], (t.next + 1) % CAPACITY)
  }

  predicate Hit(t: Table, a: Ask) {
    Lookup(t.keys, a.key) < |t.keys|
  }

  predicate TooSoon(last: nat, a: Ask) {
    last <= a.now && a.now - last < a.cooldown
  }

  /** One question: the table afterwards, and whether the send is refused. */
  function Query(t: Table, a: Ask): (r: (Table, bool))
    requires TableOk(t)
    ensures TableOk(r.0)
  {
    if Ignored(a) then (t, false)
    else if Hit(t, a) then
      var i := Lookup(t.keys, a.key);
      if TooSoon(t.sent[i], a) then (t, true) else (t.(sent := t.sent[i := a.now]), false)
    else (Insert(t, a), false)
  }

  // ---- runs ----

  /** A run so far: the table, the keys inserted in order, when each key was last permitted, and the
      insertion whose slot that last permitted send went to. */
  datatype Run = Run(table: Table, inserted: seq<string>, permitted: map<string, nat>, home: map<string, nat>)

  function Slot(p: nat): nat { p % 16 }

  /** Insertion p is one of the last sixteen of n. */
  predicate InWindow(n: nat, p: nat) {
    p < n <= p + 16
  }

  /** Which of the last sixteen of n insertions stands in slot i. */
  function Position(n: nat, i: nat): nat {
    if i < n then n - 1 - (n - 1 - i) % CAPACITY else 0
  }

  function Step(r: Run, a: Ask): (next: Run)
    requires TableOk(r.table)
    ensures TableOk(next.table)
  {
    var q := Query(r.table, a);
    if Ignored(a) || q.1 then r.(table := q.0)
    else if Hit(r.table, a) then
      Run(q.0, r.inserted, r.permitted[a.key := a.now],
          r.home[a.key := Position(|r.inserted|, Lookup(r.table.keys, a.key))])
    else Run(q.0, r.inserted + [a.key], r.permitted[a.key := a.now], r.home[a.key := |r.inserted|])
  }

  function RunAsks(asks: seq<Ask>): (r: Run)
    ensures TableOk(r.table)
  {
    if asks == [] then Run(Empty(), [], map[], map[])
    else Step(RunAsks(asks[..|asks| - 1]), asks[|asks| - 1])
  }

  /** A clock that never goes back. */
  ghost predicate Clocked(asks: seq<Ask>) {
    forall i, j :: 0 <= i < j < |asks| ==> asks[i].now <= asks[j].now
  }

  lemma SlotDistinct(n: nat, p: nat, q: nat)
    requires InWindow(n, p) && InWindow(n, q) && p != q
    ensures Slot(p) != Slot(q)
  {
  }

  lemma SlotUsed(n: nat, p: nat)
    ensures InWindow(n, p) ==> Slot(p) < CAPACITY && p < n && Position(n, Slot(p)) == p
    ensures InWindow(n, p) && !InWindow(n + 1, p) ==> Slot(p) == Slot(n) && n == p + 16
  {
  }

  /** Slot for slot, the table is the last sixteen insertions, each as it was stored. */
  ghost predicate Stores(r: Run) {
    var n := |r.inserted|;
    && TableOk(r.table) && r.table.next == Slot(n)
    && (forall p :: 0 <= p < n ==> r.inserted[p] != "")
    && (forall p: nat :: InWindow(n, p) ==> r.table.keys[Slot(p)] == Stored(r.inserted[p]))
    && (forall i :: 0 <= i < CAPACITY && r.table.keys[i] != "" ==> exists p: nat :: InWindow(n, p) && Slot(p) == i)
  }

  /** Where the last permitted send of a key went: to an insertion that stored that key, and while that
      one is in the table its time is there, and no earlier time in any slot before it. */
  ghost predicate HomeOk(r: Run, key: string)
    requires Stores(r) && key in r.permitted
  {
    var n := |r.inserted|;
    && key in r.home && r.home[key] < n && Stored(r.inserted[r.home[key]]) == key
    && (InWindow(n, r.home[key]) ==>
          && r.table.sent[Slot(r.home[key])] == r.permitted[key]
          && forall i :: 0 <= i < Slot(r.home[key]) && r.table.keys[i] == key ==>
               r.permitted[key] <= r.table.sent[i])
  }

  ghost predicate Homes(r: Run)
    requires Stores(r)
  {
    forall k :: k in r.permitted && |k| <= 95 ==> HomeOk(r, k)
  }

  /** A short key is inserted only when the table stores it nowhere; so of two insertions in the table
      that store the same key the later one is of a longer key, and a key's home is never older than
      its own insertion. */
  ghost predicate Fresh(r: Run) {
    var n := |r.inserted|;
    && (forall p: nat, q: nat :: InWindow(n, p) && InWindow(n, q) && p < q ==> Stored(r.inserted[p]) != r.inserted[q])
    && (forall p: nat :: InWindow(n, p) && |r.inserted[p]| <= 95 ==>
          r.inserted[p] in r.permitted && r.inserted[p] in r.home && p <= r.home[r.inserted[p]])
  }

  /** No time in the table lies in the future. */
  ghost predicate Past(r: Run, now: nat) {
    TableOk(r.table) && forall i :: 0 <= i < CAPACITY ==> r.table.sent[i] <= now
  }

  ghost predicate Faithful(r: Run) {
    Stores(r) && Homes(r) && Fresh(r)
  }

  lemma StoresTable(r: Run)
    requires Stores(r)
    ensures TableOk(r.table)
  {
  }

  /** The table finds a short key exactly when one of the last sixteen insertions stored it. */
  lemma HitMeansStored(r: Run, key: string)
    requires Stores(r) && key != ""
    ensures Lookup(r.table.keys, key) < CAPACITY <==>
            exists p: nat :: InWindow(|r.inserted|, p) && Stored(r.inserted[p]) == key
    ensures var i := Lookup(r.table.keys, key);
            i < CAPACITY ==>
              exists p: nat :: InWindow(|r.inserted|, p) && Slot(p) == i && Stored(r.inserted[p]) == key
  {
    hide Slot, Stored;
    var n := |r.inserted|;
    var i := Lookup(r.table.keys, key);
    if i < CAPACITY {
      var p: nat :| InWindow(n, p) && Slot(p) == i;
      assert Stored(r.inserted[p]) == key;
    }
    if p: nat :| InWindow(n, p) && Stored(r.inserted[p]) == key {
      SlotUsed(n, p);
      assert r.table.keys[Slot(p)] == key;
    }
  }

  lemma StoredShort(key: string)
    ensures |Stored(key)| <= 95 && (key != "" ==> Stored(key) != "")
    ensures |key| <= 95 ==> Stored(key) == key
    ensures |key| > 95 ==> |Stored(key)| == 95
  {
  }

  // ---- one question ----

  lemma UpdateStores(r: Run, a: Ask)
    requires Stores(r) && !Ignored(a) && Hit(r.table, a)
    ensures var i := Lookup(r.table.keys, a.key);
            Stores(r.(table := r.table.(sent := r.table.sent[i := a.now])))
  {
  }

  /** A permitted send of a key the table stores. */
  function Updated(r: Run, a: Ask): Run
    requires TableOk(r.table) && Hit(r.table, a)
  {
    var i := Lookup(r.table.keys, a.key);
    Run(r.table.(sent := r.table.sent[i := a.now]), r.inserted, r.permitted[a.key := a.now],
        r.home[a.key := Position(|r.inserted|, i)])
  }

  lemma HitIsShort(r: Run, a: Ask)
    requires Stores(r) && !Ignored(a) && Hit(r.table, a)
    ensures |a.key| <= 95
  {
    HitMeansStored(r, a.key);
    var p: nat :| InWindow(|r.inserted|, p) && Stored(r.inserted[p]) == a.key;
    StoredShort(r.inserted[p]);
  }

  /** The home of the send is the insertion whose slot was found. */
  lemma NewHome(r: Run, a: Ask)
    requires Stores(r) && !Ignored(a) && Hit(r.table, a)
    ensures var i := Lookup(r.table.keys, a.key); var p := Position(|r.inserted|, i);
            InWindow(|r.inserted|, p) && Slot(p) == i && Stored(r.inserted[p]) == a.key
  {
    hide Slot, Position, Stored;
    HitMeansStored(r, a.key);
    var i := Lookup(r.table.keys, a.key);
    var p: nat :| InWindow(|r.inserted|, p) && Slot(p) == i && Stored(r.inserted[p]) == a.key;
    SlotUsed(|r.inserted|, p);
  }

  lemma UpdateOwnHome(r: Run, a: Ask)
    requires Stores(r) && !Ignored(a) && Hit(r.table, a) && Stores(Updated(r, a))
    ensures HomeOk(Updated(r, a), a.key)
  {
    hide Slot, Position, Stored;
    NewHome(r, a);
  }

  lemma UpdateOtherHome(r: Run, a: Ask, k: string)
    requires Stores(r) && !Ignored(a) && Hit(r.table, a) && Stores(Updated(r, a))
    requires k in r.permitted && k != a.key && HomeOk(r, k)
    ensures HomeOk(Updated(r, a), k)
  {
    hide Position, Stored, Lookup;
    var n := |r.inserted|;
    if InWindow(n, r.home[k]) {
      assert r.table.keys[Slot(r.home[k])] == k;
    }
  }

  lemma UpdateHomes(r: Run, a: Ask)
    requires Stores(r) && Homes(r) && Past(r, a.now) && !Ignored(a) && Hit(r.table, a)
    ensures Stores(Updated(r, a)) && Homes(Updated(r, a)) && Past(Updated(r, a), a.now)
  {
    hide Slot, Position, Stored, HomeOk;
    UpdateStores(r, a);
    forall k | k in Updated(r, a).permitted && |k| <= 95 ensures HomeOk(Updated(r, a), k) {
      if k == a.key {
        UpdateOwnHome(r, a);
      } else {
        UpdateOtherHome(r, a, k);
      }
    }
  }

  lemma UpdateFresh(r: Run, a: Ask)
    requires Stores(r) && Fresh(r) && !Ignored(a) && Hit(r.table, a)
    ensures Fresh(Updated(r, a))
  {
    hide Slot, Position, Stored;
    NewHome(r, a);
    var after := Updated(r, a);
    var n := |r.inserted|;
    var h := after.home[a.key];
    forall p: nat | InWindow(n, p) && |r.inserted[p]| <= 95
      ensures r.inserted[p] in after.permitted && r.inserted[p] in after.home && p <= after.home[r.inserted[p]]
    {
      assert InWindow(n, h) && Stored(r.inserted[h]) == a.key;
    }
  }

  /** A send of a key the table does not store. */
  function Added(r: Run, a: Ask): Run
    requires TableOk(r.table)
  {
    Run(Insert(r.table, a), r.inserted + [a.key], r.permitted[a.key := a.now], r.home[a.key := |r.inserted|])
  }

  lemma NextSlot(n: nat)
    ensures (Slot(n) + 1) % CAPACITY == Slot(n + 1) < CAPACITY
  {
  }

  lemma InsertStores(r: Run, a: Ask)
    requires Stores(r) && !Ignored(a)
    ensures Stores(Added(r, a))
  {
    var n := |r.inserted|;
    var after := Added(r, a);
    NextSlot(n);
    StoredShort(a.key);
    hide Slot, Stored;
    forall p: nat | InWindow(n + 1, p) ensures after.table.keys[Slot(p)] == Stored(after.inserted[p]) {
      SlotUsed(n + 1, p);
      if p < n {
        SlotDistinct(n + 1, p, n);
        assert InWindow(n, p);
      }
    }
    forall i | 0 <= i < CAPACITY && after.table.keys[i] != ""
      ensures exists p: nat :: InWindow(n + 1, p) && Slot(p) == i
    {
      if i == Slot(n) {
        assert InWindow(n + 1, n);
      } else {
        var p: nat :| InWindow(n, p) && Slot(p) == i;
        if !InWindow(n + 1, p) {
          SlotUsed(n, p);
        }
      }
    }
  }

  lemma InsertOwnHome(r: Run, a: Ask)
    requires Stores(r) && !Ignored(a) && !Hit(r.table, a) && Stores(Added(r, a)) && |a.key| <= 95
    ensures HomeOk(Added(r, a), a.key)
  {
    hide Stored, Lookup;
    StoredShort(a.key);
    NotBefore(r, a);
  }

  lemma InsertOtherHome(r: Run, a: Ask, k: string)
    requires Stores(r) && !Ignored(a) && Stores(Added(r, a))
    requires k in r.permitted && k != a.key && HomeOk(r, k) && r.permitted[k] <= a.now
    ensures HomeOk(Added(r, a), k)
  {
    hide Stored, Lookup;
    var n := |r.inserted|;
    if InWindow(n + 1, r.home[k]) {
      SlotDistinct(n + 1, r.home[k], n);
      assert InWindow(n, r.home[k]);
    }
  }

  lemma InsertHomes(r: Run, a: Ask)
    requires Stores(r) && Homes(r) && Past(r, a.now) && !Ignored(a) && !Hit(r.table, a) && PermittedBy(r, a.now)
    ensures Stores(Added(r, a)) && Homes(Added(r, a)) && Past(Added(r, a), a.now)
  {
    hide Slot, Stored, HomeOk, Lookup;
    InsertStores(r, a);
    forall k | k in Added(r, a).permitted && |k| <= 95 ensures HomeOk(Added(r, a), k) {
      if k == a.key {
        InsertOwnHome(r, a);
      } else {
        InsertOtherHome(r, a, k);
      }
    }
  }

  lemma NotBefore(r: Run, a: Ask)
    requires Stores(r) && !Hit(r.table, a)
    ensures forall j :: 0 <= j < CAPACITY && j != r.table.next ==> Insert(r.table, a).keys[j] != a.key
  {
  }

  lemma InsertFresh(r: Run, a: Ask)
    requires Stores(r) && Fresh(r) && !Ignored(a) && !Hit(r.table, a)
    ensures Fresh(Added(r, a))
  {
    hide Slot, Stored;
    HitMeansStored(r, a.key);
    var after := Added(r, a);
    var n := |r.inserted|;
    forall p: nat, q: nat | InWindow(n + 1, p) && InWindow(n + 1, q) && p < q
      ensures Stored(after.inserted[p]) != after.inserted[q]
    {
      assert InWindow(n, p) && after.inserted[p] == r.inserted[p];
      assert q < n ==> InWindow(n, q) && after.inserted[q] == r.inserted[q];
    }
    forall p: nat | InWindow(n + 1, p) && |after.inserted[p]| <= 95
      ensures after.inserted[p] in after.permitted && after.inserted[p] in after.home
      ensures p <= after.home[after.inserted[p]]
    {
      assert p < n ==> InWindow(n, p) && after.inserted[p] == r.inserted[p];
    }
  }

  ghost predicate PermittedBy(r: Run, now: nat) {
    forall k :: k in r.permitted ==> r.permitted[k] <= now
  }

  /** One question keeps the account, whatever the length of its key. */
  lemma StepFaithful(r: Run, a: Ask)
    requires Faithful(r) && Past(r, a.now) && PermittedBy(r, a.now)
    ensures Faithful(Step(r, a)) && Past(Step(r, a), a.now) && PermittedBy(Step(r, a), a.now)
  {
    hide Homes, Fresh, Stores, Position;
    StoresTable(r);
    if !Ignored(a) {
      if Hit(r.table, a) {
        UpdateHomes(r, a);
        UpdateFresh(r, a);
      } else {
        InsertHomes(r, a);
        InsertFresh(r, a);
      }
    }
  }

  /** After any run, keys of any length, with a clock that never goes back. */
  lemma {:induction false} RunFaithful(asks: seq<Ask>, now: nat)
    requires Clocked(asks) && forall i :: 0 <= i < |asks| ==> asks[i].now <= now
    ensures Faithful(RunAsks(asks)) && Past(RunAsks(asks), now) && PermittedBy(RunAsks(asks), now)
  {
    hide Faithful;
    if asks == [] {
      assert Faithful(RunAsks([])) by { EmptyFaithful(); }
    } else {
      var n := |asks| - 1;
      RunFaithful(asks[..n], asks[n].now);
      StepFaithful(RunAsks(asks[..n]), asks[n]);
    }
  }

  lemma EmptyFaithful()
    ensures Faithful(RunAsks([]))
  {
  }

  // ---- what it means for one key ----

  /** The key itself is among the last sixteen insertions. */
  ghost predicate Remembered(r: Run, key: string) {
    exists p: nat :: InWindow(|r.inserted|, p) && r.inserted[p] == key
  }

  /** One of the last sixteen insertions is of a longer key whose first 95 bytes are this key. */
  ghost predicate Clash(r: Run, key: string) {
    exists p: nat :: InWindow(|r.inserted|, p) && r.inserted[p] != key && Stored(r.inserted[p]) == key
  }

  lemma RunBefore(asks: seq<Ask>, a: Ask)
    requires Clocked(asks + [a])
    ensures Faithful(RunAsks(asks)) && Past(RunAsks(asks), a.now) && PermittedBy(RunAsks(asks), a.now)
  {
    hide Faithful;
    var all := asks + [a];
    assert forall i :: 0 <= i < |asks| ==> all[i] == asks[i];
    assert all[|asks|] == a;
    RunFaithful(asks, a.now);
  }

  /** A remembered key with no clash has its own slot, with its own last permitted time. */
  lemma OwnSlot(r: Run, key: string)
    requires Faithful(r) && key != "" && |key| <= 95 && !Clash(r, key)
    ensures Lookup(r.table.keys, key) < CAPACITY <==> Remembered(r, key)
    ensures Remembered(r, key) ==>
              key in r.permitted && r.table.sent[Lookup(r.table.keys, key)] == r.permitted[key]
  {
    hide Slot, Stored;
    StoredShort(key);
    HitMeansStored(r, key);
    var n := |r.inserted|;
    var i := Lookup(r.table.keys, key);
    if i < CAPACITY {
      var p: nat :| InWindow(n, p) && Slot(p) == i && Stored(r.inserted[p]) == key;
      assert r.inserted[p] == key;
      var h := r.home[key];
      assert p <= h < n && Stored(r.inserted[h]) == key;
      assert InWindow(n, h) && r.inserted[h] == key;
      assert h == p;
    }
  }

  /** The limiter, exactly: for a key of at most 95 bytes that no longer key of the last sixteen
      insertions clashes with, a send is refused if and only if the key itself is among those sixteen
      and was last permitted less than the cooldown ago. The other keys of the run are arbitrary. */
  lemma RefusedExactly(asks: seq<Ask>, a: Ask)
    requires Clocked(asks + [a]) && !Ignored(a) && |a.key| <= 95 && !Clash(RunAsks(asks), a.key)
    ensures var r := RunAsks(asks);
            Query(r.table, a).1 <==>
            Remembered(r, a.key) && a.key in r.permitted && a.now - r.permitted[a.key] < a.cooldown
  {
    hide Faithful, Remembered, RunAsks, Lookup, Clash;
    RunBefore(asks, a);
    OwnSlot(RunAsks(asks), a.key);
  }

  /** A key of at most 94 bytes has no clash. */
  lemma ShorterNeverClashes(r: Run, key: string)
    requires |key| < 95
    ensures !Clash(r, key)
  {
    if p: nat :| InWindow(|r.inserted|, p) && r.inserted[p] != key && Stored(r.inserted[p]) == key {
      StoredShort(r.inserted[p]);
    }
  }

  /** A clash is what it takes, and enough, for a key to be refused that is itself not among the last
      sixteen insertions, and may never have been sent at all. */
  lemma ClashRefuses(asks: seq<Ask>, key: string, now: nat)
    requires Clocked(asks + [Ask(key, 1, now)]) && key != "" && |key| <= 95
    requires !Remembered(RunAsks(asks), key)
    ensures (exists cooldown :: cooldown > 0 && Query(RunAsks(asks).table, Ask(key, cooldown, now)).1) <==>
            Clash(RunAsks(asks), key)
  {
    hide Homes, Fresh, RunAsks, Lookup, Slot, Stored;
    RunBefore(asks, Ask(key, 1, now));
    var r := RunAsks(asks);
    HitMeansStored(r, key);
    if Clash(r, key) {
      var i := Lookup(r.table.keys, key);
      assert Query(r.table, Ask(key, now + 1, now)).1;
    }
  }

  /** Two permitted sends of a key are at least the second one's cooldown apart, unless the insertion
      that held the first one, which stored this key, was pushed out of the table in between. No
      assumption on the other keys. */
  lemma SpacedApart(asks: seq<Ask>, a: Ask)
    requires Clocked(asks + [a]) && !Ignored(a) && |a.key| <= 95
    requires !Query(RunAsks(asks).table, a).1 && a.key in RunAsks(asks).permitted
    ensures var r := RunAsks(asks);
            && a.key in r.home && r.home[a.key] < |r.inserted| && Stored(r.inserted[r.home[a.key]]) == a.key
            && (a.now - r.permitted[a.key] >= a.cooldown || r.home[a.key] + 16 < |r.inserted|)
  {
    hide RunAsks, Stored, Fresh, Slot;
    RunBefore(asks, a);
    var r := RunAsks(asks);
    var h := r.home[a.key];
    if InWindow(|r.inserted|, h) {
      SlotUsed(|r.inserted|, h);
      assert r.table.keys[Slot(h)] == a.key;
      var i := Lookup(r.table.keys, a.key);
      assert i <= Slot(h);
    }
  }

  /** A key of 96 bytes or more is stored shortened and never found again: on no run is it refused. */
  lemma LongKeyNeverRefused(asks: seq<Ask>, a: Ask)
    requires Clocked(asks + [a]) && |a.key| > 95
    ensures !Query(RunAsks(asks).table, a).1
    ensures a.cooldown > 0 ==> Query(RunAsks(asks).table, a).0 == Insert(RunAsks(asks).table, a)
  {
    hide RunAsks, Homes, Fresh;
    RunBefore(asks, a);
    if !Ignored(a) && Hit(RunAsks(asks).table, a) {
      HitIsShort(RunAsks(asks), a);
    }
  }

  /** A concrete refusal of a key never sent before: its only fault is to be the beginning of a longer one. */
  lemma PrefixRefused(long: string)
    requires |long| > 95
    ensures var r := RunAsks([Ask(long, 100, 5)]); var short := long[..95];
            short !in r.permitted && Query(r.table, Ask(short, 100, 6)).1
  {
    var first := Ask(long, 100, 5);
    var asks := [first];
    var short := long[..95];
    assert asks[..0] == [];
    LookupNothing(long);
    var t := Insert(Empty(), first);
    assert RunAsks(asks).table == t;
    assert t.keys[0] == short && Lookup(t.keys, short) == 0;
  }

  lemma LookupNothing(key: string)
    requires key != ""
    ensures Lookup(Empty().keys, key) == CAPACITY
  {
    assert forall i :: 0 <= i < CAPACITY ==> Empty().keys[i] == "";
  }
}
