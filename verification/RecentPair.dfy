/**
 The engine manager's memory of the two most recently used engines.
 */
module RecentPair {
  import opened KeyTypes

  datatype Pair = Pair(primary: Option<string>, secondary: Option<string>)

  datatype Entry = Entry(name: string, keyboard: bool)

  function NotNamed(o: Option<string>, name: string): Option<string> {
    if o == Some(name) then None else o
  }

  function Update(p: Pair, name: string): Pair {
    if name == "" || p.primary == Some(name) then p
    else Pair(Some(name), if NotNamed(p.primary, name).Some? then p.primary else NotNamed(p.secondary, name))
  }

  /** First entry of that name. */
  function FindEntry(entries: seq<Entry>, name: string): (r: Option<nat>)
    ensures r.Some? ==> r.value < |entries| && entries[r.value].name == name
    ensures r.None? ==> forall i :: 0 <= i < |entries| ==> entries[i].name != name
    ensures r.Some? ==> forall i :: 0 <= i < r.value ==> entries[i].name != name
  {
    if entries == [] then None
    else if entries[0].name == name then Some(0)
    else
      match FindEntry(entries[1..], name)
      case None => None
      case Some(i) => Some(i + 1)
  }

  predicate IsKeyboard(entries: seq<Entry>, name: string) {
    var i := FindEntry(entries, name);
    i.Some? && entries[i.value].keyboard
  }

  function PartnerName(p: Pair, current: string): Option<string> {
    if p.primary == Some(current) then p.secondary
    else if p.secondary == Some(current) then p.primary
    else None
  }

  function Partner(entries: seq<Entry>, p: Pair, active: Option<nat>): (r: Option<nat>)
    ensures r.Some? ==> r.value < |entries|
  {
    if active.None? || active.value >= |entries| then None
    else
      match PartnerName(p, entries[active.value].name)
      case None => None
      case Some(name) => if IsKeyboard(entries, name) then FindEntry(entries, name) else None
  }

  class EngineManager {
    var entries: seq<Entry>
    var active: Option<nat>
    var primary: Option<string>
    var secondary: Option<string>

    function Recent(): Pair
      reads this
    {
      Pair(primary, secondary)
    }

    constructor (entries: seq<Entry>)
      ensures this.entries == entries && active == None && Recent() == Pair(None, None)
    {
      this.entries := entries;
      active, primary, secondary := None, None, None;
    }

    method UpdateRecentPair(name: string)
      modifies this`primary, this`secondary
      ensures Recent() == Update(old(Recent()), name)
    {
      if name == "" || primary == Some(name) {
        return;
      }
      var kept := NotNamed(primary, name);
      secondary := if kept.Some? then kept else NotNamed(secondary, name);
      primary := Some(name);
    }

    method RecentPartnerIndex() returns (r: Option<nat>)
      ensures r == Partner(entries, Recent(), active)
    {
      if active == None || active.value >= |entries| {
        return None;
      }
      var current := entries[active.value].name;
      var partner := if primary == Some(current) then secondary
                     else if secondary == Some(current) then primary
                     else None;
      if partner == None || !IsKeyboard(entries, partner.value) {
        return None;
      }
      r := FindEntry(entries, partner.value);
    }
  }

  // ---- histories ----

  function Remember(names: seq<string>): Pair {
    if names == [] then Pair(None, None) else Update(Remember(names[..|names| - 1]), names[|names| - 1])
  }

  /** The most recent non-empty name, other than the given one if there is one to avoid. */
  function Latest(names: seq<string>, avoid: Option<string>): Option<string> {
    if names == [] then None
    else
      var name := names[|names| - 1];
      if name != "" && avoid != Some(name) then Some(name) else Latest(names[..|names| - 1], avoid)
  }

  lemma {:induction false} LatestAvoids(names: seq<string>, avoid: Option<string>)
    ensures var r := Latest(names, avoid); r.Some? ==> r != avoid && r.value != "" && r.value in names
    ensures Latest(names, None).None? ==> Latest(names, avoid).None?
    ensures Latest(names, None) != avoid ==> Latest(names, avoid) == Latest(names, None)
  {
    if names != [] {
      LatestAvoids(names[..|names| - 1], avoid);
    }
  }

  /** After any history of names: the primary is the latest one, the secondary the latest one that
      differs from it; so the two are never equal. */
  lemma {:induction false} RemembersLatestTwo(names: seq<string>)
    ensures var p := Remember(names);
            && p.primary == Latest(names, None)
            && p.secondary == (if p.primary.Some? then Latest(names, p.primary) else None)
            && (p.secondary.Some? ==> p.secondary != p.primary)
  {
    if names != [] {
      var before := names[..|names| - 1];
      var name := names[|names| - 1];
      RemembersLatestTwo(before);
      var p := Remember(before);
      LatestAvoids(before, Some(name));
      LatestAvoids(before, p.primary);
      LatestAvoids(names, Latest(names, None));
      if name != "" && p.primary != Some(name) && p.primary.Some? {
        assert Latest(names, Some(name)) == Latest(before, Some(name));
      }
    }
  }

  /** Looking the partner up and switching to it swaps the two names; doing it twice returns to the
      start exactly when the start is the first entry of its name. */
  lemma PartnerSwaps(entries: seq<Entry>, p: Pair, start: nat)
    requires start < |entries| && p.primary.Some? && p.secondary.Some? && p.primary != p.secondary
    requires IsKeyboard(entries, p.primary.value) && IsKeyboard(entries, p.secondary.value)
    requires Some(entries[start].name) == p.primary || Some(entries[start].name) == p.secondary
    ensures var other := Partner(entries, p, Some(start));
            && other.Some?
            && Some(entries[other.value].name) ==
               (if Some(entries[start].name) == p.primary then p.secondary else p.primary)
            && (Partner(entries, p, other) == Some(start) <==> FindEntry(entries, entries[start].name) == Some(start))
  {
  }
}
