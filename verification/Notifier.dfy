/**
 The notifier's table updated in place, proved against NotifierSpec.
 */
module NotifierClass {
  import opened NotifierSpec

  class Notifier {
    const keys: array<string>
    const sent: array<nat>
    var nextSlot: nat

    ghost predicate Valid()
      reads this
    {
      keys.Length == CAPACITY && sent.Length == CAPACITY && nextSlot < CAPACITY
    }

    ghost function Recent(): (t: Table)
      requires Valid()
      reads this, keys, sent
      ensures TableOk(t)
    {
      Table(keys[..], sent[..], nextSlot)
    }

    constructor ()
      ensures Valid() && Recent() == Empty() && fresh(keys) && fresh(sent)
    {
      keys, sent, nextSlot := new string[CAPACITY](_ => ""), new nat[CAPACITY](_ => 0), 0;
    }

    /** Whether this send is refused; a permitted one is remembered. */
    method IsRateLimited(key: string, cooldown: nat, now: nat) returns (refused: bool)
      requires Valid()
      modifies this, keys, sent
      ensures Valid()
      ensures (Recent(), refused) == Query(old(Recent()), Ask(key, cooldown, now))
    {
      if key == "" || cooldown == 0 {
        return false;
      }
      for i := 0 to CAPACITY
        invariant Valid() && Recent() == old(Recent())
        invariant forall k :: 0 <= k < i ==> keys[k] != key
      {
        if keys[i] != "" && keys[i] == key {
          assert Lookup(keys[..], key) == i;
          if now >= sent[i] && now - sent[i] < cooldown {
            return true;
          }
          sent[i] := now;
          return false;
        }
      }
      assert Lookup(keys[..], key) == CAPACITY;
      keys[nextSlot] := Stored(key);
      sent[nextSlot] := now;
      nextSlot := (nextSlot + 1) % CAPACITY;
      return false;
    }
  }
}
