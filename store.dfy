/**
  The backing key-value store, reduced to the three primitives the heartbeat
  uses (SETEX, GET, DELETE) over an abstract clock. An entry written with a
  time-to-live is visible while the clock is strictly before its expiry.
 */
module KeyValueStore {
  import opened Wrappers

  /** A time-to-live: a positive number of clock ticks. */
  type Duration = t: nat | t > 0 witness 1

  /** A stored value (the bytes Redis holds) and the instant it expires. */
  datatype Entry = Entry(value: string, expiry: nat)

  type Entries = map<string, Entry>

  /** What GET answers at time `now`: the value if the key is present and
      not yet expired, otherwise nothing. */
  function Lookup(m: Entries, now: nat, name: string): Option<string> {
    if name in m && now < m[name].expiry then Some(m[name].value) else None
  }

  /** The entries after SETEX: `name` holds `value` until `now + time`,
      every other key keeps its entry. */
  function AfterSetEx(m: Entries, name: string, value: string, now: nat, time: Duration): (r: Entries)
    ensures r.Keys == m.Keys + {name}
    ensures forall k :: k in m && k != name ==> r[k] == m[k]
    ensures Lookup(r, now, name) == Some(value)
  {
    m[name := Entry(value, now + time)]
  }

  /** The entries after DELETE: `name` is gone, every other key keeps its
      entry; deleting an absent key changes nothing. */
  function AfterDelete(m: Entries, name: string): (r: Entries)
    ensures r.Keys == m.Keys - {name}
    ensures forall k :: k in r ==> r[k] == m[k]
    ensures name !in m ==> r == m
  {
    m - {name}
  }

  /** A SETEX entry is visible exactly until its time-to-live has elapsed. */
  lemma LookupAfterSetEx(m: Entries, name: string, value: string, now: nat, time: Duration, t: nat)
    requires now <= t
    ensures Lookup(AfterSetEx(m, name, value, now, time), t, name)
         == if t < now + time then Some(value) else None
  {
  }

  /** The store itself: its entries and the current time. */
  class Store {
    var entries: Entries
    var now: nat

    constructor ()
      ensures entries == map[] && now == 0
    {
      entries := map[];
      now := 0;
    }

    /** SETEX name time value. */
    method SetEx(name: string, value: string, time: Duration)
      modifies this`entries
      ensures entries == AfterSetEx(old(entries), name, value, now, time)
    {
      entries := entries[name := Entry(value, now + time)];
    }

    /** GET name. */
    method Get(name: string) returns (r: Option<string>)
      ensures r == Lookup(entries, now, name)
      ensures r.Some? ==> name in entries && now < entries[name].expiry
    {
      if name in entries && now < entries[name].expiry {
        r := Some(entries[name].value);
      } else {
        r := None;
      }
    }

    /** DELETE name. */
    method Delete(name: string)
      modifies this`entries
      ensures entries == AfterDelete(old(entries), name)
    {
      entries := entries - {name};
    }

    /** The passage of time. */
    method Advance(dt: nat)
      modifies this`now
      ensures now == old(now) + dt
    {
      now := now + dt;
    }
  }
}
