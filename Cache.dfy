/**
 * The key-value cache in front of the Douban fetch: a Redis store whose entries expire a
 * fixed time after they are written, and whose errors are logged and swallowed, so a
 * failing store reads as a miss and writes as a no-op.
 */
module TtlCache {
  import opened Base
  import opened Json

  /** Seven days, in seconds. */
  const CacheDurationSeconds: int := 7 * 24 * 60 * 60

  /** A stored value and the second at which it expires. */
  datatype Entry = Entry(value: Json, expiry: int)

  /** What a read at second `now` sees: the value while its entry is live, else nothing. */
  function Lookup(store: map<string, Entry>, key: string, now: int): (r: Option<Json>)
    ensures r.Some? <==> key in store && now < store[key].expiry
    ensures r.Some? ==> r.value == store[key].value
  {
    if key in store && now < store[key].expiry then Some(store[key].value) else None
  }

  /** The entry a write at second `now` leaves behind. */
  function Fresh(value: Json, now: int): (e: Entry)
    ensures e.value == value && e.expiry == now + 604800
  {
    Entry(value, now + CacheDurationSeconds)
  }

  /** A value written at `now` is read back unchanged until seven days have passed, and then it is gone. */
  lemma SetThenGet(store: map<string, Entry>, key: string, value: Json, now: int, later: int)
    requires now <= later
    ensures later < now + CacheDurationSeconds ==> Lookup(store[key := Fresh(value, now)], key, later) == Some(value)
    ensures later >= now + CacheDurationSeconds ==> Lookup(store[key := Fresh(value, now)], key, later) == None
  {
  }

  /** A write leaves what every other key reads unchanged. */
  lemma SetKeepsOthers(store: map<string, Entry>, key: string, value: Json, now: int, other: string, later: int)
    requires other != key
    ensures Lookup(store[key := Fresh(value, now)], other, later) == Lookup(store, other, later)
  {
  }

  class Cache {
    /** The Redis keyspace. */
    var store: map<string, Entry>
    /** Whether every call to the store throws (unreachable, misconfigured). */
    var failing: bool

    constructor(failing: bool)
      ensures store == map[] && this.failing == failing
    {
      store := map[];
      this.failing := failing;
    }

    /** `cache.get(key)`: the live value, or `null` on a miss or a store error. */
    method Get(key: string, now: int) returns (data: Option<Json>)
      ensures failing ==> data.None?
      ensures !failing ==> data == Lookup(store, key, now)
    {
      if failing {
        return None;
      }
      data := Lookup(store, key, now);
    }

    /** `cache.set(key, data)`: write with the seven-day expiry; a store error changes nothing. */
    method Set(key: string, value: Json, now: int)
      modifies this
      ensures failing == old(failing)
      ensures !failing ==> store == old(store)[key := Fresh(value, now)]
      ensures failing ==> store == old(store)
    {
      if !failing {
        store := store[key := Fresh(value, now)];
      }
    }
  }
}
