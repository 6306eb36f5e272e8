/** redis-cache.service.ts: a best-effort key-value store with expiry. Times are milliseconds. */
module RedisCache {
  import opened Common

  datatype Entry<+V> = Entry(value: V, expires: Option<int>)

  /** An entry that has not expired at the given time. */
  function Live<V>(entry: Option<Entry<V>>, now: int): Option<V> {
    if entry.Some? && (entry.value.expires.Some? ==> now < entry.value.expires.value) then Some(entry.value.value) else None
  }

  function At<V>(store: map<string, Entry<V>>, key: string): Option<Entry<V>> {
    if key in store then Some(store[key]) else None
  }

  /** The entry written at `now`; a missing or zero ttl never expires. */
  function Fresh<V>(value: V, ttlSeconds: nat, now: int): Entry<V> {
    Entry(value, if ttlSeconds > 0 then Some(now + 1000 * ttlSeconds) else None)
  }

  /** Every method swallows a failing Redis call; `fails` says whether this one fails. */
  class RedisCache<V> {
    const isConnected: bool
    var store: map<string, Entry<V>>

    constructor (isConnected: bool)
      ensures this.isConnected == isConnected && store == map[]
    {
      this.isConnected := isConnected;
      store := map[];
    }

    method Get(key: string, now: int, fails: bool) returns (r: Option<V>)
      ensures r == if isConnected && !fails then Live(At(store, key), now) else None
    {
      if !isConnected || fails { return None; }
      return Live(At(store, key), now);
    }

    method Set(key: string, value: V, ttlSeconds: nat, now: int, fails: bool)
      modifies this`store
      ensures store == if isConnected && !fails then old(store)[key := Fresh(value, ttlSeconds, now)] else old(store)
    {
      if !isConnected || fails { return; }
      store := store[key := Fresh(value, ttlSeconds, now)];
    }

    method Del(key: string, fails: bool)
      modifies this`store
      ensures store == if isConnected && !fails then old(store) - {key} else old(store)
    {
      if !isConnected || fails { return; }
      store := store - {key};
    }

    /** `produced` is what the factory yields if it is called. */
    method GetOrSet(key: string, produced: V, ttlSeconds: nat, now: int, getFails: bool, setFails: bool) returns (r: V)
      modifies this`store
      ensures var hit := if isConnected && !getFails then Live(At(old(store), key), now) else None;
              && r == (if hit.Some? then hit.value else produced)
              && (hit.Some? ==> store == old(store))
              && (hit.None? ==> store == if isConnected && !setFails
                                         then old(store)[key := Fresh(produced, ttlSeconds, now)] else old(store))
              && (isConnected && !setFails && !getFails ==> Live(At(store, key), now) == Some(r))
    {
      var cached := Get(key, now, getFails);
      if cached.Some? { return cached.value; }
      Set(key, produced, ttlSeconds, now, setFails);
      return produced;
    }
  }
}
