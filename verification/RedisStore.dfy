/** The part of Redis the services rely on: keys with a time to live, and the scripts that read and
    write one key in one step. */
module RedisStore {
  import opened Wrappers

  type Time = int    // milliseconds on the Redis clock

  datatype Entry<+V> = Entry(value: V, deadline: Option<Time>)

  predicate IsLive<V>(entries: map<string, Entry<V>>, now: Time, key: string) {
    key in entries && (entries[key].deadline.None? || now < entries[key].deadline.value)
  }

  function Lookup<V>(entries: map<string, Entry<V>>, now: Time, key: string): Option<V> {
    if IsLive(entries, now, key) then Some(entries[key].value) else None
  }

  function Expiring<V>(value: V, now: Time, ttlSeconds: nat): Entry<V> {
    Entry(value, Some(now + ttlSeconds * 1000))
  }

  /** A Redis database. The clock stands still during a call, and whoever uses the database sets it between calls. */
  class Redis<V(==)> {
    var entries: map<string, Entry<V>>
    var now: Time

    constructor (start: Time)
      ensures entries == map[] && now == start
    {
      entries, now := map[], start;
    }

    /** SET key value NX EX ttl */
    method SetIfAbsent(key: string, value: V, ttlSeconds: nat) returns (stored: bool)
      modifies this`entries
      ensures stored == !IsLive(old(entries), now, key)
      ensures entries == if stored then old(entries)[key := Expiring(value, now, ttlSeconds)] else old(entries)
    {
      if key in entries && (entries[key].deadline.None? || now < entries[key].deadline.value) {
        return false;
      }
      entries := entries[key := Entry(value, Some(now + ttlSeconds * 1000))];
      return true;
    }

    method Get(key: string) returns (r: Option<V>)
      ensures r == Lookup(entries, now, key)
    {
      r := if IsLive(entries, now, key) then Some(entries[key].value) else None;
    }

    /** GET, then DEL if there was a value. */
    method Consume(key: string) returns (r: Option<V>)
      modifies this`entries
      ensures r == Lookup(old(entries), now, key)
      ensures entries == if r.Some? then old(entries) - {key} else old(entries)
    {
      r := Get(key);
      if r.Some? {
        entries := entries - {key};
      }
    }

    /** GET, then DEL if the value is the expected one. */
    method ConsumeIfValue(key: string, expected: V) returns (r: Option<V>)
      modifies this`entries
      ensures r == if Lookup(old(entries), now, key) == Some(expected) then Some(expected) else None
      ensures entries == if r.Some? then old(entries) - {key} else old(entries)
    {
      r := Get(key);
      if r == Some(expected) {
        entries := entries - {key};
      } else {
        r := None;
      }
    }
  }

  /** The script of the rate limiter, on a database of counters. */
  method IncrementWithTtl(redis: Redis<nat>, key: string, ttlSeconds: nat) returns (count: nat)
    modifies redis`entries
    ensures count == IncrementedCount(old(redis.entries), redis.now, key)
    ensures redis.entries == Incremented(old(redis.entries), redis.now, key, ttlSeconds)
  {
    var current := redis.Get(key);
    count := if current.Some? then current.value + 1 else 1;
    // INCR keeps the deadline of a live key; TTL answers -1 for a key that has none.
    var deadline := if current.Some? then redis.entries[key].deadline else None;
    redis.entries := redis.entries[key := Entry(count, deadline)];
    if count == 1 || deadline.None? {
      redis.entries := redis.entries[key := Entry(count, Some(redis.now + ttlSeconds * 1000))];
    }
  }

  function IncrementedCount(entries: map<string, Entry<nat>>, now: Time, key: string): nat {
    if IsLive(entries, now, key) then entries[key].value + 1 else 1
  }

  /** A live counter keeps its deadline, unless it has none or was stored with the value zero. */
  function Incremented(entries: map<string, Entry<nat>>, now: Time, key: string, ttlSeconds: nat)
    : map<string, Entry<nat>>
  {
    var count := IncrementedCount(entries, now, key);
    if count > 1 && entries[key].deadline.Some? then entries[key := Entry(count, entries[key].deadline)]
    else entries[key := Expiring(count, now, ttlSeconds)]
  }
}
